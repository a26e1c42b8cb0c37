/**
 * The song record of the library (Song.kt) and the "m:ss" clock text that
 * the song, the playback state and the seek bar all format durations with.
 */
module Songs {
  import opened Wrappers
  import opened Decimal

  /** A content or artwork URI, kept as its text. */
  datatype Uri = Uri(text: string)

  const EmptyUri: Uri := Uri("")

  /** A track; `duration` is in milliseconds. */
  datatype Song = Song(
    id: int,
    title: string,
    artist: string,
    album: string,
    duration: int,
    contentUri: Uri,
    albumArtUri: Option<Uri>)

  /**
   * `"%d:%02d"` of whole minutes and the remaining seconds of `ms`, both
   * from truncating Long division.
   */
  function ClockText(ms: int): string {
    var totalSeconds := TDiv(ms, 1000);
    ToDecimal(TDiv(totalSeconds, 60)) + ":" + Pad2(TRem(totalSeconds, 60))
  }

  function DurationFormatted(song: Song): string {
    ClockText(song.duration)
  }

  /** The minutes part of a clock text: everything before the last three characters. */
  function MinutesField(t: string): string
    requires 3 <= |t|
  {
    t[..|t| - 3]
  }

  /** The seconds part of a clock text: the last two characters. */
  function SecondsField(t: string): string
    requires 3 <= |t|
  {
    t[|t| - 2..]
  }

  /**
   * For a non-negative time the clock text reads back as the whole seconds:
   * digits, a colon, two digits below 60, and minutes * 60 + seconds is
   * `ms / 1000`.
   */
  lemma ClockTextReadsBack(ms: int)
    requires 0 <= ms
    ensures var t := ClockText(ms);
      && 4 <= |t| && t[|t| - 3] == ':'
      && AllDigits(MinutesField(t)) && AllDigits(SecondsField(t))
      && DigitsValue(SecondsField(t)) < 60
      && DigitsValue(MinutesField(t)) * 60 + DigitsValue(SecondsField(t)) == ms / 1000
  {
    var totalSeconds := ms / 1000;
    TruncatingIsEuclideanForNonNegative(ms, 1000);
    TruncatingIsEuclideanForNonNegative(totalSeconds, 60);
    var m, s := totalSeconds / 60, totalSeconds % 60;
    var t := ClockText(ms);
    assert t == Digits(m) + ":" + Pad2(s);
    Pad2TwoDigits(s);
    DigitsRoundTrip(m);
    assert MinutesField(t) == Digits(m);
    assert SecondsField(t) == Pad2(s);
  }

  /** Two non-negative times have the same clock text exactly when they agree in whole seconds. */
  lemma ClockTextSameSecond(a: int, b: int)
    requires 0 <= a && 0 <= b
    ensures ClockText(a) == ClockText(b) <==> a / 1000 == b / 1000
  {
    TruncatingIsEuclideanForNonNegative(a, 1000);
    TruncatingIsEuclideanForNonNegative(b, 1000);
    if ClockText(a) == ClockText(b) {
      ClockTextReadsBack(a);
      ClockTextReadsBack(b);
    }
  }

  /** Under a second shows "0:00", on either side of zero. */
  lemma ClockTextUnderASecond()
    ensures ClockText(0) == "0:00"
    ensures ClockText(999) == "0:00"
    ensures ClockText(-999) == "0:00"
  {
    assert Digits(0) == "0";
    assert ClockText(0) == "0" + ":" + "0" + "0";
  }

  /** The last second of the first minute. */
  lemma ClockTextMinute()
    ensures ClockText(59_999) == "0:59"
  {
    assert TDiv(59_999, 1000) == 59;
    assert TDiv(59, 60) == 0 && TRem(59, 60) == 59;
    assert DigitChar(0) == '0' && DigitChar(5) == '5' && DigitChar(9) == '9';
    assert 59 / 10 == 5 && 59 % 10 == 9;
    assert Digits(59) == Digits(5) + [DigitChar(9)];
    assert ClockText(59_999) == Digits(0) + ":" + Digits(59);
  }

  /** Minutes are not capped at 59: an hour shows "60:00". */
  lemma ClockTextHour()
    ensures ClockText(3_600_000) == "60:00"
  {
    assert Digits(60) == [DigitChar(6), DigitChar(0)];
    assert TDiv(3_600_000, 1000) == 3600 && TDiv(3600, 60) == 60 && TRem(3600, 60) == 0;
  }

  /** A negative time of a minute or more prints a sign in both fields. */
  lemma ClockTextNegative()
    ensures ClockText(-61_000) == "-1:-1"
  {
    assert Digits(1) == "1";
    assert TDiv(-61_000, 1000) == -61 && TDiv(-61, 60) == -1 && TRem(-61, 60) == -1;
    assert ClockText(-61_000) == "-" + "1" + ":" + "-" + "1";
  }
}
