/**
 * A user playlist (Playlist.kt): its song count, the summed duration and
 * the "H hr M min" / "M min" text of that sum.
 */
module Playlists {
  import opened Decimal
  import opened Songs

  /** `createdAt` is the creation time in milliseconds, supplied by the caller. */
  datatype Playlist = Playlist(id: int, name: string, songs: seq<Song>, createdAt: int)

  /** `songCount`: the number of songs; zero exactly for an empty playlist. */
  function SongCount(p: Playlist): (n: nat)
    ensures n == 0 <==> p.songs == []
  {
    |p.songs|
  }

  /** The sum of the durations, in list order. */
  function SumDurations(songs: seq<Song>): int {
    if songs == [] then 0 else SumDurations(songs[..|songs| - 1]) + songs[|songs| - 1].duration
  }

  function TotalDuration(p: Playlist): int {
    SumDurations(p.songs)
  }

  /** The total splits over any division of the list, so adding a song adds its duration. */
  lemma {:induction false} SumDurationsAppend(a: seq<Song>, b: seq<Song>)
    ensures SumDurations(a + b) == SumDurations(a) + SumDurations(b)
  {
    if b == [] {
      assert a + b == a;
    } else {
      assert (a + b)[..|a + b| - 1] == a + b[..|b| - 1];
      SumDurationsAppend(a, b[..|b| - 1]);
    }
  }

  /** With no negative durations the total is at least every single duration. */
  lemma {:induction false} SumDurationsBounds(songs: seq<Song>)
    requires forall i :: 0 <= i < |songs| ==> 0 <= songs[i].duration
    ensures 0 <= SumDurations(songs)
    ensures forall i :: 0 <= i < |songs| ==> songs[i].duration <= SumDurations(songs)
  {
    if songs != [] {
      SumDurationsBounds(songs[..|songs| - 1]);
    }
  }

  /** Whole hours and the minutes left over, then the text: "H hr M min", or "M min" under an hour. */
  function TotalDurationFormatted(p: Playlist): string {
    var totalSeconds := TDiv(TotalDuration(p), 1000);
    var hours := TDiv(totalSeconds, 3600);
    var minutes := TDiv(TRem(totalSeconds, 3600), 60);
    if hours > 0 then ToDecimal(hours) + " hr " + ToDecimal(minutes) + " min"
    else ToDecimal(minutes) + " min"
  }

  /**
   * For a non-negative total the text names the whole hours of the
   * milliseconds and the whole minutes past the last full hour; leftover
   * seconds are dropped.
   */
  lemma TotalDurationText(p: Playlist)
    requires 0 <= TotalDuration(p)
    ensures var ms := TotalDuration(p);
      var hours, minutes := ms / 3_600_000, ms / 60_000 % 60;
      TotalDurationFormatted(p) ==
        if hours > 0 then ToDecimal(hours) + " hr " + ToDecimal(minutes) + " min"
        else ToDecimal(minutes) + " min"
  {
    var ms := TotalDuration(p);
    var totalSeconds := ms / 1000;
    TruncatingIsEuclideanForNonNegative(ms, 1000);
    TruncatingIsEuclideanForNonNegative(totalSeconds, 3600);
    TruncatingIsEuclideanForNonNegative(totalSeconds % 3600, 60);
    DivDiv(ms, 1000, 3600);
    DivDiv(ms, 1000, 60);
    var h, r := totalSeconds / 3600, totalSeconds % 3600;
    var m, s := r / 60, r % 60;
    assert totalSeconds == 60 * (60 * h + m) + s by {
      assert totalSeconds == 3600 * h + r;
      assert r == 60 * m + s;
    }
    DivModUnique(totalSeconds, 60, 60 * h + m, s);
    DivModUnique(60 * h + m, 60, h, m);
  }

  /** A playlist shorter than a minute shows "0 min"; an hour exactly shows "1 hr 0 min". */
  lemma TotalDurationTextExamples(p: Playlist)
    ensures 0 <= TotalDuration(p) < 60_000 ==> TotalDurationFormatted(p) == "0 min"
    ensures TotalDuration(p) == 3_600_000 ==> TotalDurationFormatted(p) == "1 hr 0 min"
  {
    assert Digits(0) == "0" && Digits(1) == "1";
  }
}
