/**
 * The seek bar's drag state (SeekBar.kt): while a drag is in progress the
 * slider and the position label follow the drag, and releasing the thumb
 * issues one seek to the dragged fraction. Both labels are "m:ss" texts.
 */
module SeekBar {
  import opened Decimal
  import Songs

  /** The seek bar's own "m:ss" text: whole seconds, then minutes and the seconds left over. */
  function FormatDuration(durationMs: int): string {
    var totalSeconds := TDiv(durationMs, 1000);
    var minutes := TDiv(totalSeconds, 60);
    var seconds := TRem(totalSeconds, 60);
    ToDecimal(minutes) + ":" + Pad2(seconds)
  }

  /**
   * The seek bar prints the same text as a song's duration for every value,
   * so for a non-negative time minutes * 60 + seconds is the whole seconds.
   */
  lemma FormatDurationMatchesSong(durationMs: int)
    ensures FormatDuration(durationMs) == Songs.ClockText(durationMs)
    ensures 0 <= durationMs ==>
      var t := FormatDuration(durationMs);
      && 4 <= |t| && AllDigits(Songs.MinutesField(t)) && AllDigits(Songs.SecondsField(t))
      && DigitsValue(Songs.MinutesField(t)) * 60 + DigitsValue(Songs.SecondsField(t)) == durationMs / 1000
  {
    if 0 <= durationMs {
      Songs.ClockTextReadsBack(durationMs);
    }
  }

  /** `roundToLong`: the nearest integer, halves rounded up. */
  function RoundToLong(x: real): int {
    (x + 0.5).Floor
  }

  /** The rounded value is within one half of the argument, and integers are fixed. */
  lemma RoundToLongNearest(x: real)
    ensures x - 0.5 < RoundToLong(x) as real <= x + 0.5
    ensures x == x.Floor as real ==> RoundToLong(x) == x.Floor
  {
  }

  class SeekBarState {
    var isDragging: bool
    var dragProgress: real

    constructor ()
      ensures !isDragging && dragProgress == 0.0
    {
      isDragging := false;
      dragProgress := 0.0;
    }

    /** What the slider shows: the drag while dragging, otherwise the player's progress. */
    function SliderValue(progress: real): (r: real)
      reads this
      ensures isDragging ==> r == dragProgress
      ensures !isDragging ==> r == progress
    {
      if isDragging then dragProgress else progress
    }

    /** The millisecond position the left label shows. */
    function DisplayPosition(duration: int, currentPosition: int): (r: int)
      reads this
      ensures !isDragging ==> r == currentPosition
      ensures isDragging ==> dragProgress * duration as real - 0.5 < r as real <= dragProgress * duration as real + 0.5
    {
      if isDragging then RoundToLong(dragProgress * duration as real) else currentPosition
    }

    /** A drag fraction within [0, 1] shows a position within the track. */
    lemma DisplayPositionWithinTrack(duration: int, currentPosition: int)
      requires isDragging && 0.0 <= dragProgress <= 1.0 && 0 <= duration
      ensures 0 <= DisplayPosition(duration, currentPosition) <= duration
    {
      var x := dragProgress * duration as real;
      assert 0.0 <= x <= duration as real;
      RoundToLongNearest(x);
    }

    /** Moving the thumb starts (or continues) a drag at `value`; nothing is sought yet. */
    method OnValueChange(value: real)
      modifies this
      ensures isDragging && dragProgress == value
    {
      isDragging := true;
      dragProgress := value;
    }

    /** Releasing the thumb seeks to the last dragged fraction and ends the drag. */
    method OnValueChangeFinished() returns (seekTo: real)
      modifies this
      ensures seekTo == old(dragProgress)
      ensures !isDragging && dragProgress == old(dragProgress)
    {
      seekTo := dragProgress;
      isDragging := false;
    }
  }
}
