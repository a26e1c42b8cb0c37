/**
 * The playback snapshot the player screen renders (PlaybackState.kt):
 * defaults, the progress fraction and the two clock texts.
 */
module Playback {
  import opened Wrappers
  import opened Songs

  datatype RepeatMode = Off | All | One

  /** Positions and durations are in milliseconds. */
  datatype PlaybackState = PlaybackState(
    isPlaying: bool,
    currentSong: Option<Song>,
    currentPosition: int,
    duration: int,
    repeatMode: RepeatMode,
    shuffleEnabled: bool,
    isBuffering: bool)

  /** The state before anything is known: stopped, nothing loaded, repeat off. */
  const Default: PlaybackState := PlaybackState(false, None, 0, 0, Off, false, false)

  /** Fraction of the track played; 0 while the duration is not positive. */
  function Progress(state: PlaybackState): (r: real)
    ensures state.duration <= 0 ==> r == 0.0
    ensures state.duration > 0 ==> r * state.duration as real == state.currentPosition as real
  {
    if state.duration > 0 then state.currentPosition as real / state.duration as real else 0.0
  }

  /** Progress lies in [0, 1] while the position lies within the track, and reaches 1 at its end. */
  lemma ProgressBounds(state: PlaybackState)
    requires 0 < state.duration && 0 <= state.currentPosition <= state.duration
    ensures 0.0 <= Progress(state) <= 1.0
    ensures Progress(state) == 1.0 <==> state.currentPosition == state.duration
  {
    assert Progress(state) * state.duration as real == state.currentPosition as real;
  }

  /** Progress is not clamped: a position past the end reads as more than the whole track. */
  lemma ProgressNotClamped(state: PlaybackState)
    requires 0 < state.duration < state.currentPosition
    ensures Progress(state) > 1.0
  {
    assert Progress(state) * state.duration as real == state.currentPosition as real;
  }

  function CurrentPositionFormatted(state: PlaybackState): string {
    ClockText(state.currentPosition)
  }

  function DurationFormatted(state: PlaybackState): string {
    ClockText(state.duration)
  }

  /**
   * Both texts read back as whole seconds, and the position text of a
   * position within the track never reads more than the duration text.
   */
  lemma FormattedTextsReadBack(state: PlaybackState)
    requires 0 <= state.currentPosition <= state.duration
    ensures var p, d := CurrentPositionFormatted(state), DurationFormatted(state);
      && 4 <= |p| && 4 <= |d|
      && Decimal.AllDigits(MinutesField(p)) && Decimal.AllDigits(SecondsField(p))
      && Decimal.AllDigits(MinutesField(d)) && Decimal.AllDigits(SecondsField(d))
      && Decimal.DigitsValue(MinutesField(p)) * 60 + Decimal.DigitsValue(SecondsField(p)) == state.currentPosition / 1000
      && Decimal.DigitsValue(MinutesField(d)) * 60 + Decimal.DigitsValue(SecondsField(d)) == state.duration / 1000
      && state.currentPosition / 1000 <= state.duration / 1000
  {
    ClockTextReadsBack(state.currentPosition);
    ClockTextReadsBack(state.duration);
  }
}
