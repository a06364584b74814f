/** The duration correction for a unit that knows only naive wall-clock times.
    Instants are whole seconds since the epoch; `offset(t)` is the UTC offset,
    in seconds, of the unit's configured time zone at instant `t`. */
module Timing {

  /** The unit's naive wall-clock reading of instant `t`. */
  function WallClock(t: int, offset: int -> int): int
  {
    t + offset(t)
  }

  /** `getDurationSeconds`: the elapsed time minus the change of offset between start and end. */
  function DurationSeconds(start: int, end: int, offset: int -> int): int
  {
    (end - start) - (offset(start) - offset(end))
  }

  /** `setDurationSeconds`: the end instant for a duration the unit reports. */
  function EndForDuration(start: int, duration: int, offset: int -> int): int
  {
    var tempEnd := start + duration;
    tempEnd + (offset(start) - offset(tempEnd))
  }

  /** The duration sent to the unit is the wall-clock length of the booking in the unit's zone. */
  lemma DurationIsWallClockLength(start: int, end: int, offset: int -> int)
    ensures DurationSeconds(start, end, offset) == WallClock(end, offset) - WallClock(start, offset)
  {
  }

  /** Without an offset change the duration is the elapsed time. */
  lemma DurationWithoutOffsetChange(start: int, end: int, offset: int -> int)
    requires offset(start) == offset(end)
    ensures DurationSeconds(start, end, offset) == end - start
  {
  }

  /** Reading back the end set from a duration gives that duration, exactly when
      the offset at the new end is the offset at `start + duration`. */
  lemma DurationRoundTrip(start: int, duration: int, offset: int -> int)
    ensures DurationSeconds(start, EndForDuration(start, duration, offset), offset) == duration
            <==> offset(EndForDuration(start, duration, offset)) == offset(start + duration)
  {
  }

  /** Setting the end from the duration of an interval gives back its end,
      exactly when the offset at the shifted end equals the offset at the end. */
  lemma EndRoundTrip(start: int, end: int, offset: int -> int)
    ensures EndForDuration(start, DurationSeconds(start, end, offset), offset) == end
            <==> offset(start + DurationSeconds(start, end, offset)) == offset(end)
  {
  }

  /** The end set from a duration lies `duration` seconds of wall clock after the start,
      under the same condition as the round trip. */
  lemma EndKeepsWallClockLength(start: int, duration: int, offset: int -> int)
    requires offset(EndForDuration(start, duration, offset)) == offset(start + duration)
    ensures WallClock(EndForDuration(start, duration, offset), offset) == WallClock(start, offset) + duration
  {
  }
}
