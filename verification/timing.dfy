/** Timestamps of the card builder. Python's `timedelta` holds a whole
    number of microseconds, so every time here is an integer count of them. */
module Timing {

  /** A timestamp or duration in microseconds. */
  type Micros = int

  /** `PAD = 0.35` seconds, added on both sides of a subtitle's window. */
  const Pad: Micros := 350000

  /** The fade length `d = 0.2` seconds of the audio clip's fade-in and fade-out. */
  const Fade: Micros := 200000

  /** `timedelta / 2`: half of `d`, rounded to the nearest microsecond with
      ties going to the even neighbour (see HalveRounding). */
  function Halve(d: Micros): Micros
  {
    var q := d / 2;
    if d % 2 == 1 && q % 2 == 1 then q + 1 else q
  }

  /** Halve is exact for even durations; for odd ones it is half a
      microsecond off and picks the even neighbour. These two facts leave
      exactly one possible result. */
  lemma HalveRounding(d: Micros)
    ensures -1 <= 2 * Halve(d) - d <= 1
    ensures 2 * Halve(d) != d ==> Halve(d) % 2 == 0
  {
  }

  /** The start of the padded window: `start - PAD`, reset to zero when
      that is negative. */
  function PaddedStart(start: Micros): Micros
  {
    var t := start - Pad;
    if t < 0 then 0 else t
  }

  /** The end of the padded window. */
  function PaddedEnd(end: Micros): Micros
  {
    end + Pad
  }

  /** The padded start is the larger of zero and `start - PAD`: never
      negative, never earlier than `start - PAD`, and equal to one of them. */
  lemma PaddedStartClamps(start: Micros)
    ensures PaddedStart(start) >= 0 && PaddedStart(start) >= start - Pad
    ensures PaddedStart(start) == 0 || PaddedStart(start) == start - Pad
    ensures start >= Pad ==> PaddedStart(start) == start - Pad
  {
  }

  /** `start + (end - start) / 2`: the timestamp of the screenshot. */
  function Midpoint(start: Micros, end: Micros): Micros
  {
    start + Halve(end - start)
  }

  /** The midpoint lies within its window and at most half a microsecond
      from the window's exact centre. */
  lemma MidpointWithin(start: Micros, end: Micros)
    ensures start <= end ==> start <= Midpoint(start, end) <= end
    ensures -1 <= 2 * Midpoint(start, end) - (start + end) <= 1
  {
    HalveRounding(end - start);
  }

  /** For a subtitle window that starts at or after zero and does not end
      before it starts, the padded window is ordered, contains its
      midpoint, is at least PAD long, and so leaves room for the fade-out. */
  lemma PaddedWindowOrdered(start: Micros, end: Micros)
    requires 0 <= start <= end
    ensures 0 <= PaddedStart(start) <= Midpoint(PaddedStart(start), PaddedEnd(end)) <= PaddedEnd(end)
    ensures PaddedEnd(end) - PaddedStart(start) >= Pad
    ensures PaddedEnd(end) - PaddedStart(start) - Fade > 0
  {
    MidpointWithin(PaddedStart(start), PaddedEnd(end));
  }
}
