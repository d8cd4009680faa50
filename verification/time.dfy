/** `Timestamp`: a captured instant, or the "empty" sentinel that reports
    zero for every query. The clock is a parameter: each function that reads
    the clock in the source takes the reading, in seconds, as an argument. */
module Time {

  /** `start` is the instant captured; `isEmpty` marks the sentinel, which
      still captures an instant but never reports it. */
  datatype Timestamp = Timestamp(start: real, isEmpty: bool)

  /** `Timestamp::now`. */
  function Now(clock: real): (t: Timestamp)
    ensures !t.isEmpty
    ensures Elapsed(t, clock) == 0.0
  {
    Timestamp(clock, false)
  }

  /** `Timestamp::empty`. */
  function Empty(clock: real): (t: Timestamp)
    ensures t.isEmpty
  {
    Timestamp(clock, true)
  }

  /** `Timestamp::elapsed`, read at `clock`: the seconds since capture, or 0
      for the sentinel. */
  function Elapsed(t: Timestamp, clock: real): (r: real)
    ensures t.isEmpty ==> r == 0.0
    ensures !t.isEmpty ==> t.start + r == clock
  {
    if t.isEmpty then 0.0 else clock - t.start
  }

  /** `Timestamp::delta`: `a.elapsed() - b.elapsed()`, the first elapsed read
      at `clockA` and the second at `clockB`; 0 when either is the
      sentinel. */
  function Delta(a: Timestamp, b: Timestamp, clockA: real, clockB: real): (r: real)
    ensures a.isEmpty || b.isEmpty ==> r == 0.0
    ensures !a.isEmpty && !b.isEmpty ==> r == (b.start - a.start) - (clockB - clockA)
  {
    if a.isEmpty || b.isEmpty then 0.0 else Elapsed(a, clockA) - Elapsed(b, clockB)
  }

  /** With a monotonic clock, the elapsed time of a captured instant is never
      negative and grows with the reading. */
  lemma ElapsedMonotonic(t: Timestamp, c0: real, c1: real)
    requires !t.isEmpty && t.start <= c0 <= c1
    ensures 0.0 <= Elapsed(t, c0) <= Elapsed(t, c1)
  {
  }

  /** When both elapsed times are read at the same instant, the delta is the
      gap between the two captures, whatever the reading; swapping the
      operands negates it. */
  lemma DeltaIsCaptureGap(a: Timestamp, b: Timestamp, c: real, c': real)
    requires !a.isEmpty && !b.isEmpty
    ensures Delta(a, b, c, c) == b.start - a.start == Delta(a, b, c', c')
    ensures Delta(b, a, c, c) == -Delta(a, b, c, c)
  {
  }
}
