/** Instants, in nanoseconds, and clocks that are read again and again. */
module Clock {

  type Time = int

  /** The n-th reading is no earlier than those before it. */
  ghost predicate Monotone(clock: nat -> Time) {
    forall i: nat, j: nat :: i <= j ==> clock(i) <= clock(j)
  }

  ghost predicate Exceeds(clock: nat -> Time, at: Time) {
    exists n: nat :: at < clock(n)
  }

  /** The clock exceeds every time. */
  ghost predicate Unbounded(clock: nat -> Time) {
    forall at: Time :: Exceeds(clock, at)
  }

  lemma EarlierReading(clock: nat -> Time, i: nat, j: nat)
    requires Monotone(clock) && i <= j
    ensures clock(i) <= clock(j)
  {
  }
}
