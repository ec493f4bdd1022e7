/** A ring of fixed size that stands for the latest part of an ever longer sequence. The restart
    limiter keeps its start times in one, and the log its records. */
module Rings {

  /** Element i of the sequence is in slot i modulo the size, for as long as it is among the latest. */
  ghost predicate Holds<T>(ring: seq<T>, all: seq<T>)
    requires |ring| > 0
  {
    forall i {:trigger all[i]} :: 0 <= i < |all| && |all| - |ring| <= i ==> ring[i % |ring|] == all[i]
  }

  lemma MultipleGrows(q: int, n: int)
    requires n > 0
    ensures q >= 1 ==> q * n >= n
    ensures q <= 0 ==> q * n <= 0
  {
  }

  lemma SlotsDiffer(i: int, j: int, n: int)
    requires 0 <= i < j < i + n
    ensures i % n != j % n
  {
    var q := j / n - i / n;
    MultipleGrows(q, n);
    assert q * n == (j / n) * n - (i / n) * n;
    assert q * n == (j - j % n) - (i - i % n);
  }

  /** The next element goes into the slot of its number, and pushes out only the oldest one. */
  lemma PutKeeps<T>(ring: seq<T>, all: seq<T>, x: T)
    requires |ring| > 0 && Holds(ring, all)
    ensures Holds(ring[|all| % |ring| := x], all + [x])
  {
    var ring', all' := ring[|all| % |ring| := x], all + [x];
    forall i | 0 <= i < |all'| && |all'| - |ring'| <= i ensures ring'[i % |ring'|] == all'[i] {
      if i < |all| {
        SlotsDiffer(i, |all|, |ring|);
        assert all[i] == all'[i];
      }
    }
  }
}
