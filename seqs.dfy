/** Concatenation and total length of sequences of sequences. */
module Seqs {

  /** The concatenation of all the sequences in `ss`, in order. */
  function Flatten<T>(ss: seq<seq<T>>): seq<T>
  {
    if ss == [] then [] else ss[0] + Flatten(ss[1..])
  }

  /** The sum of the lengths of the sequences in `ss`. */
  function Size<T>(ss: seq<seq<T>>): nat
  {
    if ss == [] then 0 else |ss[0]| + Size(ss[1..])
  }

  lemma {:induction false} FlattenAppend<T>(a: seq<seq<T>>, b: seq<seq<T>>)
    ensures Flatten(a + b) == Flatten(a) + Flatten(b)
  {
    if a == [] {
      assert a + b == b;
    } else {
      assert (a + b)[1..] == a[1..] + b;
      FlattenAppend(a[1..], b);
    }
  }

  lemma {:induction false} SizeAppend<T>(a: seq<seq<T>>, b: seq<seq<T>>)
    ensures Size(a + b) == Size(a) + Size(b)
  {
    if a == [] {
      assert a + b == b;
    } else {
      assert (a + b)[1..] == a[1..] + b;
      SizeAppend(a[1..], b);
    }
  }

  /** `Flatten` and `Size` of a sequence extended by one element. */
  lemma Snoc<T>(ss: seq<seq<T>>, s: seq<T>)
    ensures Flatten(ss + [s]) == Flatten(ss) + s
    ensures Size(ss + [s]) == Size(ss) + |s|
  {
    FlattenAppend(ss, [s]);
    SizeAppend(ss, [s]);
    assert Flatten([s]) == s + Flatten([]);
  }

  /** The elements of `ss` separated by `sep`. */
  function Join<T>(ss: seq<seq<T>>, sep: seq<T>): seq<T>
  {
    if ss == [] then []
    else if |ss| == 1 then ss[0]
    else ss[0] + sep + Join(ss[1..], sep)
  }

  /** An element that occurs in no part and not in the separator does not occur in their join. */
  lemma {:induction false} JoinAvoids<T>(ss: seq<seq<T>>, sep: seq<T>, x: T)
    requires forall k | 0 <= k < |ss| :: x !in ss[k]
    requires x !in sep
    ensures x !in Join(ss, sep)
  {
    if |ss| > 1 {
      JoinAvoids(ss[1..], sep, x);
    }
  }
}
