/** Sequence helpers shared by both object pipelines: `Iterator::flatten` over a
    sequence of options, which drops the `None` entries and keeps the order of the rest. */
module Seqs {
  import opened Wrappers

  /** The present values of `s`, in order. */
  function Flatten<T>(s: seq<Option<T>>): (r: seq<T>)
    ensures |r| <= |s|
    ensures forall k :: 0 <= k < |r| ==> Some(r[k]) in s
    ensures forall i :: 0 <= i < |s| && s[i].Some? ==> s[i].value in r
    ensures r == [] <==> forall i :: 0 <= i < |s| ==> s[i].None?
  {
    if |s| == 0 then []
    else
      var rest := Flatten(s[1..]);
      assert forall i :: 1 <= i < |s| ==> s[i] == s[1..][i - 1];
      if s[0].Some? then [s[0].value] + rest else rest
  }

  /** Flattening is compatible with concatenation: the values of a prefix come before those of a suffix. */
  lemma {:induction false} FlattenAppend<T>(a: seq<Option<T>>, b: seq<Option<T>>)
    ensures Flatten(a + b) == Flatten(a) + Flatten(b)
  {
    if |a| == 0 {
      assert a + b == b;
    } else {
      assert (a + b)[1..] == a[1..] + b;
      FlattenAppend(a[1..], b);
    }
  }

  /** Flattening a sequence of present values loses nothing. */
  lemma {:induction false} FlattenAllPresent<T>(s: seq<Option<T>>)
    requires forall i :: 0 <= i < |s| ==> s[i].Some?
    ensures |Flatten(s)| == |s|
    ensures forall i :: 0 <= i < |s| ==> Flatten(s)[i] == s[i].value
  {
    if |s| > 0 {
      FlattenAllPresent(s[1..]);
    }
  }
}
