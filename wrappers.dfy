/** Python's `None` next to a value, and the values kept out of a run of optional results. */
module Wrappers {

  datatype Option<+T> = None | Some(value: T)

  /** Python truthiness of an optional string: `None` and `""` are falsy. */
  predicate Truthy(o: Option<string>) {
    o.Some? && o.value != []
  }

  /** The present values of `xs`, in order: what a loop appending only the `Some` results collects. */
  function Somes<T>(xs: seq<Option<T>>): seq<T> {
    if xs == [] then []
    else Somes(xs[..|xs| - 1]) + (if xs[|xs| - 1].Some? then [xs[|xs| - 1].value] else [])
  }

  /** Collecting over a concatenation concatenates what each part collects: order is kept. */
  lemma {:induction false} SomesAppend<T>(a: seq<Option<T>>, b: seq<Option<T>>)
    ensures Somes(a + b) == Somes(a) + Somes(b)
    decreases |b|
  {
    if b == [] {
      assert a + b == a;
    } else {
      var n := |b| - 1;
      assert (a + b)[..|a + b| - 1] == a + b[..n];
      SomesAppend(a, b[..n]);
    }
  }

  /** A value is collected exactly when it is present somewhere in `xs`. */
  lemma {:induction false} SomesMember<T>(xs: seq<Option<T>>, x: T)
    ensures x in Somes(xs) <==> exists i :: 0 <= i < |xs| && xs[i] == Some(x)
  {
    if xs != [] {
      var n := |xs| - 1;
      SomesMember(xs[..n], x);
      if x in Somes(xs) && x !in Somes(xs[..n]) {
        assert xs[n] == Some(x);
      }
      if x !in Somes(xs) {
        forall i | 0 <= i < n ensures xs[i] != Some(x) {
          assert xs[..n][i] == xs[i];
        }
      }
    }
  }

  /** Nothing is invented: at most one value per element, every collected value present in `xs`. */
  lemma {:induction false} SomesBounded<T>(xs: seq<Option<T>>)
    ensures |Somes(xs)| <= |xs|
    ensures forall k :: 0 <= k < |Somes(xs)| ==> Some(Somes(xs)[k]) in xs
  {
    if xs != [] {
      var n := |xs| - 1;
      SomesBounded(xs[..n]);
      forall k | 0 <= k < |Somes(xs)| ensures Some(Somes(xs)[k]) in xs {
        if k < |Somes(xs[..n])| {
          assert Somes(xs)[k] == Somes(xs[..n])[k];
          var j :| 0 <= j < n && xs[..n][j] == Some(Somes(xs[..n])[k]);
          assert xs[j] == xs[..n][j];
        } else {
          assert xs[n] == Some(Somes(xs)[k]);
        }
      }
    }
  }

  /** `f` applied to every element of `xs`, in order. */
  function MapSeq<A, B>(xs: seq<A>, f: A -> B): (ys: seq<B>)
    ensures |ys| == |xs|
    ensures forall i :: 0 <= i < |xs| ==> ys[i] == f(xs[i])
  {
    seq(|xs|, i requires 0 <= i < |xs| => f(xs[i]))
  }

  lemma MapSeqAppend<A, B>(a: seq<A>, b: seq<A>, f: A -> B)
    ensures MapSeq(a + b, f) == MapSeq(a, f) + MapSeq(b, f)
  {
    assert forall i :: 0 <= i < |a| ==> (a + b)[i] == a[i];
    assert forall i :: |a| <= i < |a + b| ==> (a + b)[i] == b[i - |a|];
  }
}
