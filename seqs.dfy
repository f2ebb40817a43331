/** Small facts about sequences, and two all-or-nothing traversals, stated once for every element type. */
module Seqs {
  import opened Wrappers

  /** A non-empty sequence is its front with its last element appended. */
  lemma SnocLast<T>(s: seq<T>)
    requires s != []
    ensures s == s[..|s| - 1] + [s[|s| - 1]]
  {
  }

  lemma AppendAssoc<T>(a: seq<T>, b: seq<T>, c: seq<T>)
    ensures a + b + c == a + (b + c)
  {
  }

  /** A prefix one longer is the prefix followed by the next element. */
  lemma PrefixSnoc<T>(s: seq<T>, i: nat)
    requires i < |s|
    ensures s[..i + 1] == s[..i] + [s[i]]
  {
  }

  /** `f` applied to every element, in order, or None as soon as one application fails. */
  function MapAll<T, U>(xs: seq<T>, f: T -> Option<U>): (r: Option<seq<U>>)
    ensures r.Some? ==> |r.value| == |xs|
  {
    if xs == [] then Some([])
    else
      var front := MapAll(xs[..|xs| - 1], f);
      var last := f(xs[|xs| - 1]);
      if front.Some? && last.Some? then Some(front.value + [last.value]) else None
  }

  /** Mapping succeeds exactly when every application does, and then yields their results in order. */
  lemma {:induction false} MapAllSpec<T, U>(xs: seq<T>, f: T -> Option<U>)
    ensures MapAll(xs, f).Some? <==> forall i :: 0 <= i < |xs| ==> f(xs[i]).Some?
    ensures MapAll(xs, f).Some? ==> forall i :: 0 <= i < |xs| ==> MapAll(xs, f).value[i] == f(xs[i]).value
  {
    if xs != [] {
      var n := |xs| - 1;
      MapAllSpec(xs[..n], f);
      assert forall i :: 0 <= i < n ==> xs[..n][i] == xs[i];
    }
  }

  /** Mapping one more element extends the mapped prefix by its result, or fails. */
  lemma MapAllSnoc<T, U>(xs: seq<T>, x: T, f: T -> Option<U>)
    ensures var front, last := MapAll(xs, f), f(x);
      MapAll(xs + [x], f) == if front.Some? && last.Some? then Some(front.value + [last.value]) else None
  {
    assert (xs + [x])[..|xs|] == xs;
  }

  /** The elements that satisfy `p`, in order. */
  function Filter<T>(xs: seq<T>, p: T -> bool): (r: seq<T>)
    ensures |r| <= |xs|
  {
    if xs == [] then []
    else (if p(xs[0]) then [xs[0]] else []) + Filter(xs[1..], p)
  }

  /** Filtering distributes over concatenation. */
  lemma {:induction false} FilterAppend<T>(a: seq<T>, b: seq<T>, p: T -> bool)
    ensures Filter(a + b, p) == Filter(a, p) + Filter(b, p)
  {
    if a != [] {
      assert (a + b)[0] == a[0];
      assert (a + b)[1..] == a[1..] + b;
      FilterAppend(a[1..], b, p);
      AppendAssoc(if p(a[0]) then [a[0]] else [], Filter(a[1..], p), Filter(b, p));
    } else {
      assert a + b == b;
    }
  }

  /** Filtering keeps a sequence whose every element satisfies `p` whole. */
  lemma {:induction false} FilterKeepsAll<T>(xs: seq<T>, p: T -> bool)
    requires forall i :: 0 <= i < |xs| ==> p(xs[i])
    ensures Filter(xs, p) == xs
  {
    if xs != [] {
      FilterKeepsAll(xs[1..], p);
    }
  }

  /** The results `f` gives, in order, skipping the elements it rejects. */
  function KeepSome<T, U>(xs: seq<T>, f: T -> Option<U>): (r: seq<U>)
    ensures |r| <= |xs|
  {
    if xs == [] then []
    else
      var rest := KeepSome(xs[..|xs| - 1], f);
      var last := f(xs[|xs| - 1]);
      if last.Some? then rest + [last.value] else rest
  }

  /** One more element adds its result, if any, at the end. */
  lemma KeepSomeStep<T, U>(xs: seq<T>, f: T -> Option<U>, i: nat)
    requires i < |xs|
    ensures KeepSome(xs[..i + 1], f) == KeepSome(xs[..i], f) + (if f(xs[i]).Some? then [f(xs[i]).value] else [])
  {
    assert xs[..i + 1][..i] == xs[..i];
  }

  /** Keeping results distributes over concatenation: an element's result does not depend on its neighbours. */
  lemma {:induction false} KeepSomeAppend<T, U>(a: seq<T>, b: seq<T>, f: T -> Option<U>)
    ensures KeepSome(a + b, f) == KeepSome(a, f) + KeepSome(b, f)
  {
    if b == [] {
      assert a + b == a;
    } else {
      KeepSomeAppend(a, b[..|b| - 1], f);
      assert (a + b)[..|a + b| - 1] == a + b[..|b| - 1];
      assert (a + b)[|a + b| - 1] == b[|b| - 1];
    }
  }

  /** Every kept result has a property that every result of `f` on the sequence has. */
  lemma {:induction false} KeepSomeAll<T, U>(xs: seq<T>, f: T -> Option<U>, p: U -> bool)
    requires forall i :: 0 <= i < |xs| && f(xs[i]).Some? ==> p(f(xs[i]).value)
    ensures forall k :: 0 <= k < |KeepSome(xs, f)| ==> p(KeepSome(xs, f)[k])
  {
    if xs != [] {
      var n := |xs| - 1;
      assert forall i :: 0 <= i < n ==> xs[..n][i] == xs[i];
      KeepSomeAll(xs[..n], f, p);
    }
  }

  /** The results of `f` on every element, concatenated in order, or None as soon as one application fails. */
  function ConcatAll<T, U>(xs: seq<T>, f: T -> Option<seq<U>>): Option<seq<U>>
  {
    if xs == [] then Some([])
    else
      var front := ConcatAll(xs[..|xs| - 1], f);
      var last := f(xs[|xs| - 1]);
      if front.Some? && last.Some? then Some(front.value + last.value) else None
  }

  /** Concatenation succeeds exactly when every application does. */
  lemma {:induction false} ConcatAllSpec<T, U>(xs: seq<T>, f: T -> Option<seq<U>>)
    ensures ConcatAll(xs, f).Some? <==> forall i :: 0 <= i < |xs| ==> f(xs[i]).Some?
  {
    if xs != [] {
      var n := |xs| - 1;
      ConcatAllSpec(xs[..n], f);
      assert forall i :: 0 <= i < n ==> xs[..n][i] == xs[i];
    }
  }

  /** Concatenating one more element's result: the concatenation so far extended by it, or None if either failed. */
  lemma ConcatAllStep<T, U>(xs: seq<T>, f: T -> Option<seq<U>>, i: nat)
    requires i < |xs|
    ensures var front, last := ConcatAll(xs[..i], f), f(xs[i]);
      ConcatAll(xs[..i + 1], f) == if front.Some? && last.Some? then Some(front.value + last.value) else None
  {
    assert xs[..i + 1][..i] == xs[..i];
  }

  /** Once an application has failed, concatenating further elements does not recover. */
  lemma {:induction false} ConcatAllFailStays<T, U>(xs: seq<T>, f: T -> Option<seq<U>>, i: nat, j: nat)
    requires i <= j <= |xs| && ConcatAll(xs[..i], f).None?
    ensures ConcatAll(xs[..j], f).None?
    decreases j
  {
    if j > i {
      ConcatAllFailStays(xs, f, i, j - 1);
      ConcatAllStep(xs, f, j - 1);
    }
  }

  /** A successful concatenation starts with the first element's result. */
  lemma {:induction false} ConcatAllFirst<T, U>(xs: seq<T>, f: T -> Option<seq<U>>)
    requires xs != [] && ConcatAll(xs, f).Some?
    ensures f(xs[0]).Some?
    ensures |f(xs[0]).value| <= |ConcatAll(xs, f).value|
    ensures ConcatAll(xs, f).value[..|f(xs[0]).value|] == f(xs[0]).value
  {
    var n := |xs| - 1;
    var front := ConcatAll(xs[..n], f);
    if n == 0 {
      assert front == Some([]);
      assert ConcatAll(xs, f).value == [] + f(xs[0]).value;
    } else {
      ConcatAllFirst(xs[..n], f);
      assert xs[..n][0] == xs[0];
      var first := f(xs[0]).value;
      var all := ConcatAll(xs, f).value;
      assert all == front.value + f(xs[n]).value;
      assert all[..|first|] == front.value[..|first|];
    }
  }

  /** The results of `f` on every element, one after the other. */
  function ConcatMap<T, U>(xs: seq<T>, f: T -> seq<U>): seq<U>
  {
    if xs == [] then [] else ConcatMap(xs[..|xs| - 1], f) + f(xs[|xs| - 1])
  }

  /** Nothing comes out exactly when no element gives anything. */
  lemma {:induction false} ConcatMapEmpty<T, U>(xs: seq<T>, f: T -> seq<U>)
    ensures ConcatMap(xs, f) == [] <==> forall i :: 0 <= i < |xs| ==> f(xs[i]) == []
  {
    if xs != [] {
      var n := |xs| - 1;
      ConcatMapEmpty(xs[..n], f);
      assert forall i :: 0 <= i < n ==> xs[..n][i] == xs[i];
    }
  }
}
