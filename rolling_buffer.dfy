/**
 * The bounded FIFO buffers the plotters keep their recent samples in:
 * Python's `deque(maxlen=N)`, where an append onto a full deque first drops
 * the oldest entry.
 */
module RollingBuffer {

  /** The last `n` entries of `s`, or all of `s` when it has at most `n`. */
  function Recent<T>(s: seq<T>, n: nat): (r: seq<T>)
    ensures |r| <= n && |r| <= |s|
    ensures |s| <= n ==> r == s
    ensures |s| > n ==> |r| == n
  {
    if |s| <= n then s else s[|s| - n..]
  }

  /** The window is a suffix of the stream: the entries kept are the newest, in arrival order. */
  lemma RecentIsSuffix<T>(s: seq<T>, n: nat)
    ensures s == s[..|s| - |Recent(s, n)|] + Recent(s, n)
  {
  }

  /** Trimming before or after an append gives the same window: what a bounded deque holds depends only on the stream. */
  lemma RecentSnoc<T>(s: seq<T>, x: T, n: nat)
    ensures Recent(Recent(s, n) + [x], n) == Recent(s + [x], n)
  {
    if |s| > n && n > 0 {
      assert Recent(s, n) + [x] == (s + [x])[|s| - n..];
    }
  }

  /** One more append of a stream's next entry extends the window to that entry. */
  lemma RecentStep<T>(s: seq<T>, xs: seq<T>, i: nat, n: nat)
    requires i < |xs|
    ensures Recent(Recent(s + xs[..i], n) + [xs[i]], n) == Recent(s + xs[..i + 1], n)
  {
    RecentSnoc(s + xs[..i], xs[i], n);
    assert s + xs[..i + 1] == s + xs[..i] + [xs[i]];
  }

  /** A `deque` with a maximum length. */
  class Deque<T> {
    const maxLen: nat
    var items: seq<T>

    ghost predicate Valid()
      reads this
    {
      |items| <= maxLen
    }

    constructor (maxLen: nat)
      ensures this.maxLen == maxLen && items == []
      ensures Valid()
    {
      this.maxLen := maxLen;
      items := [];
    }

    /** `append`: push at the back, dropping the oldest entry when the deque is full. */
    method Append(x: T)
      requires Valid()
      modifies this
      ensures Valid()
      ensures items == Recent(old(items) + [x], maxLen)
      ensures maxLen > 0 ==> items[|items| - 1] == x
    {
      if |items| < maxLen {
        items := items + [x];
      } else if maxLen > 0 {
        items := items[1..] + [x];
      }
    }

    /** `clear`: drop every entry. */
    method Clear()
      modifies this
      ensures Valid()
      ensures items == []
    {
      items := [];
    }
  }
}
