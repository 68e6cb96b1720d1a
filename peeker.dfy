// The iteration peeker (helper/peeker.py): a wrapper around an iterator that
// fetches one value ahead, so that the next value can be looked at without
// being consumed. None doubles as the exhaustion marker.

module Peeker {
  import opened Values

  /** What iterating a source through the peeker yields: its elements up to
      the first None, which ends the iteration like the end of the source. */
  function UntilNone<T>(s: seq<Option<T>>): (r: seq<T>)
    ensures |r| <= |s|
    ensures forall k :: 0 <= k < |r| ==> s[k] == Some(r[k])
    ensures |r| < |s| ==> s[|r|] == None
  {
    if |s| == 0 || s[0].None? then [] else [s[0].value] + UntilNone(s[1..])
  }

  /** A source without None elements is yielded whole. */
  lemma {:induction false} UntilNoneAll<T>(s: seq<Option<T>>)
    requires forall k :: 0 <= k < |s| ==> s[k].Some?
    ensures |UntilNone(s)| == |s|
  {
    if |s| > 0 {
      UntilNoneAll(s[1..]);
    }
  }

  class IterationPeeker<T> {
    /** What the wrapped iterator has not produced yet. */
    var rest: seq<Option<T>>
    /** `_next`: the value fetched ahead (None once the source is exhausted). */
    var next: Option<T>

    /** The values the peeker will still yield, in order. */
    function Upcoming(): (u: seq<T>)
      reads this
      ensures next.None? ==> u == []
      ensures next.Some? ==> u == [next.value] + UntilNone(rest)
    {
      UntilNone([next] + rest)
    }

    /** The constructor wraps the source and fetches its first value. */
    constructor (src: seq<Option<T>>)
      ensures next == (if |src| > 0 then src[0] else None)
      ensures rest == if |src| > 0 then src[1..] else []
      ensures Upcoming() == UntilNone(src)
    {
      rest := src;
      next := None;
      new;
      GetNext();
    }

    /** `_get_next`: fetch the following value, or None at the end. */
    method GetNext()
      modifies this
      ensures |old(rest)| > 0 ==> next == old(rest)[0] && rest == old(rest)[1..]
      ensures |old(rest)| == 0 ==> next == None && rest == []
    {
      if |rest| > 0 {
        next := rest[0];
        rest := rest[1..];
      } else {
        next := None;
      }
    }

    /** `peek`: the value fetched ahead, the first of those still to come. */
    function Peek(): (p: Option<T>)
      reads this
      ensures p.Some? <==> |Upcoming()| > 0
      ensures p.Some? ==> p.value == Upcoming()[0]
    {
      next
    }

    /** `__next__`: StopIteration when the value fetched ahead is None;
        otherwise that value, after fetching the following one. */
    method Next() returns (r: Result<T>)
      modifies this
      ensures old(next).None? ==> r == Err(PyError(StopIteration)) && next == old(next) && rest == old(rest)
      ensures old(next).Some? ==> r == Ok(old(next).value)
      ensures old(next).Some? ==> Upcoming() == old(Upcoming())[1..]
      ensures old(next).Some? && |old(rest)| > 0 ==> next == old(rest)[0] && rest == old(rest)[1..]
      ensures old(next).Some? && |old(rest)| == 0 ==> next == None
    {
      if next.None? {
        return Err(PyError(StopIteration));
      }
      r := Ok(next.value);
      GetNext();
    }
  }

  /** Peeking at a source: the first element, or None for an empty source;
      after each value taken, the next one. So iteration gives the source in
      order, and peeking after the k-th value gives the (k+1)-th or None. */
  lemma {:induction false} PeekAfter<T>(src: seq<Option<T>>, k: nat)
    requires forall j :: 0 <= j < |src| ==> src[j].Some?
    requires k <= |src|
    ensures |UntilNone(src)| == |src|
    ensures UntilNone(src)[k..] == UntilNone(src[k..])
    ensures forall j :: 0 <= j < |src| ==> UntilNone(src)[j] == src[j].value
  {
    UntilNoneAll(src);
    if k > 0 {
      PeekAfter(src[1..], k - 1);
      assert src[1..][k - 1..] == src[k..];
    }
  }
}
