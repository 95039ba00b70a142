/** The bounded line history both consoles keep: the last `n` lines
    seen, oldest first. Two trimming rules appear in the source, one that
    drops the oldest line once the buffer is over its bound
    (cmd/msw/main.go) and one that re-slices to the last `n` lines
    (internal/server/server.go); both keep exactly this history. */
module History {

  /** The last `n` elements of `s`, in order (all of `s` when it is
      shorter). */
  function Last<T>(s: seq<T>, n: nat): (r: seq<T>)
    ensures |r| == if |s| <= n then |s| else n
    ensures r == s[|s| - |r|..]
  {
    if |s| <= n then s else s[|s| - n..]
  }

  /** msw's rule: append, then drop the first line if over the bound. */
  function DropOldest<T>(t: seq<T>, n: nat): (r: seq<T>)
    ensures |t| > n ==> r == t[1..]
    ensures |t| <= n ==> r == t
  {
    if |t| > n then t[1..] else t
  }

  /** Appending one element to the history of `s` and trimming gives the
      history of the extended stream; this is what makes the re-slicing
      rule correct as an incremental update. */
  lemma LastOfAppend<T>(s: seq<T>, x: T, n: nat)
    ensures Last(Last(s, n) + [x], n) == Last(s + [x], n)
  {
    var h := Last(s, n);
    var t := s + [x];
    if |s| > n {
      assert h + [x] == t[|t| - n - 1..];
      assert (h + [x])[|h + [x]| - n..] == t[|t| - n..];
    }
  }

  /** Dropping one line is enough when the buffer was within its bound
      before the append: the two rules then agree on every input. */
  lemma DropOldestIsLast<T>(t: seq<T>, n: nat)
    requires |t| <= n + 1
    ensures DropOldest(t, n) == Last(t, n)
  {
  }

  /** The drop-one rule, applied after each append to a bounded history,
      keeps exactly the history of the stream. */
  lemma DropOldestOfAppend<T>(s: seq<T>, x: T, n: nat)
    ensures DropOldest(Last(s, n) + [x], n) == Last(s + [x], n)
  {
    DropOldestIsLast(Last(s, n) + [x], n);
    LastOfAppend(s, x, n);
  }

  /** One append to a buffer within its bound: below capacity every old
      line is kept and the new one goes at the end; at capacity exactly
      the oldest line is dropped; either way the bound holds after. */
  lemma DropOldestAppend<T>(t: seq<T>, x: T, n: nat)
    requires |t| <= n
    ensures |DropOldest(t + [x], n)| <= n
    ensures |t| < n ==> DropOldest(t + [x], n) == t + [x]
    ensures 0 < n == |t| ==> DropOldest(t + [x], n) == t[1..] + [x]
  {
    if 0 < n == |t| {
      assert (t + [x])[1..] == t[1..] + [x];
    }
  }
}
