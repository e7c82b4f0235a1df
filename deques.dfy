/**
 * Sequence facts shared by the queue models: Python's bounded deque
 * (`deque(maxlen=n)`), the prefix slice `xs[:n]`, and distinctness.
 */
module Deques {

  predicate Distinct<T(==)>(s: seq<T>) {
    forall i, j :: 0 <= i < j < |s| ==> s[i] != s[j]
  }

  lemma DistinctCons<T>(x: T, s: seq<T>)
    requires Distinct(s) && x !in s
    ensures Distinct([x] + s)
  {
    var t := [x] + s;
    forall i, j | 0 <= i < j < |t|
      ensures t[i] != t[j]
    {
      if i == 0 {
        assert t[j] == s[j - 1];
      } else {
        assert t[i] == s[i - 1] && t[j] == s[j - 1];
      }
    }
  }

  lemma DistinctSnoc<T>(s: seq<T>, x: T)
    requires Distinct(s) && x !in s
    ensures Distinct(s + [x])
  {
    var t := s + [x];
    forall i, j | 0 <= i < j < |t|
      ensures t[i] != t[j]
    {
      assert t[i] == s[i];
      if j < |s| {
        assert t[j] == s[j];
      }
    }
  }

  /**
   * What a deque with `maxlen = limit` holds after its contents became `s`:
   * the newest `limit` entries, the oldest ones having fallen off the front.
   */
  function KeepNewest<T>(s: seq<T>, limit: nat): (r: seq<T>)
    ensures |r| == if |s| <= limit then |s| else limit
    ensures r == s[|s| - |r|..]
    ensures forall x :: x in r ==> x in s
  {
    if |s| > limit then s[|s| - limit..] else s
  }

  /** Appending one entry at a time to a bounded deque keeps the newest of everything appended. */
  lemma KeepNewestSnoc<T>(s: seq<T>, x: T, limit: nat)
    ensures KeepNewest(KeepNewest(s, limit) + [x], limit) == KeepNewest(s + [x], limit)
  {
    var k := KeepNewest(s, limit);
    if |s| > limit && limit > 0 {
      assert (k + [x])[1..] == (s + [x])[|s| + 1 - limit..];
    }
  }

  /** Python's `xs[:n]`, where a negative `n` counts from the end. */
  function PyPrefix<T>(xs: seq<T>, n: int): (r: seq<T>)
    ensures n >= 0 ==> |r| == if n <= |xs| then n else |xs|
    ensures n < 0 ==> |r| == if -n <= |xs| then |xs| + n else 0
    ensures r == xs[..|r|]
  {
    if n >= |xs| then xs
    else if n >= 0 then xs[..n]
    else if -n <= |xs| then xs[..|xs| + n]
    else []
  }
}
