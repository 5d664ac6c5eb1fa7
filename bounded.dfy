/**
 * Bounded logs and windows. Every source file that keeps "only the most recent
 * N entries" does it either by a push followed by at most one shift, or by
 * appending and then dropping the oldest surplus in one go. Both end in the
 * same window, `KeepLast`.
 */
module Bounded {
  import opened Wrappers

  /** The buffer capacity when none is configured. */
  const DefaultCapacity: nat := 100

  /**
   * The capacity both dashboards give their live buffers: `config.maxDataPoints
   * || 100`, then overwritten by the `...config` spread whenever the key is
   * present, so an explicit 0 stays 0.
   */
  function ResolveCapacity(configured: Option<nat>): (n: nat)
    ensures configured.None? ==> n == DefaultCapacity
    ensures configured.Some? ==> n == configured.value
  {
    if configured.Some? then configured.value else DefaultCapacity
  }

  /** The last `n` elements of `s`, or all of `s` when it is not longer than `n`. */
  function KeepLast<T>(s: seq<T>, n: nat): (r: seq<T>)
    ensures |r| <= n && |r| <= |s|
    ensures |s| <= n ==> r == s
    ensures |s| > n ==> |r| == n
  {
    if |s| <= n then s else s[|s| - n..]
  }

  /** The window holds the newest elements of `s`, in their order. */
  lemma KeepLastIsSuffix<T>(s: seq<T>, n: nat)
    ensures forall i :: 0 <= i < |KeepLast(s, n)| ==> KeepLast(s, n)[i] == s[|s| - |KeepLast(s, n)| + i]
  {
  }

  /** One push onto a JavaScript array followed by one `shift` when it got longer than `cap`. */
  function PushShift<T>(s: seq<T>, x: T, cap: nat): (r: seq<T>)
    ensures |s| <= cap ==> r == KeepLast(s + [x], cap)
    ensures |s| <= cap ==> |r| <= cap && (cap > 0 ==> r[|r| - 1] == x)
  {
    var t := s + [x];
    if |t| > cap then t[1..] else t
  }

  /**
   * Windowing commutes with pushing: keeping the last `n` after every push
   * gives the last `n` of everything ever pushed.
   */
  lemma KeepLastPush<T>(h: seq<T>, x: T, n: nat)
    ensures KeepLast(KeepLast(h, n) + [x], n) == KeepLast(h + [x], n)
  {
    if |h| > n {
      var k := KeepLast(h, n);
      var l := KeepLast(k + [x], n);
      var r := KeepLast(h + [x], n);
      assert |l| == |r|;
      forall i | 0 <= i < |l| ensures l[i] == r[i] {
        if i == |l| - 1 {
        } else {
          assert l[i] == (k + [x])[|k| + 1 - |l| + i];
        }
      }
    }
  }
}
