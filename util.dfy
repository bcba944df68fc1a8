/** Small helpers shared by the components of the bot. */
module Util {

  /** Squared Euclidean length of an integer offset; comparing it against a
      squared bound stands for comparing `math.sqrt(dx**2 + dy**2)` against the bound. */
  function DistSq(dx: int, dy: int): (r: int)
    ensures r >= 0
  {
    dx * dx + dy * dy
  }

  function Sq(n: int): int { n * n }

  function AbsReal(x: real): (r: real)
    ensures r >= 0.0 && (r == x || r == -x)
  {
    if x < 0.0 then -x else x
  }

  /** What a `collections.deque(maxlen = n)` holds after its entries were fed in
      the order of `s`: the last `n` of them. */
  function KeepLast<T>(s: seq<T>, n: nat): (r: seq<T>)
    ensures |r| <= n && |r| <= |s|
    ensures |s| <= n ==> r == s
    ensures |s| > n ==> |r| == n
    ensures |s| > n ==> r == s[|s| - n..]
  {
    if |s| <= n then s else s[|s| - n..]
  }

  /** Appending one entry to a bounded window drops at most the oldest entry. */
  lemma KeepLastPush<T>(h: seq<T>, x: T, n: nat)
    requires 0 < n && |h| <= n
    ensures KeepLast(h + [x], n) == if |h| < n then h + [x] else h[1..] + [x]
  {
    if |h| == n {
      assert (h + [x])[|h| + 1 - n..] == h[1..] + [x];
    }
  }
}
