/**
 * Python's `collections.deque(maxlen=n)` as used for every rolling history:
 * `append` adds on the right and, when that takes the deque over its
 * bound, discards the leftmost element.
 */
module Window {

  /** The most recent `n` elements of `s`, oldest first (all of `s` when shorter). */
  function LastN<T>(s: seq<T>, n: nat): (r: seq<T>)
    ensures |r| == if |s| <= n then |s| else n
  {
    if |s| <= n then s else s[|s| - n..]
  }

  /** The window is the log's suffix of its own length: entry `i` is the log's entry `i` places into that suffix. */
  lemma LastNIsTail<T>(s: seq<T>, n: nat)
    ensures LastN(s, n) == s[|s| - |LastN(s, n)|..]
    ensures forall i :: 0 <= i < |LastN(s, n)| ==> LastN(s, n)[i] == s[|s| - |LastN(s, n)| + i]
  {
  }

  /**
   * `deque.append(x)` on a deque of bound `maxlen`: a deque within its bound
   * stays within it and grows by one until it is full.
   */
  function Append<T>(d: seq<T>, x: T, maxlen: nat): (r: seq<T>)
    ensures |d| <= maxlen ==> |r| == if |d| < maxlen then |d| + 1 else maxlen
  {
    var grown := d + [x];
    if |grown| > maxlen then grown[1..] else grown
  }

  /** A window that is already the tail of a log stays its tail after one more arrival. */
  lemma AppendKeepsLastN<T>(log: seq<T>, x: T, maxlen: nat)
    ensures Append(LastN(log, maxlen), x, maxlen) == LastN(log + [x], maxlen)
  {
    var d := LastN(log, maxlen);
    var lhs := Append(d, x, maxlen);
    var rhs := LastN(log + [x], maxlen);
    assert |lhs| == |rhs|;
    forall i | 0 <= i < |lhs|
      ensures lhs[i] == rhs[i]
    {
      if |d + [x]| > maxlen {
        assert lhs[i] == (d + [x])[i + 1];
      }
    }
  }

  /** With a positive bound the appended entry is the newest one. */
  lemma AppendEndsWith<T>(d: seq<T>, x: T, maxlen: nat)
    ensures maxlen > 0 ==> |Append(d, x, maxlen)| > 0 && Append(d, x, maxlen)[|Append(d, x, maxlen)| - 1] == x
  {
  }
}
