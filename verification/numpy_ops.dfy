/**
 * The two numpy array primitives the register loops rely on: `np.roll` (a cyclic
 * shift that returns a NEW array) and Python's indexing with negative indices.
 */
module NumpyOps {

  /** `np.roll(s, shift)`: element k of the result is element (k - shift) mod |s| of `s`. */
  function Roll(s: seq<int>, shift: int): (r: seq<int>)
    ensures |r| == |s|
  {
    if |s| == 0 then [] else seq(|s|, k requires 0 <= k < |s| => s[(k - shift) % |s|])
  }

  /** A value already in [0, n) is its own remainder. */
  lemma ModBelow(a: int, n: int)
    requires 0 <= a < n
    ensures a % n == a
  {
  }

  /** Rolling by +1 moves every cell one place towards the end; the last cell wraps to the front. */
  lemma RollRight(s: seq<int>)
    requires |s| >= 1
    ensures Roll(s, 1) == [s[|s| - 1]] + s[..|s| - 1]
  {
    var r := Roll(s, 1);
    assert r[0] == s[|s| - 1];
    forall k | 1 <= k < |s| ensures r[k] == s[k - 1] {
      ModBelow(k - 1, |s|);
    }
  }

  /** Rolling by -1 moves every cell one place towards the front; the first cell wraps to the end. */
  lemma RollLeft(s: seq<int>)
    requires |s| >= 1
    ensures Roll(s, -1) == s[1..] + [s[0]]
  {
    var r := Roll(s, -1);
    forall k | 0 <= k < |s| ensures r[k] == (s[1..] + [s[0]])[k] {
      if k < |s| - 1 {
        ModBelow(k + 1, |s|);
      } else {
        ModBelow(0, |s|);
        assert (k + 1) % |s| == (0 + 1 * |s|) % |s|;
      }
    }
  }

  /** `np.roll` on an array: the result is a fresh array, the argument is left untouched. */
  method RollArray(a: array<int>, shift: int) returns (b: array<int>)
    ensures fresh(b)
    ensures b[..] == Roll(a[..], shift)
  {
    b := new int[a.Length](k requires 0 <= k < a.Length reads a => a[(k - shift) % a.Length]);
  }

  /** Python's `s[k]` for a sequence of length `len` is defined for -len <= k < len. */
  predicate InPyRange(k: int, len: nat)
  {
    -(len as int) <= k < len
  }

  /** The position Python reads for index `k`: negative indices count from the end. */
  function PyIndex(k: int, len: nat): (i: nat)
    requires InPyRange(k, len)
    ensures i < len
    ensures i == k || i == k + len
  {
    if k < 0 then k + len else k
  }
}
