/** Byte strings, and the two integer layouts the repository uses: big-endian words (EVM) and
    little-endian fields (XKP frames and receipts). */
module Bytes {
  type byte = x: int | 0 <= x < 256
  type bytes = seq<byte>

  function Pow256(k: nat): (p: nat)
    ensures p > 0
  {
    if k == 0 then 1 else 256 * Pow256(k - 1)
  }

  function Zeros(k: nat): (s: bytes)
    ensures |s| == k
    ensures forall i :: 0 <= i < k ==> s[i] == 0
  {
    seq(k, i => 0)
  }

  /** The k low bytes of n, least significant first. */
  function LE(n: nat, k: nat): (s: bytes)
    ensures |s| == k
  {
    if k == 0 then [] else [n % 256] + LE(n / 256, k - 1)
  }

  function LEValue(s: bytes): nat {
    if s == [] then 0 else s[0] + 256 * LEValue(s[1..])
  }

  /** The k low bytes of n, most significant first: the loop of uintWord when k is 32. */
  function BE(n: nat, k: nat): (s: bytes)
    ensures |s| == k
  {
    if k == 0 then [] else BE(n / 256, k - 1) + [n % 256]
  }

  function BEValue(s: bytes): nat {
    if s == [] then 0 else 256 * BEValue(s[..|s| - 1]) + s[|s| - 1]
  }

  lemma {:induction false} LEValueOfLE(n: nat, k: nat)
    requires n < Pow256(k)
    ensures LEValue(LE(n, k)) == n
  {
    if k > 0 {
      LEValueOfLE(n / 256, k - 1);
      assert LE(n, k)[1..] == LE(n / 256, k - 1);
    }
  }

  lemma {:induction false} LEOfLEValue(s: bytes)
    ensures LE(LEValue(s), |s|) == s
    ensures LEValue(s) < Pow256(|s|)
  {
    if s != [] {
      LEOfLEValue(s[1..]);
      assert LEValue(s) / 256 == LEValue(s[1..]);
      assert s == [s[0]] + s[1..];
    }
  }

  lemma {:induction false} BEValueOfBE(n: nat, k: nat)
    requires n < Pow256(k)
    ensures BEValue(BE(n, k)) == n
  {
    if k > 0 {
      BEValueOfBE(n / 256, k - 1);
      assert BE(n, k)[..k - 1] == BE(n / 256, k - 1);
    }
  }

  lemma {:induction false} BEOfBEValue(s: bytes)
    ensures BE(BEValue(s), |s|) == s
    ensures BEValue(s) < Pow256(|s|)
  {
    if s != [] {
      var front, last := s[..|s| - 1], s[|s| - 1];
      BEOfBEValue(front);
      assert BEValue(s) / 256 == BEValue(front);
      assert s == front + [last];
    }
  }

  /** Two byte strings whose equal-length fields are concatenated agree field by field. */
  lemma ConcatInjective<T>(a: seq<T>, b: seq<T>, c: seq<T>, d: seq<T>)
    requires a + b == c + d && |a| == |c|
    ensures a == c && b == d
  {
    assert a == (a + b)[..|a|] && c == (c + d)[..|c|];
    assert b == (a + b)[|a|..] && d == (c + d)[|c|..];
  }
}
