/** Bytes and the little-endian integers made of them. */
module Bytes {

  type Byte = b: nat | b < 256

  function Power256(k: nat): (r: nat)
    ensures r >= 1
  {
    if k == 0 then 1 else 256 * Power256(k - 1)
  }

  function LittleEndian(n: nat, k: nat): (r: seq<Byte>)
    ensures |r| == k
  {
    if k == 0 then [] else [n % 256] + LittleEndian(n / 256, k - 1)
  }

  function FromLittleEndian(s: seq<Byte>): nat {
    if s == [] then 0 else s[0] + 256 * FromLittleEndian(s[1..])
  }

  /** What determines the order: a byte counts for itself, and whatever follows `k` bytes counts 256 to the `k`
      times as much. */
  lemma {:induction false} LaterBytesCountMore(a: seq<Byte>, b: seq<Byte>, x: Byte)
    ensures FromLittleEndian([x]) == x
    ensures FromLittleEndian(a + b) == FromLittleEndian(a) + Power256(|a|) * FromLittleEndian(b)
    ensures Power256(0) == 1 && Power256(|a| + 1) == 256 * Power256(|a|)
  {
    assert [x][1..] == [];
    if a == [] {
      assert a + b == b;
    } else {
      assert (a + b)[1..] == a[1..] + b;
      LaterBytesCountMore(a[1..], b, x);
      Regroup(Power256(|a| - 1), FromLittleEndian(b));
    }
  }

  lemma Regroup(p: nat, n: nat)
    ensures 256 * (p * n) == 256 * p * n
  {
  }

  lemma {:induction false} LittleEndianRoundTrip(n: nat, k: nat)
    requires n < Power256(k)
    ensures FromLittleEndian(LittleEndian(n, k)) == n
  {
    if k > 0 {
      LittleEndianRoundTrip(n / 256, k - 1);
      assert LittleEndian(n, k)[1..] == LittleEndian(n / 256, k - 1);
    }
  }
}
