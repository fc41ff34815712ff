/** `to_le_bytes` and `from_le_bytes`. */
module LittleEndian {
  import opened Basics

  /** 256 to the power `k`. */
  function Span(k: nat): (n: nat)
    ensures n > 0
  {
    if k == 0 then 1 else 256 * Span(k - 1)
  }

  /** The `k` low-order bytes of `v`, least significant first. */
  function ToLE(v: nat, k: nat): (s: seq<Byte>)
    ensures |s| == k
  {
    if k == 0 then [] else [v % 256] + ToLE(v / 256, k - 1)
  }

  function FromLE(s: seq<Byte>): (v: nat)
    ensures v < Span(|s|)
  {
    if s == [] then 0 else s[0] + 256 * FromLE(s[1..])
  }

  lemma {:induction false} RoundTrip(v: nat, k: nat)
    requires v < Span(k)
    ensures FromLE(ToLE(v, k)) == v
  {
    if k > 0 {
      RoundTrip(v / 256, k - 1);
      assert ToLE(v, k)[1..] == ToLE(v / 256, k - 1);
    }
  }

  lemma Spans()
    ensures Span(1) == 0x100 && Span(2) == 0x1_0000 && Span(4) == 0x1_0000_0000 && Span(8) == 0x1_0000_0000_0000_0000
  {
    assert Span(3) == 0x100_0000;
    assert Span(5) == 0x100_0000_0000 && Span(6) == 0x1_0000_0000_0000 && Span(7) == 0x100_0000_0000_0000;
  }

  /** A further byte counts for the next power of 256: the least significant one comes first. */
  lemma {:induction false} MostSignificantLast(s: seq<Byte>, b: Byte)
    ensures FromLE(s + [b]) == FromLE(s) + b * Span(|s|)
  {
    if s == [] {
      assert [] + [b] == [b] && [b][1..] == [];
    } else {
      MostSignificantLast(s[1..], b);
      assert (s + [b])[1..] == s[1..] + [b];
      var n := Span(|s| - 1);
      assert b * (256 * n) == 256 * (b * n);
    }
  }
}
