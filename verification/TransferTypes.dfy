/** Values shared by both ends of the file-transfer protocol: message records,
    configuration, and the ceiling division used for window accounting. */
module TransferTypes {
  import opened Basics

  const U32_LIMIT: nat := 0x1_0000_0000
  const SHA256_HASH_LEN: nat := 32

  type U32 = n: int | 0 <= n < 0x1_0000_0000

  /** `FileAckKind`; the schema's `ack` kind is called `Progress` here. */
  datatype AckKind = Accept | Progress | Reject | Complete | Abort

  datatype AckError =
    | NoError | InvalidRequest | ChunkSizeTooLarge | ChunkSizeTooSmall
    | HashMissing | HashInvalidLength | HashAlgoUnsupported | HashMismatch

  datatype Ack = Ack(transferId: U32, kind: AckKind, nextOffset: U32, chunkSize: U32, error: AckError)

  /** `UnknownAlgo` stands for an enum value outside the schema. */
  datatype HashAlgo = Sha256 | UnknownAlgo

  datatype Offer = Offer(transferId: U32, totalLen: U32, senderMaxChunk: U32,
                         metadata: seq<Byte>, algo: HashAlgo, hash: seq<Byte>)

  datatype Chunk = Chunk(transferId: U32, offset: U32, data: seq<Byte>)

  /** `thincan::ErrorKind`. */
  datatype ErrorKind = Timeout | BufferTooSmall(needed: nat, got: nat) | Other

  function AcceptAck(id: U32, chunkSize: U32): Ack { Ack(id, Accept, 0, chunkSize, NoError) }
  function ProgressAck(id: U32, next: U32): Ack { Ack(id, Progress, next, 0, NoError) }
  function RejectAck(id: U32, e: AckError): Ack { Ack(id, Reject, 0, 0, e) }
  function AbortAck(id: U32, next: U32, e: AckError): Ack { Ack(id, Abort, next, 0, e) }
  function CompleteAck(id: U32, total: U32): Ack { Ack(id, Complete, total, 0, NoError) }

  /** `usize::div_ceil`, by repeated subtraction: the number of chunks of at most `d` bytes that cover
      `n` bytes. `DivCeilIsDivision` gives the closed form. */
  function DivCeil(n: nat, d: nat): nat
    requires d > 0
  {
    if n == 0 then 0 else 1 + DivCeil(n - Min(n, d), d)
  }

  lemma MulMonotone(a: int, b: int, d: int)
    requires a <= b && d >= 0
    ensures a * d <= b * d
  {
    assert (b - a) * d >= 0;
    assert b * d == (b - a) * d + a * d;
  }

  lemma MulAdd(a: int, b: int, d: int)
    ensures (a + b) * d == a * d + b * d
  {
  }

  lemma {:induction false} DivCeilBounds(n: nat, d: nat)
    requires d > 0
    ensures n <= DivCeil(n, d) * d < n + d
    decreases n
  {
    if n > 0 {
      var m := n - Min(n, d);
      DivCeilBounds(m, d);
      MulAdd(DivCeil(m, d), 1, d);
      assert m == 0 ==> DivCeil(m, d) == 0;
    }
  }

  lemma DivBounds(m: nat, d: nat)
    requires d > 0
    ensures (m / d) * d <= m < (m / d) * d + d
  {
  }

  lemma DivCeilIsDivision(n: nat, d: nat)
    requires d > 0
    ensures DivCeil(n, d) == (n + d - 1) / d
  {
    DivCeilBounds(n, d);
    DivBounds(n + d - 1, d);
    var q, e := DivCeil(n, d), (n + d - 1) / d;
    if e < q {
      MulMonotone(e + 1, q, d);
      MulAdd(e, 1, d);
    } else if e > q {
      MulMonotone(q + 1, e, d);
      MulAdd(q, 1, d);
    }
  }

  /** Falling back by at most `w` chunks' worth of bytes costs at most `w` further chunks. */
  lemma DivCeilGrowth(n: nat, m: nat, d: nat, w: nat)
    requires d > 0 && n <= m <= n + w * d
    ensures DivCeil(n, d) <= DivCeil(m, d) <= DivCeil(n, d) + w
  {
    var p, q := DivCeil(n, d), DivCeil(m, d);
    DivCeilBounds(n, d);
    DivCeilBounds(m, d);
    if p > q {
      MulMonotone(q + 1, p, d);
      MulAdd(q, 1, d);
    }
    if q > p + w {
      MulMonotone(p + w + 1, q, d);
      MulAdd(p + w, 1, d);
      MulAdd(p, w, d);
    }
  }

  /** Fewer than `w` chunks in flight leaves room for one whole chunk. */
  lemma DivCeilRoom(n: nat, d: nat, w: nat)
    requires d > 0 && DivCeil(n, d) < w
    ensures n + d <= w * d
  {
    DivCeilBounds(n, d);
    MulMonotone(DivCeil(n, d) + 1, w, d);
    MulAdd(DivCeil(n, d), 1, d);
  }

  /** `n` is a whole number of `d`-byte chunks. */
  predicate Multiple(n: nat, d: nat)
    requires d > 0
  {
    n == 0 || (n >= d && Multiple(n - d, d))
  }

  lemma {:induction false} MultipleDifference(a: nat, b: nat, d: nat)
    requires d > 0 && Multiple(a, d) && Multiple(b, d) && b <= a
    ensures Multiple(a - b, d)
    decreases b
  {
    if b > 0 {
      MultipleDifference(a - d, b - d, d);
    }
  }

  lemma {:induction false} MultipleCeil(n: nat, d: nat)
    requires d > 0 && Multiple(n, d)
    ensures DivCeil(n, d) * d == n
    decreases n
  {
    if n > 0 {
      MultipleCeil(n - d, d);
      MulAdd(DivCeil(n - d, d), 1, d);
    }
  }
}
