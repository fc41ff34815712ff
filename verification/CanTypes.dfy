/** CAN identifiers, frames and acceptance filters. */
module CanTypes {
  import opened Basics

  const MAX_DATA_LEN: nat := 64

  type U16 = n: int | 0 <= n < 0x1_0000
  type U32 = n: int | 0 <= n < 0x1_0000_0000
  type U64 = n: int | 0 <= n < 0x1_0000_0000_0000_0000

  /** 11-bit and 29-bit identifiers, as `StandardId::new` and `ExtendedId::new` admit them. */
  type StdRaw = n: int | 0 <= n < 0x800
  type ExtRaw = n: int | 0 <= n < 0x2000_0000

  datatype CanId = Standard(std: StdRaw) | Extended(ext: ExtRaw)
  datatype IdMask = StdMask(m16: U16) | ExtMask(m32: U32)
  datatype Filter = Filter(id: CanId, mask: IdMask)

  /** Bitwise and. */
  function BitAnd(a: nat, b: nat): nat
    decreases a
  {
    if a == 0 || b == 0 then 0 else (a % 2) * (b % 2) + 2 * BitAnd(a / 2, b / 2)
  }

  /** Bit `k` of a number. */
  function Bit(a: nat, k: nat): (b: nat)
    ensures b <= 1
  {
    if k == 0 then a % 2 else Bit(a / 2, k - 1)
  }

  lemma {:induction false} BitOfZero(k: nat)
    ensures Bit(0, k) == 0
  {
    if k > 0 {
      BitOfZero(k - 1);
    }
  }

  /** Bit for bit the product. */
  lemma {:induction false} BitOfAnd(a: nat, b: nat, k: nat)
    ensures Bit(BitAnd(a, b), k) == Bit(a, k) * Bit(b, k)
    decreases a
  {
    if a == 0 || b == 0 {
      BitOfZero(k);
    } else {
      var n := BitAnd(a / 2, b / 2);
      assert a % 2 == 0 || b % 2 == 0 ==> BitAnd(a, b) == 2 * n;
      assert BitAnd(a, b) / 2 == n;
      if k > 0 {
        BitOfAnd(a / 2, b / 2, k - 1);
      }
    }
  }

  /** Two numbers have the same bits where the mask has ones. */
  ghost predicate SameUnder(mask: nat, a: nat, b: nat) { forall k: nat :: Bit(mask, k) == 1 ==> Bit(a, k) == Bit(b, k) }

  lemma SameUnderHalf(mask: nat, a: nat, b: nat)
    requires SameUnder(mask, a, b)
    ensures SameUnder(mask / 2, a / 2, b / 2) && (mask % 2 == 1 ==> a % 2 == b % 2)
  {
    assert Bit(mask, 0) == mask % 2 && Bit(a, 0) == a % 2 && Bit(b, 0) == b % 2;
    forall k: nat | Bit(mask / 2, k) == 1
      ensures Bit(a / 2, k) == Bit(b / 2, k)
    {
      assert Bit(mask, k + 1) == 1;
      assert Bit(a, k + 1) == Bit(a / 2, k) && Bit(b, k + 1) == Bit(b / 2, k);
    }
  }

  lemma {:induction false} SameAnd(mask: nat, a: nat, b: nat)
    requires SameUnder(mask, a, b)
    ensures BitAnd(a, mask) == BitAnd(b, mask)
    decreases mask
  {
    if mask > 0 {
      SameUnderHalf(mask, a, b);
      SameAnd(mask / 2, a / 2, b / 2);
      AndSplit(a, mask);
      AndSplit(b, mask);
    }
  }

  lemma AndSplit(a: nat, b: nat)
    ensures BitAnd(a, b) == (a % 2) * (b % 2) + 2 * BitAnd(a / 2, b / 2)
  {
  }

  /** A bit that the mask sets is kept. */
  lemma BitKept(a: nat, mask: nat, k: nat)
    requires Bit(mask, k) == 1
    ensures Bit(BitAnd(a, mask), k) == Bit(a, k)
  {
    BitOfAnd(a, mask, k);
  }

  /** The masked comparison: agreement on every bit that the mask sets. */
  lemma MaskedEqualIff(mask: nat, a: nat, b: nat)
    ensures BitAnd(a, mask) == BitAnd(b, mask) <==> SameUnder(mask, a, b)
  {
    if SameUnder(mask, a, b) {
      SameAnd(mask, a, b);
    } else {
      var k: nat :| Bit(mask, k) == 1 && Bit(a, k) != Bit(b, k);
      BitKept(a, mask, k);
      BitKept(b, mask, k);
    }
  }

  /** `filter_match`: widths must agree, and the ids on the mask's bits. */
  predicate FilterMatch(f: Filter, id: CanId) {
    match (f.id, f.mask, id)
    case (Standard(fid), StdMask(m), Standard(raw)) => BitAnd(raw, m) == BitAnd(fid, m)
    case (Extended(fid), ExtMask(m), Extended(raw)) => BitAnd(raw, m) == BitAnd(fid, m)
    case _ => false
  }

  /** `filters_match`: no filter means everything passes. */
  predicate FiltersMatch(filters: seq<Filter>, id: CanId) {
    filters == [] || exists i :: 0 <= i < |filters| && FilterMatch(filters[i], id)
  }

  /** What a filter lets through: ids of its own width that agree with it on every bit its mask sets. */
  ghost predicate Passes(f: Filter, id: CanId) {
    || (f.id.Standard? && f.mask.StdMask? && id.Standard? && SameUnder(f.mask.m16, id.std, f.id.std))
    || (f.id.Extended? && f.mask.ExtMask? && id.Extended? && SameUnder(f.mask.m32, id.ext, f.id.ext))
  }

  lemma FilterMatchIff(f: Filter, id: CanId)
    ensures FilterMatch(f, id) <==> Passes(f, id)
  {
    match (f.id, f.mask, id)
    case (Standard(fid), StdMask(m), Standard(raw)) => MaskedEqualIff(m, raw, fid);
    case (Extended(fid), ExtMask(m), Extended(raw)) => MaskedEqualIff(m, raw, fid);
    case _ =>
  }

  /** A list lets through what some filter of it does, and an empty list everything. */
  lemma FiltersMatchIff(filters: seq<Filter>, id: CanId)
    ensures FiltersMatch(filters, id) <==> filters == [] || exists i :: 0 <= i < |filters| && Passes(filters[i], id)
  {
    forall i | 0 <= i < |filters|
      ensures FilterMatch(filters[i], id) <==> Passes(filters[i], id)
    {
      FilterMatchIff(filters[i], id);
    }
  }

  /** A frame with its fixed-size data buffer. */
  datatype Frame = Frame(id: CanId, data: seq<Byte>, dlc: Byte, remote: bool)

  predicate ValidFrame(f: Frame) { |f.data| == MAX_DATA_LEN && f.dlc <= MAX_DATA_LEN }

  /** Zero bytes past the data length, as every constructor leaves them. */
  predicate Clean(f: Frame) {
    ValidFrame(f) && forall i :: f.dlc <= i < MAX_DATA_LEN ==> f.data[i] == 0
  }

  /** `UnixFrame::from_parts`. */
  function FromParts(id: CanId, dlc: Byte, data: seq<Byte>, remote: bool): Option<Frame> {
    if dlc > MAX_DATA_LEN then None else Some(Frame(id, data, dlc, remote))
  }

  /** `UnixFrame::new`. */
  function NewFrame(id: CanId, data: seq<Byte>): (f: Option<Frame>)
    ensures f.Some? <==> |data| <= MAX_DATA_LEN
    ensures f.Some? ==> Clean(f.value) && f.value.data[..f.value.dlc] == data && !f.value.remote
  {
    if |data| > MAX_DATA_LEN then None
    else Some(Frame(id, data + Zeros(MAX_DATA_LEN - |data|), |data|, false))
  }

  /** `UnixFrame::new_remote`. */
  function NewRemote(id: CanId, dlc: nat): (f: Option<Frame>)
    ensures f.Some? <==> dlc <= MAX_DATA_LEN
    ensures f.Some? ==> Clean(f.value) && f.value.dlc == dlc && f.value.remote
  {
    if dlc > MAX_DATA_LEN then None else Some(Frame(id, Zeros(MAX_DATA_LEN), dlc, true))
  }
}
