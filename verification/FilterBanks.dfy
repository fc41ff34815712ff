/** Packing acceptance filters into the banks of a BxCAN controller: one pass counts, the next allocates. */
module FilterBanks {
  import opened Basics
  import opened CanTypes

  /** A 16-bit pair of standard masks, or one 32-bit mask. */
  datatype Bank =
    | TwoStd(id1: StdRaw, mask1: StdRaw, id2: StdRaw, mask2: StdRaw)
    | OneStd(id: StdRaw, mask: StdRaw)
    | OneExt(xid: ExtRaw, xmask: ExtRaw)
    | AcceptAll

  predicate StdPasses(id: StdRaw, mask: StdRaw, x: CanId) { x.Standard? && BitAnd(x.std, mask) == BitAnd(id, mask) }

  predicate BankAccepts(b: Bank, x: CanId) {
    match b
    case TwoStd(i1, m1, i2, m2) => StdPasses(i1, m1, x) || StdPasses(i2, m2, x)
    case OneStd(i, m) => StdPasses(i, m, x)
    case OneExt(i, m) => x.Extended? && BitAnd(x.ext, m) == BitAnd(i, m)
    case AcceptAll => true
  }

  /** What the controller accepts: anything some enabled bank accepts. */
  predicate Accepted(banks: seq<Option<Bank>>, x: CanId) {
    exists i :: 0 <= i < |banks| && banks[i].Some? && BankAccepts(banks[i].value, x)
  }

  datatype FilterError = MaskOutOfRange | MaskWidthMismatch | TooManyFilters

  function Fault(f: Filter): Option<FilterError> {
    match (f.id, f.mask)
    case (Standard(_), StdMask(m)) => if m < 0x800 then None else Some(MaskOutOfRange)
    case (Extended(_), ExtMask(m)) => if m < 0x2000_0000 then None else Some(MaskOutOfRange)
    case _ => Some(MaskWidthMismatch)
  }

  /** The first filter that is not valid decides the error. */
  function FirstFault(fs: seq<Filter>): Option<FilterError> {
    if fs == [] then None else if Fault(fs[0]).Some? then Fault(fs[0]) else FirstFault(fs[1..])
  }

  /** A filter that the controller can hold: one width, and a mask of 11 or 29 bits. */
  predicate Holdable(f: Filter) {
    || (f.id.Standard? && f.mask.StdMask? && f.mask.m16 <= 0x7ff)
    || (f.id.Extended? && f.mask.ExtMask? && f.mask.m32 <= 0x1fff_ffff)
  }

  predicate WidthsAgree(f: Filter) { f.id.Standard? <==> f.mask.StdMask? }

  /** A list is refused exactly if it has a filter that cannot be held, and for the first such filter: for its widths,
      or else for its mask. */
  lemma {:induction false} FirstFaultIff(fs: seq<Filter>)
    ensures FirstFault(fs).None? <==> forall i :: 0 <= i < |fs| ==> Holdable(fs[i])
    ensures FirstFault(fs).Some? ==> exists i :: 0 <= i < |fs| && IsFirstFault(fs, i, FirstFault(fs).value)
    decreases |fs|
  {
    if fs != [] {
      var rest := fs[1..];
      FirstFaultIff(rest);
      assert forall i :: 1 <= i < |fs| ==> fs[i] == rest[i - 1];
      if !Holdable(fs[0]) {
        assert IsFirstFault(fs, 0, FirstFault(fs).value);
      } else if FirstFault(rest).Some? {
        var i :| 0 <= i < |rest| && IsFirstFault(rest, i, FirstFault(rest).value);
        assert IsFirstFault(fs, i + 1, FirstFault(fs).value);
      }
    }
  }

  predicate IsFirstFault(fs: seq<Filter>, i: nat, e: FilterError) {
    && i < |fs| && !Holdable(fs[i]) && (forall j :: 0 <= j < i ==> Holdable(fs[j]))
    && e == if WidthsAgree(fs[i]) then MaskOutOfRange else MaskWidthMismatch
  }

  predicate IsStd(f: Filter) { f.id.Standard? }

  /** Banks for a filter list: an extended filter takes one, and so does each standard filter unless it
      shares with the standard filter right after it. */
  function Needed(fs: seq<Filter>): nat {
    if fs == [] then 0
    else if |fs| >= 2 && IsStd(fs[0]) && IsStd(fs[1]) then 1 + Needed(fs[2..])
    else 1 + Needed(fs[1..])
  }

  datatype Held = Held(id: StdRaw, mask: StdRaw)

  /** One step of the allocation: the banks that become complete, and the standard filter held back. */
  function Emit(held: Option<Held>, f: Filter): (seq<Bank>, Option<Held>) {
    if Fault(f).Some? then ([], held)
    else
      match f.id
      case Standard(i) =>
        if held.Some? then ([TwoStd(held.value.id, held.value.mask, i, f.mask.m16)], None)
        else ([], Some(Held(i, f.mask.m16)))
      case Extended(i) => (Flush(held) + [OneExt(i, f.mask.m32)], None)
  }

  function Flush(held: Option<Held>): seq<Bank> {
    if held.Some? then [OneStd(held.value.id, held.value.mask)] else []
  }

  /** All banks from here on. */
  function Pack(held: Option<Held>, fs: seq<Filter>): seq<Bank>
    decreases |fs|
  {
    if fs == [] then Flush(held)
    else
      var (now, held') := Emit(held, fs[0]);
      now + Pack(held', fs[1..])
  }

  predicate HeldPasses(held: Option<Held>, x: CanId) { held.Some? && StdPasses(held.value.id, held.value.mask, x) }

  predicate SomeBank(banks: seq<Bank>, x: CanId) { exists i :: 0 <= i < |banks| && BankAccepts(banks[i], x) }

  predicate SomeFilter(fs: seq<Filter>, x: CanId) { exists i :: 0 <= i < |fs| && FilterMatch(fs[i], x) }

  lemma SomeBankConcat(a: seq<Bank>, b: seq<Bank>, x: CanId)
    ensures SomeBank(a + b, x) <==> SomeBank(a, x) || SomeBank(b, x)
  {
    if SomeBank(a, x) {
      var i :| 0 <= i < |a| && BankAccepts(a[i], x);
      assert (a + b)[i] == a[i];
    }
    if SomeBank(b, x) {
      var i :| 0 <= i < |b| && BankAccepts(b[i], x);
      assert (a + b)[|a| + i] == b[i];
    }
  }

  lemma SomeFilterSplit(fs: seq<Filter>, x: CanId)
    requires fs != []
    ensures SomeFilter(fs, x) <==> FilterMatch(fs[0], x) || SomeFilter(fs[1..], x)
  {
    if SomeFilter(fs[1..], x) {
      var i :| 0 <= i < |fs[1..]| && FilterMatch(fs[1..][i], x);
      assert fs[i + 1] == fs[1..][i];
    }
    if SomeFilter(fs, x) && !FilterMatch(fs[0], x) {
      var i :| 0 <= i < |fs| && FilterMatch(fs[i], x);
      assert fs[1..][i - 1] == fs[i];
    }
  }

  lemma EmitAccepts(held: Option<Held>, f: Filter, x: CanId)
    requires Fault(f).None?
    ensures var (now, held') := Emit(held, f);
      SomeBank(now, x) || HeldPasses(held', x) <==> HeldPasses(held, x) || FilterMatch(f, x)
  {
    var (now, held') := Emit(held, f);
    match f.id
    case Standard(i) =>
      if held.Some? {
        assert BankAccepts(now[0], x) <==> HeldPasses(held, x) || FilterMatch(f, x);
      }
    case Extended(i) =>
      var one := [OneExt(i, f.mask.m32)];
      SomeBankConcat(Flush(held), one, x);
      FlushAccepts(held, x);
      assert BankAccepts(one[0], x) <==> FilterMatch(f, x);
  }

  lemma FlushAccepts(held: Option<Held>, x: CanId)
    ensures SomeBank(Flush(held), x) <==> HeldPasses(held, x)
  {
    if held.Some? {
      assert BankAccepts(Flush(held)[0], x) <==> HeldPasses(held, x);
    }
  }

  /** The packed banks accept the union of the filters. */
  lemma {:induction false} PackAccepts(held: Option<Held>, fs: seq<Filter>, x: CanId)
    requires FirstFault(fs).None?
    ensures SomeBank(Pack(held, fs), x) <==> HeldPasses(held, x) || SomeFilter(fs, x)
    decreases |fs|
  {
    if fs == [] {
      FlushAccepts(held, x);
    } else {
      var (now, held') := Emit(held, fs[0]);
      EmitAccepts(held, fs[0], x);
      PackAccepts(held', fs[1..], x);
      SomeBankConcat(now, Pack(held', fs[1..]), x);
      SomeFilterSplit(fs, x);
    }
  }

  /** The packing uses as many banks as pairing neighbours needs. */
  lemma {:induction false} PackSize(fs: seq<Filter>)
    requires FirstFault(fs).None?
    ensures |Pack(None, fs)| == Needed(fs)
    ensures forall h :: fs != [] ==> |Pack(Some(h), fs)| == if IsStd(fs[0]) then 1 + Needed(fs[1..]) else 1 + Needed(fs)
    decreases |fs|
  {
    if fs != [] {
      PackSize(fs[1..]);
      if |fs| >= 2 {
        assert fs[2..] == fs[1..][1..];
      }
    }
  }

  // ---------- The two passes ----------

  /** The counting pass. */
  method CountBanks(filters: seq<Filter>) returns (required: nat, fault: Option<FilterError>)
    ensures fault == FirstFault(filters)
    ensures fault.None? ==> required == |Pack(None, filters)|
  {
    required := 0;
    var pendingStd := false;
    ghost var held: Option<Held> := None;
    for k := 0 to |filters|
      invariant FirstFault(filters) == FirstFault(filters[k..]) && pendingStd == held.Some?
      invariant FirstFault(filters).None? ==> required + |Pack(held, filters[k..])| == |Pack(None, filters)|
    {
      var f := filters[k];
      ghost var rest := filters[k..];
      assert rest[0] == f && rest[1..] == filters[k + 1..];
      match (f.id, f.mask) {
        case (Standard(_), StdMask(m)) =>
          if m >= 0x800 {
            return required, Some(MaskOutOfRange);
          }
          if pendingStd {
            required := required + 1;
            pendingStd := false;
          } else {
            pendingStd := true;
          }
        case (Extended(_), ExtMask(m)) =>
          if m >= 0x2000_0000 {
            return required, Some(MaskOutOfRange);
          }
          if pendingStd {
            required := required + 1;
            pendingStd := false;
          }
          required := required + 1;
        case _ => return required, Some(MaskWidthMismatch);
      }
      held := Emit(held, f).1;
    }
    assert filters[|filters|..] == [];
    if pendingStd {
      required := required + 1;
    }
    fault := None;
  }

  /** `banks.clear()`. */
  method Clear(banks: array<Option<Bank>>)
    modifies banks
    ensures forall i :: 0 <= i < banks.Length ==> banks[i] == None
  {
    for i := 0 to banks.Length
      invariant forall j :: 0 <= j < i ==> banks[j] == None
    {
      banks[i] := None;
    }
  }

  /** The banks from `at` on are still disabled, and those before it are `done`. */
  ghost predicate Enabled(banks: array<Option<Bank>>, done: seq<Bank>)
    reads banks
  {
    && |done| <= banks.Length
    && (forall i :: 0 <= i < |done| ==> banks[i] == Some(done[i]))
    && (forall i :: |done| <= i < banks.Length ==> banks[i] == None)
  }

  /** The bank counter is a byte. */
  const MAX_BANKS: nat := 255

  /** `enable_bank(bank, ...); bank += 1`: `bank` exists, was free, and the counter does not overflow. */
  method EnableNext(banks: array<Option<Bank>>, bank: Byte, b: Bank, ghost done: seq<Bank>) returns (bank': Byte)
    requires Enabled(banks, done) && bank == |done| < banks.Length <= MAX_BANKS
    modifies banks
    ensures Enabled(banks, done + [b]) && bank' == |done| + 1
  {
    banks[bank] := Some(b);
    bank' := bank + 1;
  }

  /** The allocation pass for one filter; it checks the filter once more. */
  method AllocateOne(banks: array<Option<Bank>>, bank: Byte, held: Option<Held>, f: Filter, ghost done: seq<Bank>)
      returns (fault: Option<FilterError>, bank': Byte, held': Option<Held>)
    requires Enabled(banks, done) && bank == |done| && |done| + |Emit(held, f).0| <= banks.Length <= MAX_BANKS
    modifies banks
    ensures fault == Fault(f) && held' == Emit(held, f).1
    ensures Enabled(banks, done + Emit(held, f).0) && bank' == |done| + |Emit(held, f).0|
  {
    fault, bank', held' := None, bank, held;
    match (f.id, f.mask) {
      case (Standard(id), StdMask(mask)) =>
        if mask >= 0x800 {
          fault := Some(MaskOutOfRange);
        } else if held.Some? {
          bank' := EnableNext(banks, bank, TwoStd(held.value.id, held.value.mask, id, mask), done);
          held' := None;
        } else {
          held' := Some(Held(id, mask));
        }
      case (Extended(id), ExtMask(mask)) =>
        if mask >= 0x2000_0000 {
          fault := Some(MaskOutOfRange);
        } else {
          if held.Some? {
            bank' := EnableNext(banks, bank', OneStd(held.value.id, held.value.mask), done);
            held' := None;
          }
          bank' := EnableNext(banks, bank', OneExt(id, mask), done + Flush(held));
          Associative(done, Flush(held), [OneExt(id, mask)]);
        }
      case _ => fault := Some(MaskWidthMismatch);
    }
    assert done + [] == done;
  }

  /** The allocation pass. */
  method Allocate(banks: array<Option<Bank>>, filters: seq<Filter>) returns (fault: Option<FilterError>)
    requires Enabled(banks, []) && |Pack(None, filters)| <= banks.Length <= MAX_BANKS
    modifies banks
    ensures fault == FirstFault(filters)
    ensures fault.None? ==> Enabled(banks, Pack(None, filters))
  {
    var bank: Byte, pendingStd: Option<Held> := 0, None;
    ghost var done: seq<Bank>, all := [], Pack(None, filters);
    for k := 0 to |filters|
      invariant FirstFault(filters[k..]) == FirstFault(filters) && Enabled(banks, done) && bank == |done|
      invariant done + Pack(pendingStd, filters[k..]) == all
    {
      ghost var rest := filters[k..];
      ghost var (now, held') := Emit(pendingStd, filters[k]);
      assert rest[0] == filters[k] && rest[1..] == filters[k + 1..];
      Associative(done, now, Pack(held', filters[k + 1..]));
      fault, bank, pendingStd := AllocateOne(banks, bank, pendingStd, filters[k], done);
      done := done + now;
      if fault.Some? {
        return;
      }
    }
    if pendingStd.Some? {
      bank := EnableNext(banks, bank, OneStd(pendingStd.value.id, pendingStd.value.mask), done);
    }
    assert all == done + Flush(pendingStd);
    assert done + [] == done;
    fault := None;
  }

  /** `set_filters`: an error leaves every bank as it was; otherwise exactly the first `Needed` banks are
      enabled and together they accept what the filter list means. */
  method SetFilters(banks: array<Option<Bank>>, filters: seq<Filter>) returns (error: Option<FilterError>)
    requires 1 <= banks.Length <= MAX_BANKS
    modifies banks
    ensures error == if FirstFault(filters).Some? then FirstFault(filters)
      else if Needed(filters) > banks.Length then Some(TooManyFilters) else None
    ensures error.Some? ==> banks[..] == old(banks[..])
    ensures error.None? ==> forall x :: Accepted(banks[..], x) <==> FiltersMatch(filters, x)
    ensures error.None? ==>
      forall x :: Accepted(banks[..], x) <==> filters == [] || exists i :: 0 <= i < |filters| && Passes(filters[i], x)
    ensures error.None? ==> forall i :: 0 <= i < banks.Length ==>
      (banks[i].Some? <==> i < if filters == [] then 1 else Needed(filters))
  {
    if filters == [] {
      Clear(banks);
      banks[0] := Some(AcceptAll);
      assert banks[..][0] == Some(AcceptAll);
      assert forall x :: BankAccepts(banks[..][0].value, x);
      return None;
    }
    var required, fault := CountBanks(filters);
    if fault.Some? {
      return fault;
    }
    PackSize(filters);
    if required > banks.Length {
      return Some(TooManyFilters);
    }
    Clear(banks);
    error := Allocate(banks, filters);
    forall x
      ensures Accepted(banks[..], x) <==> FiltersMatch(filters, x)
      ensures Accepted(banks[..], x) <==> filters == [] || exists i :: 0 <= i < |filters| && Passes(filters[i], x)
    {
      FiltersMatchIff(filters, x);
      PackAccepts(None, filters, x);
      EnabledAccept(banks, Pack(None, filters), x);
    }
  }

  lemma EnabledAccept(banks: array<Option<Bank>>, done: seq<Bank>, x: CanId)
    requires Enabled(banks, done)
    ensures Accepted(banks[..], x) <==> SomeBank(done, x)
  {
    if SomeBank(done, x) {
      var i :| 0 <= i < |done| && BankAccepts(done[i], x);
      assert banks[..][i] == Some(done[i]);
    }
  }
}
