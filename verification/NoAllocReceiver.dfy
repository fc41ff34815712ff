/** The allocation-free receiver (`recv_file_no_alloc_impl`): the same protocol with a bounded metadata
    vector, a 32-byte hash vector and a fixed chunk buffer. It is proved interchangeable with the
    allocating receiver for exactly the offers that fit. */
module NoAllocReceiver {
  import opened Basics
  import opened TransferTypes
  import opened Receiver

  /** `MAX_METADATA` and `MAX_CHUNK`. */
  datatype Capacity = Capacity(metadata: nat, chunk: nat)

  /** The checks on an offer in this receiver's order: the capacity checks come first. */
  function RejectReasonBounded(p: Params, k: Capacity, o: Offer): Option<AckError> {
    if |o.metadata| > k.metadata then Some(InvalidRequest)
    else if |o.hash| > SHA256_HASH_LEN then Some(HashInvalidLength)
    else RejectReason(p, o)
  }

  function StepOfferBounded(p: Params, k: Capacity, s: State, a: OfferAnswer): State {
    match a
    case OfferErr => Stop(s, [], ProtocolError)
    case OfferMalformed => Stop(s, [], CapnpError)
    case GotOffer(o) =>
      var t := s.(offer := o);
      var r := RejectReasonBounded(p, k, o);
      if r.Some? then Stop(t, [SendAck(RejectAck(o.transferId, r.value))], ProtocolError)
      else t.(phase := Beginning)
  }

  /** The chunk buffer after the copy: zeros beyond what was copied. */
  function Buffered(data: seq<Byte>, size: nat): (buf: seq<Byte>)
    ensures |buf| == size
  {
    seq(size, i requires 0 <= i < size => if i < |data| then data[i] else 0)
  }

  /** The copy into the fixed chunk buffer. */
  method CopyChunk(data: seq<Byte>, size: nat) returns (buf: array<Byte>, copyLen: nat)
    ensures copyLen == Min(|data|, size) && buf[..] == Buffered(data, size)
  {
    buf := new Byte[size](_ => 0);
    copyLen := Min(|data|, size);
    for i := 0 to copyLen
      invariant forall j :: 0 <= j < size ==> buf[j] == if j < i then data[j] else 0
    {
      buf[i] := data[i];
    }
  }

  function StepChunkBounded(p: Params, k: Capacity, s: State, a: ChunkAnswer): State {
    match a
    case ChunkErr => Stop(s, [AbortWrite], ProtocolError)
    case ChunkMalformed => AbortWith(s, s.nextOffset, InvalidRequest, CapnpError)
    case GotChunk(c) =>
      if c.transferId != s.offer.transferId then s
      else if |c.data| > k.chunk || Len32(c.data) > Negotiated(p, s)
      then AbortWith(s, s.nextOffset, ChunkSizeTooLarge, ProtocolError)
      else if c.offset != s.nextOffset then s.(phase := Reporting)
      else
        var copyLen := Min(|c.data|, k.chunk);
        var n := Min(copyLen, s.offer.totalLen - s.nextOffset);
        if n <= 0 then s else s.(phase := Writing(Buffered(c.data, k.chunk)[..n]))
  }

  function StepBounded(p: Params, k: Capacity, s: State, a: Answer): (t: State)
    requires Valid(s)
    ensures Valid(t)
  {
    match s.phase
    case AwaitingOffer => StepOfferBounded(p, k, s, a.offer)
    case AwaitingChunk => StepChunkBounded(p, k, s, a.chunk)
    case _ => Step(p, s, a)
  }

  function RunBoundedFrom(p: Params, k: Capacity, s: State, answers: seq<Answer>, i: nat): (t: State)
    requires Valid(s) && i <= |answers|
    decreases |answers| - i
  {
    if i == |answers| then s else RunBoundedFrom(p, k, StepBounded(p, k, s, answers[i]), answers, i + 1)
  }

  function RunBounded(p: Params, k: Capacity, answers: seq<Answer>): State {
    RunBoundedFrom(p, k, Init(), answers, 0)
  }

  // ---------- The source's loop, proved to run this machine ----------

  lemma {:induction false} BoundedDoneIsFinal(p: Params, k: Capacity, s: State, answers: seq<Answer>, i: nat)
    requires Valid(s) && s.phase.Done? && i <= |answers|
    ensures RunBoundedFrom(p, k, s, answers, i) == s
    decreases |answers| - i
  {
    if i < |answers| {
      BoundedDoneIsFinal(p, k, s, answers, i + 1);
    }
  }

  predicate Closing(ph: Phase) { ph.CommittingEmpty? || ph.Committing? || ph.Completing? || ph.Done? }

  /** Once every byte is written, the two receivers have the same code. */
  lemma {:induction false} ClosingAgrees(p: Params, k: Capacity, s: State, answers: seq<Answer>, i: nat)
    requires Valid(s) && Closing(s.phase) && i <= |answers|
    ensures RunBoundedFrom(p, k, s, answers, i) == RunFrom(p, s, answers, i)
    decreases |answers| - i
  {
    if i < |answers| {
      ClosingAgrees(p, k, Step(p, s, answers[i]), answers, i + 1);
    }
  }

  /** Take the next answer, or notice that there is none. */
  method BoundedAwait(p: Params, k: Capacity, ghost s: State, answers: seq<Answer>, start: nat)
      returns (a: Option<Answer>, i: nat)
    requires Valid(s) && start <= |answers|
    ensures a.None? ==> RunBoundedFrom(p, k, s, answers, start) == s
    ensures a.Some? ==>
      && i == start + 1 <= |answers| && a.value == answers[start]
      && RunBoundedFrom(p, k, s, answers, start) == RunBoundedFrom(p, k, StepBounded(p, k, s, a.value), answers, i)
  {
    if start == |answers| {
      return None, start;
    }
    return Some(answers[start]), start + 1;
  }

  /** `wait_for_transfer_chunk` again: chunks of other transfers are discarded. */
  method BoundedWait(p: Params, k: Capacity, ghost s: State, id: U32, answers: seq<Answer>, start: nat)
    returns (res: Option<ChunkAnswer>, i: nat)
    requires Valid(s) && s.phase.AwaitingChunk? && s.offer.transferId == id && start <= |answers|
    ensures start <= i <= |answers|
    ensures res.None? ==> RunBoundedFrom(p, k, s, answers, start) == s
    ensures res.Some? ==>
      && start < i && res.value == answers[i - 1].chunk
      && (res.value.GotChunk? ==> res.value.chunk.transferId == id)
      && RunBoundedFrom(p, k, s, answers, start)
        == RunBoundedFrom(p, k, StepChunkBounded(p, k, s, res.value), answers, i)
  {
    i := start;
    while i < |answers|
      invariant start <= i <= |answers|
      invariant RunBoundedFrom(p, k, s, answers, start) == RunBoundedFrom(p, k, s, answers, i)
    {
      var a := answers[i].chunk;
      i := i + 1;
      if !a.GotChunk? || a.chunk.transferId == id {
        return Some(a), i;
      }
    }
    return None, i;
  }

  /** Write the front of the chunk buffer and feed the hasher. */
  method BoundedWrite(
      p: Params, k: Capacity, ghost s0: State, o: Offer, negotiated: U32, data: seq<Byte>, answers: seq<Answer>,
      start: nat, calls0: seq<Call>, hashed0: seq<Byte>, next0: U32, lastProgress: U32)
      returns (more: bool, report: bool, out: Option<Outcome>, i: nat, calls: seq<Call>, hashed: seq<Byte>,
               nextOffset: U32)
    requires Valid(s0) && start <= |answers| && negotiated == Negotiate(p.maxChunkSize, o.senderMaxChunk)
    requires s0 == State(Writing(data), o, next0, lastProgress, hashed0, calls0)
    ensures !more ==> var fin := RunBoundedFrom(p, k, s0, answers, start); out == OutcomeOf(fin) && calls == fin.calls
    ensures more ==>
      && start <= i <= |answers| && nextOffset < o.totalLen && out == None
      && RunBoundedFrom(p, k, s0, answers, start) ==
           RunBoundedFrom(
             p, k, State(if report then Reporting else AwaitingChunk, o, nextOffset, lastProgress, hashed, calls),
             answers, i)
  {
    more, report, out, calls, hashed, nextOffset := false, false, None, calls0, hashed0, next0;
    var a;
    a, i := BoundedAwait(p, k, s0, answers, start);
    if a.None? {
      return;
    }
    ghost var s := Step(p, s0, a.value);
    if a.value.store.StoreErr? {
      BoundedDoneIsFinal(p, k, s, answers, i);
      out, calls := Some(Failed(StoreError(a.value.store.e))), calls + [WriteAt(nextOffset, data, false), AbortWrite];
      return;
    }
    calls := calls + [WriteAt(nextOffset, data, true)];
    hashed := hashed + data;
    nextOffset := nextOffset + |data|;
    if nextOffset >= o.totalLen {
      ClosingAgrees(p, k, s, answers, i);
      out, calls := Finish(p, s, o, negotiated, hashed, answers, i, calls);
      return;
    }
    more, report := true, nextOffset - lastProgress >= negotiated;
  }

  /** Send a progress ack; if that fails, abort the write and stop. */
  method BoundedProgress(
      p: Params, k: Capacity, ghost s: State, answers: seq<Answer>, start: nat, calls0: seq<Call>, id: U32, next: U32)
    returns (ok: bool, out: Option<Outcome>, i: nat, calls: seq<Call>)
    requires Valid(s) && s.phase.Reporting? && start <= |answers|
    requires s.offer.transferId == id && s.nextOffset == next && s.calls == calls0
    ensures !ok ==> var fin := RunBoundedFrom(p, k, s, answers, start); out == OutcomeOf(fin) && calls == fin.calls
    ensures ok ==>
      && start <= i <= |answers| && out == None
      && RunBoundedFrom(p, k, s, answers, start) ==
           RunBoundedFrom(p, k, s.(phase := AwaitingChunk, lastProgress := next, calls := calls), answers, i)
  {
    var a;
    a, i := BoundedAwait(p, k, s, answers, start);
    if a.None? {
      return false, None, start, calls0;
    }
    calls := calls0 + [SendAck(ProgressAck(id, next))];
    if !a.value.sendOk {
      BoundedDoneIsFinal(p, k, Step(p, s, a.value), answers, i);
      return false, Some(Failed(ProtocolError)), i, calls + [AbortWrite];
    }
    return true, None, i, calls;
  }

  /** What an arrived chunk leads to, over the fixed buffer: an error, a report, nothing, or bytes to write. */
  datatype Reaction = Give(error: RecvError, more: seq<Call>) | Report | Skip | Write(data: seq<Byte>)

  method React(p: Params, k: Capacity, ghost s: State, o: Offer, negotiated: U32, nextOffset: U32, a: ChunkAnswer)
      returns (r: Reaction)
    requires Valid(s) && s.phase.AwaitingChunk? && s.offer == o && s.nextOffset == nextOffset
    requires negotiated == Negotiate(p.maxChunkSize, o.senderMaxChunk)
      && (a.GotChunk? ==> a.chunk.transferId == o.transferId)
    ensures StepChunkBounded(p, k, s, a) ==
      match r
      case Give(e, more) => Stop(s, more, e)
      case Report => s.(phase := Reporting)
      case Skip => s
      case Write(data) => s.(phase := Writing(data))
    ensures r.Write? ==> 0 < |r.data| && nextOffset + |r.data| <= o.totalLen
  {
    if a.ChunkErr? {
      return Give(ProtocolError, [AbortWrite]);
    } else if a.ChunkMalformed? {
      return Give(CapnpError, [AbortWrite, SendAck(AbortAck(o.transferId, nextOffset, InvalidRequest))]);
    }
    var c := a.chunk;
    var chunkData, copyLen := CopyChunk(c.data, k.chunk);
    if |c.data| > k.chunk || Len32(c.data) > negotiated {
      return Give(ProtocolError, [AbortWrite, SendAck(AbortAck(o.transferId, nextOffset, ChunkSizeTooLarge))]);
    }
    if c.offset != nextOffset {
      return Report;
    }
    var n := Min(copyLen, o.totalLen - nextOffset);
    if n == 0 {
      return Skip;
    }
    assert chunkData[..n] == chunkData[..][..n];
    return Write(chunkData[..n]);
  }

  /** The receive loop over the fixed chunk buffer. */
  method BoundedChunkLoop(
      p: Params, k: Capacity, ghost s0: State, o: Offer, negotiated: U32, answers: seq<Answer>, start: nat,
      calls0: seq<Call>)
    returns (out: Option<Outcome>, calls: seq<Call>)
    requires start <= |answers| && o.totalLen > 0 && negotiated == Negotiate(p.maxChunkSize, o.senderMaxChunk)
    requires s0 == State(AwaitingChunk, o, 0, 0, [], calls0)
    ensures var fin := RunBoundedFrom(p, k, s0, answers, start); out == OutcomeOf(fin) && calls == fin.calls
  {
    var i := start;
    var nextOffset: U32, lastProgress: U32 := 0, 0;
    var hashed := [];
    ghost var s := s0;
    out, calls := None, calls0;
    while nextOffset < o.totalLen
      invariant start <= i <= |answers| && nextOffset < o.totalLen
      invariant s == State(AwaitingChunk, o, nextOffset, lastProgress, hashed, calls)
      invariant RunBoundedFrom(p, k, s0, answers, start) == RunBoundedFrom(p, k, s, answers, i)
      decreases |answers| - i
    {
      var w;
      w, i := BoundedWait(p, k, s, o.transferId, answers, i);
      if w.None? {
        return None, calls;
      }
      var reaction := React(p, k, s, o, negotiated, nextOffset, w.value);
      s := StepChunkBounded(p, k, s, w.value);
      if reaction.Give? {
        BoundedDoneIsFinal(p, k, s, answers, i);
        return Some(Failed(reaction.error)), calls + reaction.more;
      }
      var report := reaction.Report?;
      if reaction.Write? {
        var more;
        more, report, out, i, calls, hashed, nextOffset :=
          BoundedWrite(p, k, s, o, negotiated, reaction.data, answers, i, calls, hashed, nextOffset, lastProgress);
        if !more {
          return;
        }
        s := State(if report then Reporting else AwaitingChunk, o, nextOffset, lastProgress, hashed, calls);
      }
      if report {
        var ok;
        ok, out, i, calls := BoundedProgress(p, k, s, answers, i, calls, o.transferId, nextOffset);
        if !ok {
          return;
        }
        lastProgress := nextOffset;
        s := State(AwaitingChunk, o, nextOffset, lastProgress, hashed, calls);
      }
    }
    assert false;  // the error after the loop cannot be reached
  }

  /** From `begin_write` on. */
  method BoundedTransfer(
      p: Params, k: Capacity, ghost s0: State, o: Offer, negotiated: U32, answers: seq<Answer>, start: nat)
    returns (out: Option<Outcome>, calls: seq<Call>)
    requires start <= |answers| && s0 == State(Beginning, o, 0, 0, [], []) && negotiated == Negotiated(p, s0)
    ensures var fin := RunBoundedFrom(p, k, s0, answers, start); out == OutcomeOf(fin) && calls == fin.calls
  {
    var a, i := BoundedAwait(p, k, s0, answers, start);
    if a.None? {
      return None, [];
    }
    ghost var s := Step(p, s0, a.value);
    if a.value.store.StoreErr? {
      BoundedDoneIsFinal(p, k, s, answers, i);
      return Some(Failed(StoreError(a.value.store.e))), [Begin(o.transferId, o.totalLen, false)];
    }
    calls := [Begin(o.transferId, o.totalLen, true)];
    out, calls := BoundedAccept(p, k, s, o, negotiated, answers, i, calls);
  }

  /** From the accept on. */
  method BoundedAccept(
      p: Params, k: Capacity, ghost s0: State, o: Offer, negotiated: U32, answers: seq<Answer>, start: nat,
      calls0: seq<Call>)
    returns (out: Option<Outcome>, calls: seq<Call>)
    requires start <= |answers| && s0 == State(Accepting, o, 0, 0, [], calls0) && negotiated == Negotiated(p, s0)
    ensures var fin := RunBoundedFrom(p, k, s0, answers, start); out == OutcomeOf(fin) && calls == fin.calls
  {
    var a, i := BoundedAwait(p, k, s0, answers, start);
    if a.None? {
      return None, calls0;
    }
    ghost var s := Step(p, s0, a.value);
    calls := calls0 + [SendAck(AcceptAck(o.transferId, negotiated))];
    if !a.value.sendOk {
      BoundedDoneIsFinal(p, k, s, answers, i);
      return Some(Failed(ProtocolError)), calls + [AbortWrite];
    }
    if o.totalLen == 0 {
      ClosingAgrees(p, k, s, answers, i);
      out, calls := FinishEmpty(p, s, o, negotiated, answers, i, calls);
    } else {
      out, calls := BoundedChunkLoop(p, k, s, o, negotiated, answers, i, calls);
    }
  }

  /** `recv_file_no_alloc_impl`: outcome and outside calls are those of the bounded machine, for every environment. */
  method RecvFileNoAllocImpl(p: Params, k: Capacity, answers: seq<Answer>)
      returns (out: Option<Outcome>, calls: seq<Call>)
    ensures out == OutcomeOf(RunBounded(p, k, answers))
    ensures calls == RunBounded(p, k, answers).calls
  {
    var a, i := BoundedAwait(p, k, Init(), answers, 0);
    if a.None? {
      return None, [];
    }
    ghost var s := StepBounded(p, k, Init(), a.value);
    if !a.value.offer.GotOffer? {
      BoundedDoneIsFinal(p, k, s, answers, i);
      return Some(Failed(if a.value.offer.OfferErr? then ProtocolError else CapnpError)), [];
    }
    var o := a.value.offer.offer;
    var reason := RejectReasonBounded(p, k, o);
    if reason.Some? {
      BoundedDoneIsFinal(p, k, s, answers, i);
      return Some(Failed(ProtocolError)), [SendAck(RejectAck(o.transferId, reason.value))];
    }
    out, calls := BoundedTransfer(p, k, s, o, Negotiate(p.maxChunkSize, o.senderMaxChunk), answers, i);
  }

  // ---------- Interchangeability ----------

  /** A Cap'n Proto data blob is shorter than 2^32 bytes, so `len() as u32` is exact. */
  predicate Sized(answers: seq<Answer>) {
    forall i :: 0 <= i < |answers| && answers[i].chunk.GotChunk? ==> |answers[i].chunk.chunk.data| < U32_LIMIT
  }

  /** Offers on which the two receivers cannot be told apart; a caller can check this on the offer. */
  predicate Fits(p: Params, k: Capacity, o: Offer) {
    && |o.metadata| <= k.metadata
    && (|o.hash| <= SHA256_HASH_LEN || o.algo == Sha256)
    && (RejectReason(p, o).Some? || o.totalLen == 0 || Negotiate(p.maxChunkSize, o.senderMaxChunk) <= k.chunk)
  }

  /** The states in which the offer is known and fits. */
  predicate Fitting(p: Params, k: Capacity, s: State) {
    && Valid(s)
    && !s.phase.AwaitingOffer?
    && (!s.phase.Done? ==> RejectReason(p, s.offer).None?)
    && Fits(p, k, s.offer)
  }

  lemma ChunkAgrees(p: Params, k: Capacity, s: State, c: Chunk)
    requires Valid(s) && s.phase.AwaitingChunk? && |c.data| < U32_LIMIT
    requires Negotiated(p, s) <= k.chunk
    ensures StepChunkBounded(p, k, s, GotChunk(c)) == StepChunk(p, s, GotChunk(c))
  {
    var n := Min(|c.data|, s.offer.totalLen - s.nextOffset);
    if |c.data| <= k.chunk {
      assert Buffered(c.data, k.chunk)[..n] == c.data[..n];
    }
  }

  lemma StepAgrees(p: Params, k: Capacity, s: State, a: Answer)
    requires Fitting(p, k, s) && (a.chunk.GotChunk? ==> |a.chunk.chunk.data| < U32_LIMIT)
    ensures StepBounded(p, k, s, a) == Step(p, s, a)
  {
    if s.phase.AwaitingChunk? && a.chunk.GotChunk? {
      ChunkAgrees(p, k, s, a.chunk.chunk);
    }
  }

  lemma StaysFitting(p: Params, k: Capacity, s: State, a: Answer)
    requires Fitting(p, k, s)
    ensures Fitting(p, k, Step(p, s, a))
  {
  }

  lemma {:induction false} RunAgrees(p: Params, k: Capacity, s: State, answers: seq<Answer>, i: nat)
    requires Fitting(p, k, s) && i <= |answers| && Sized(answers)
    ensures RunBoundedFrom(p, k, s, answers, i) == RunFrom(p, s, answers, i)
    decreases |answers| - i
  {
    if i < |answers| {
      StepAgrees(p, k, s, answers[i]);
      StaysFitting(p, k, s, answers[i]);
      RunAgrees(p, k, Step(p, s, answers[i]), answers, i + 1);
    }
  }

  /** Same store calls, same acks, same outcome on every input that follows the offer. */
  ghost predicate Interchangeable(p: Params, k: Capacity, o: Offer) {
    forall answers: seq<Answer> :: |answers| > 0 && answers[0].offer == GotOffer(o) && Sized(answers) ==>
      RunBounded(p, k, answers) == Run(p, answers)
  }

  lemma FitsImpliesInterchangeable(p: Params, k: Capacity, o: Offer)
    requires Fits(p, k, o)
    ensures Interchangeable(p, k, o)
  {
    forall answers: seq<Answer> | |answers| > 0 && answers[0].offer == GotOffer(o) && Sized(answers)
      ensures RunBounded(p, k, answers) == Run(p, answers)
    {
      assert RejectReasonBounded(p, k, o) == RejectReason(p, o);
      RunAgrees(p, k, Step(p, Init(), answers[0]), answers, 1);
    }
  }

  /** An offer that one of them refuses for another reason, or not at all. */
  lemma RefusedDifferently(p: Params, k: Capacity, o: Offer)
    requires RejectReasonBounded(p, k, o) != RejectReason(p, o)
    ensures !Interchangeable(p, k, o)
  {
    var answers := [Answer(GotOffer(o), ChunkErr, StoreOk, true)];
    assert RunFrom(p, Step(p, Init(), answers[0]), answers, 1) == Step(p, Init(), answers[0]);
    assert RunBoundedFrom(p, k, StepBounded(p, k, Init(), answers[0]), answers, 1)
      == StepBounded(p, k, Init(), answers[0]);
    assert Run(p, answers) == StepOffer(p, Init(), GotOffer(o));
    assert RunBounded(p, k, answers) == StepOfferBounded(p, k, Init(), GotOffer(o));
    assert Sized(answers) && answers[0].offer == GotOffer(o);
  }

  lemma {:induction false} RunBoundedFromAppend(
      p: Params, k: Capacity, s: State, answers: seq<Answer>, a: Answer, i: nat)
    requires Valid(s) && i <= |answers|
    ensures Valid(RunBoundedFrom(p, k, s, answers, i))
    ensures RunBoundedFrom(p, k, s, answers + [a], i) == StepBounded(p, k, RunBoundedFrom(p, k, s, answers, i), a)
    decreases |answers| - i
  {
    if i < |answers| {
      RunBoundedFromAppend(p, k, StepBounded(p, k, s, answers[i]), answers, a, i + 1);
    } else {
      assert RunBoundedFrom(p, k, StepBounded(p, k, s, a), answers + [a], i + 1) == StepBounded(p, k, s, a);
    }
  }

  lemma BoundedAppend(p: Params, k: Capacity, answers: seq<Answer>, a: Answer)
    ensures Valid(RunBounded(p, k, answers))
    ensures RunBounded(p, k, answers + [a]) == StepBounded(p, k, RunBounded(p, k, answers), a)
  {
    RunBoundedFromAppend(p, k, Init(), answers, a, 0);
  }

  /** Both receivers have accepted the same offer and wait for its first chunk. */
  lemma BothWait(p: Params, k: Capacity, o: Offer, a: Answer)
    requires RejectReasonBounded(p, k, o) == RejectReason(p, o) == None && o.totalLen > 0
    requires a.offer == GotOffer(o) && a.store.StoreOk? && a.sendOk
    ensures var s := Run(p, [a] + [a] + [a]);
      s == RunBounded(p, k, [a] + [a] + [a]) && s.phase.AwaitingChunk? && s.offer == o && s.nextOffset == 0
  {
    RunAppend(p, [], a);
    BoundedAppend(p, k, [], a);
    assert [] + [a] == [a];
    RunAppend(p, [a], a);
    BoundedAppend(p, k, [a], a);
    RunAppend(p, [a] + [a], a);
    BoundedAppend(p, k, [a] + [a], a);
  }

  /** An offer whose chunks may exceed the buffer: one such chunk tells the receivers apart. */
  lemma OversizeSeparates(p: Params, k: Capacity, o: Offer)
    requires RejectReasonBounded(p, k, o) == RejectReason(p, o) == None && o.totalLen > 0
    requires Negotiate(p.maxChunkSize, o.senderMaxChunk) > k.chunk
    ensures !Interchangeable(p, k, o)
  {
    var chunk := Chunk(o.transferId, 0, Buffered([], k.chunk + 1));
    var a := Answer(GotOffer(o), GotChunk(chunk), StoreOk, true);
    var three := [a] + [a] + [a];
    BothWait(p, k, o, a);
    RunAppend(p, three, a);
    BoundedAppend(p, k, three, a);
    assert Run(p, three + [a]).phase.Writing?;
    assert RunBounded(p, k, three + [a]).phase.Done?;
    assert Sized(three + [a]) && (three + [a])[0].offer == GotOffer(o);
  }

  /** An offer that does not fit is refused for another reason, or one oversized chunk separates the two. */
  lemma MisfitIsDistinguished(p: Params, k: Capacity, o: Offer)
    requires !Fits(p, k, o)
    ensures !Interchangeable(p, k, o)
  {
    if RejectReasonBounded(p, k, o) != RejectReason(p, o) {
      RefusedDifferently(p, k, o);
    } else {
      OversizeSeparates(p, k, o);
    }
  }

  /** The two receivers are interchangeable on exactly the offers that fit. */
  lemma InterchangeableIffFits(p: Params, k: Capacity, o: Offer)
    ensures Interchangeable(p, k, o) <==> Fits(p, k, o)
  {
    if Fits(p, k, o) {
      FitsImpliesInterchangeable(p, k, o);
    } else {
      MisfitIsDistinguished(p, k, o);
    }
  }
}
