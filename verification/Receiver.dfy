/** The cumulative-ack receiver (`recv_file_impl`): it writes to a store, hashes, and then commits or
    aborts. As for the sender, `Step` consumes the environment's answer to one await, and `RecvFileImpl`
    is the source's control flow, proved to run that machine. */
module Receiver {
  import opened Basics
  import opened TransferTypes

  datatype Params = Params(maxChunkSize: U32, digest: seq<Byte> -> seq<Byte>)

  /** Everything the receiver does to the outside, in order; store calls carry their result. */
  datatype Call =
    | Begin(id: U32, total: U32, ok: bool)
    | WriteAt(offset: U32, data: seq<Byte>, ok: bool)
    | Commit(ok: bool)
    | AbortWrite
    | SendAck(ack: Ack)

  datatype RecvFileResult = RecvFileResult(transferId: U32, totalLen: U32, receivedLen: U32,
                                           senderMaxChunk: U32, negotiated: U32,
                                           metadata: seq<Byte>, hash: seq<Byte>)

  datatype RecvError = StoreError(e: int) | ProtocolError | CapnpError
  datatype Outcome = Received(result: RecvFileResult) | Failed(error: RecvError)

  datatype Phase =
    | AwaitingOffer
    | Beginning
    | Accepting
    | CommittingEmpty
    | AwaitingChunk
    | Writing(data: seq<Byte>)
    | Reporting          // sending a progress ack for `nextOffset`
    | Committing
    | Completing
    | Done(outcome: Outcome)

  /** `hashed` is the hasher's input so far. `offer` is meaningful once past `AwaitingOffer`. */
  datatype State = State(phase: Phase, offer: Offer, nextOffset: U32, lastProgress: U32,
                         hashed: seq<Byte>, calls: seq<Call>)

  datatype OfferAnswer = GotOffer(offer: Offer) | OfferErr | OfferMalformed
  datatype ChunkAnswer = GotChunk(chunk: Chunk) | ChunkErr | ChunkMalformed
  datatype StoreAnswer = StoreOk | StoreErr(e: int)

  datatype Answer = Answer(offer: OfferAnswer, chunk: ChunkAnswer, store: StoreAnswer, sendOk: bool)

  const NO_OFFER := Offer(0, 0, 0, [], UnknownAlgo, [])

  function Init(): State { State(AwaitingOffer, NO_OFFER, 0, 0, [], []) }

  /** Chunk-size negotiation; zero means "no limit" on either side. */
  function Negotiate(receiverMax: U32, senderMax: U32): U32 {
    if receiverMax == 0 then senderMax
    else if senderMax == 0 then receiverMax
    else Min(receiverMax, senderMax)
  }

  /** `validate_sha256_file_hash`: the error, if any. */
  function HashError(hash: seq<Byte>): Option<AckError> {
    if |hash| == 0 then Some(HashMissing)
    else if |hash| != SHA256_HASH_LEN then Some(HashInvalidLength)
    else None
  }

  /** The checks on an offer, in the source's order. */
  function RejectReason(p: Params, o: Offer): Option<AckError> {
    if o.algo != Sha256 then Some(HashAlgoUnsupported)
    else if HashError(o.hash).Some? then HashError(o.hash)
    else if Negotiate(p.maxChunkSize, o.senderMaxChunk) == 0 then Some(ChunkSizeTooSmall)
    else None
  }

  function Negotiated(p: Params, s: State): U32 { Negotiate(p.maxChunkSize, s.offer.senderMaxChunk) }

  function ResultOf(p: Params, s: State, received: U32): RecvFileResult {
    RecvFileResult(s.offer.transferId, s.offer.totalLen, received, s.offer.senderMaxChunk,
                   Negotiated(p, s), s.offer.metadata, s.offer.hash)
  }

  function Stop(s: State, calls: seq<Call>, e: RecvError): State {
    s.(phase := Done(Failed(e)), calls := s.calls + calls)
  }

  /** Abort the store write, then tell the sender why; whether the ack gets out makes no difference. */
  function AbortWith(s: State, next: U32, e: AckError, err: RecvError): State {
    Stop(s, [AbortWrite, SendAck(AbortAck(s.offer.transferId, next, e))], err)
  }

  function StepOffer(p: Params, s: State, a: OfferAnswer): State {
    match a
    case OfferErr => Stop(s, [], ProtocolError)
    case OfferMalformed => Stop(s, [], CapnpError)
    case GotOffer(o) =>
      var t := s.(offer := o);
      var r := RejectReason(p, o);
      if r.Some? then Stop(t, [SendAck(RejectAck(o.transferId, r.value))], ProtocolError)
      else t.(phase := Beginning)
  }

  function StepBegin(s: State, a: StoreAnswer): State {
    var call := Begin(s.offer.transferId, s.offer.totalLen, a.StoreOk?);
    if a.StoreErr? then Stop(s, [call], StoreError(a.e))
    else s.(phase := Accepting, calls := s.calls + [call])
  }

  function StepAccept(p: Params, s: State, sendOk: bool): State {
    var t := s.(calls := s.calls + [SendAck(AcceptAck(s.offer.transferId, Negotiated(p, s)))]);
    if !sendOk then Stop(t, [AbortWrite], ProtocolError)
    else if s.offer.totalLen > 0 then t.(phase := AwaitingChunk)
    else if p.digest([]) != s.offer.hash then AbortWith(t, 0, HashMismatch, ProtocolError)
    else t.(phase := CommittingEmpty)
  }

  function StepCommitEmpty(p: Params, s: State, a: StoreAnswer): State {
    if a.StoreErr? then Stop(s, [Commit(false)], StoreError(a.e))
    else s.(phase := Done(Received(ResultOf(p, s, 0))), calls := s.calls + [Commit(true)])
  }

  /** `data.len() as u32`. */
  function Len32(data: seq<Byte>): U32 { |data| % U32_LIMIT }

  /** What an arrived chunk leads to. Chunks of other transfers are skipped by the wait itself. */
  function StepChunk(p: Params, s: State, a: ChunkAnswer): State {
    match a
    case ChunkErr => Stop(s, [AbortWrite], ProtocolError)
    case ChunkMalformed => AbortWith(s, s.nextOffset, InvalidRequest, CapnpError)
    case GotChunk(c) =>
      if c.transferId != s.offer.transferId then s
      else if Len32(c.data) > Negotiated(p, s) then AbortWith(s, s.nextOffset, ChunkSizeTooLarge, ProtocolError)
      else if c.offset != s.nextOffset then s.(phase := Reporting)
      else
        var n := Min(Len32(c.data), s.offer.totalLen - s.nextOffset);
        if n <= 0 then s else s.(phase := Writing(c.data[..n]))
  }

  function StepWrite(p: Params, s: State, data: seq<Byte>, a: StoreAnswer): State
    requires s.nextOffset + |data| < U32_LIMIT
  {
    if a.StoreErr? then Stop(s, [WriteAt(s.nextOffset, data, false), AbortWrite], StoreError(a.e))
    else
      var t := s.(calls := s.calls + [WriteAt(s.nextOffset, data, true)],
                  hashed := s.hashed + data, nextOffset := s.nextOffset + |data|);
      if t.nextOffset >= s.offer.totalLen then
        if p.digest(t.hashed) != s.offer.hash then AbortWith(t, s.offer.totalLen, HashMismatch, ProtocolError)
        else t.(phase := Committing)
      else if t.nextOffset - s.lastProgress >= Negotiated(p, s) then t.(phase := Reporting)
      else t.(phase := AwaitingChunk)
  }

  function StepReport(s: State, sendOk: bool): State {
    var t := s.(calls := s.calls + [SendAck(ProgressAck(s.offer.transferId, s.nextOffset))]);
    if !sendOk then Stop(t, [AbortWrite], ProtocolError)
    else t.(phase := AwaitingChunk, lastProgress := s.nextOffset)
  }

  function StepCommit(s: State, a: StoreAnswer): State {
    if a.StoreErr? then Stop(s, [Commit(false)], StoreError(a.e))
    else s.(phase := Completing, calls := s.calls + [Commit(true)])
  }

  function StepComplete(p: Params, s: State, sendOk: bool): State {
    var t := s.(calls := s.calls + [SendAck(CompleteAck(s.offer.transferId, s.offer.totalLen))]);
    if !sendOk then Stop(t, [], ProtocolError)
    else t.(phase := Done(Received(ResultOf(p, s, s.offer.totalLen))))
  }

  /** The arithmetic facts that the subtractions and casts rely on. */
  predicate Valid(s: State) {
    && (s.phase.AwaitingOffer? || s.phase.Beginning? || s.phase.Accepting? || s.phase.CommittingEmpty? ==>
          s.nextOffset == s.lastProgress == 0 && s.hashed == [])
    && (s.phase.AwaitingChunk? || s.phase.Reporting? ==> s.nextOffset < s.offer.totalLen)
    && (s.phase.Writing? ==> 0 < |s.phase.data| && s.nextOffset + |s.phase.data| <= s.offer.totalLen)
  }

  /** One await point of the receiver. */
  function Step(p: Params, s: State, a: Answer): (t: State)
    requires Valid(s)
    ensures Valid(t)
    ensures s.calls <= t.calls
  {
    match s.phase
    case Done(_) => s
    case AwaitingOffer => StepOffer(p, s, a.offer)
    case Beginning => StepBegin(s, a.store)
    case Accepting => StepAccept(p, s, a.sendOk)
    case CommittingEmpty => StepCommitEmpty(p, s, a.store)
    case AwaitingChunk => StepChunk(p, s, a.chunk)
    case Writing(data) => StepWrite(p, s, data, a.store)
    case Reporting => StepReport(s, a.sendOk)
    case Committing => StepCommit(s, a.store)
    case Completing => StepComplete(p, s, a.sendOk)
  }

  /** Consume the answers from index `i` on. */
  function RunFrom(p: Params, s: State, answers: seq<Answer>, i: nat): (t: State)
    requires Valid(s) && i <= |answers|
    ensures Valid(t)
    decreases |answers| - i
  {
    if i == |answers| then s else RunFrom(p, Step(p, s, answers[i]), answers, i + 1)
  }

  /** The state a receiver reaches on a whole sequence of answers. */
  function Run(p: Params, answers: seq<Answer>): (t: State)
    ensures Valid(t)
  {
    RunFrom(p, Init(), answers, 0)
  }

  function OutcomeOf(s: State): Option<Outcome> {
    if s.phase.Done? then Some(s.phase.outcome) else None
  }

  lemma {:induction false} DoneIsFinal(p: Params, s: State, answers: seq<Answer>, i: nat)
    requires Valid(s) && s.phase.Done? && i <= |answers|
    ensures RunFrom(p, s, answers, i) == s
    decreases |answers| - i
  {
    if i < |answers| {
      DoneIsFinal(p, s, answers, i + 1);
    }
  }

  lemma {:induction false} RunFromAppend(p: Params, s: State, answers: seq<Answer>, a: Answer, i: nat)
    requires Valid(s) && i <= |answers|
    ensures RunFrom(p, s, answers + [a], i) == Step(p, RunFrom(p, s, answers, i), a)
    decreases |answers| - i
  {
    if i < |answers| {
      RunFromAppend(p, Step(p, s, answers[i]), answers, a, i + 1);
    } else {
      assert RunFrom(p, Step(p, s, a), answers + [a], i + 1) == Step(p, s, a);
    }
  }

  lemma RunAppend(p: Params, answers: seq<Answer>, a: Answer)
    ensures Run(p, answers + [a]) == Step(p, Run(p, answers), a)
  {
    RunFromAppend(p, Init(), answers, a, 0);
  }

  // ---------- The source's loop, proved to run the machine ----------

  /** `wait_for_transfer_chunk`: chunks of other transfers are discarded. `None` when answers run out. */
  method WaitForTransferChunk(p: Params, ghost s: State, id: U32, answers: seq<Answer>, start: nat)
    returns (res: Option<ChunkAnswer>, i: nat)
    requires Valid(s) && s.phase.AwaitingChunk? && s.offer.transferId == id && start <= |answers|
    ensures start <= i <= |answers|
    ensures res.None? ==> RunFrom(p, s, answers, start) == s
    ensures res.Some? ==>
      && start < i && res.value == answers[i - 1].chunk
      && (res.value.GotChunk? ==> res.value.chunk.transferId == id)
      && RunFrom(p, s, answers, start) == RunFrom(p, StepChunk(p, s, res.value), answers, i)
  {
    i := start;
    while i < |answers|
      invariant start <= i <= |answers|
      invariant RunFrom(p, s, answers, start) == RunFrom(p, s, answers, i)
    {
      var a := answers[i].chunk;
      i := i + 1;
      if !a.GotChunk? || a.chunk.transferId == id {
        return Some(a), i;
      }
    }
    return None, i;
  }

  /** Take the next answer, or notice that there is none. */
  method Await(p: Params, ghost s: State, answers: seq<Answer>, start: nat) returns (a: Option<Answer>, i: nat)
    requires Valid(s) && start <= |answers|
    ensures a.None? ==> RunFrom(p, s, answers, start) == s
    ensures a.Some? ==>
      && i == start + 1 <= |answers| && a.value == answers[start]
      && RunFrom(p, s, answers, start) == RunFrom(p, Step(p, s, a.value), answers, i)
  {
    if start == |answers| {
      return None, start;
    }
    return Some(answers[start]), start + 1;
  }

  /** The receive loop with its local variables, from the first wait for a chunk on. */
  method ChunkLoop(
      p: Params, ghost s0: State, o: Offer, negotiated: U32, answers: seq<Answer>, start: nat, calls0: seq<Call>)
    returns (out: Option<Outcome>, calls: seq<Call>)
    requires start <= |answers| && o.totalLen > 0 && negotiated == Negotiate(p.maxChunkSize, o.senderMaxChunk)
    requires s0 == State(AwaitingChunk, o, 0, 0, [], calls0)
    ensures var fin := RunFrom(p, s0, answers, start); out == OutcomeOf(fin) && calls == fin.calls
  {
    var i := start;
    var nextOffset: U32, lastProgress: U32 := 0, 0;
    var hashed := [];
    ghost var s := s0;
    out, calls := None, calls0;
    while nextOffset < o.totalLen
      invariant start <= i <= |answers| && nextOffset < o.totalLen
      invariant s == State(AwaitingChunk, o, nextOffset, lastProgress, hashed, calls)
      invariant RunFrom(p, s0, answers, start) == RunFrom(p, s, answers, i)
      decreases |answers| - i
    {
      var w;
      w, i := WaitForTransferChunk(p, s, o.transferId, answers, i);
      if w.None? {
        return None, calls;
      }
      s := StepChunk(p, s, w.value);
      if w.value.ChunkErr? {
        DoneIsFinal(p, s, answers, i);
        return Some(Failed(ProtocolError)), calls + [AbortWrite];
      } else if w.value.ChunkMalformed? {
        DoneIsFinal(p, s, answers, i);
        return Some(Failed(CapnpError)),
          calls + [AbortWrite, SendAck(AbortAck(o.transferId, nextOffset, InvalidRequest))];
      }
      var c := w.value.chunk;
      if Len32(c.data) > negotiated {
        DoneIsFinal(p, s, answers, i);
        return Some(Failed(ProtocolError)),
          calls + [AbortWrite, SendAck(AbortAck(o.transferId, nextOffset, ChunkSizeTooLarge))];
      }
      var report := c.offset != nextOffset;
      if !report {
        var n := Min(Len32(c.data), o.totalLen - nextOffset);
        if n == 0 {
          continue;
        }
        var more;
        more, report, out, i, calls, hashed, nextOffset :=
          WriteChunk(p, s, o, negotiated, c.data[..n], answers, i, calls, hashed, nextOffset, lastProgress);
        if !more {
          return;
        }
        s := State(if report then Reporting else AwaitingChunk, o, nextOffset, lastProgress, hashed, calls);
      }
      if report {
        var ok;
        ok, out, i, calls := SendProgress(p, s, answers, i, calls, o.transferId, nextOffset);
        if !ok {
          return;
        }
        lastProgress := nextOffset;
        s := State(AwaitingChunk, o, nextOffset, lastProgress, hashed, calls);
      }
    }
    assert false;  // the error after the loop cannot be reached
  }

  /** Write one chunk and feed the hasher. With `more` the loop goes on, after a progress ack if `report`. */
  method WriteChunk(
      p: Params, ghost s0: State, o: Offer, negotiated: U32, data: seq<Byte>, answers: seq<Answer>, start: nat,
      calls0: seq<Call>, hashed0: seq<Byte>, next0: U32, lastProgress: U32)
      returns (more: bool, report: bool, out: Option<Outcome>, i: nat, calls: seq<Call>, hashed: seq<Byte>,
               nextOffset: U32)
    requires Valid(s0) && start <= |answers| && negotiated == Negotiate(p.maxChunkSize, o.senderMaxChunk)
    requires s0 == State(Writing(data), o, next0, lastProgress, hashed0, calls0)
    ensures !more ==> var fin := RunFrom(p, s0, answers, start); out == OutcomeOf(fin) && calls == fin.calls
    ensures more ==>
      && start <= i <= |answers| && nextOffset < o.totalLen && out == None
      && RunFrom(p, s0, answers, start) ==
           RunFrom(
             p, State(if report then Reporting else AwaitingChunk, o, nextOffset, lastProgress, hashed, calls),
             answers, i)
  {
    more, report, out, calls, hashed, nextOffset := false, false, None, calls0, hashed0, next0;
    var a;
    a, i := Await(p, s0, answers, start);
    if a.None? {
      return;
    }
    ghost var s := Step(p, s0, a.value);
    if a.value.store.StoreErr? {
      DoneIsFinal(p, s, answers, i);
      out, calls := Some(Failed(StoreError(a.value.store.e))), calls + [WriteAt(nextOffset, data, false), AbortWrite];
      return;
    }
    calls := calls + [WriteAt(nextOffset, data, true)];
    hashed := hashed + data;
    nextOffset := nextOffset + |data|;
    if nextOffset >= o.totalLen {
      out, calls := Finish(p, s, o, negotiated, hashed, answers, i, calls);
      return;
    }
    more, report := true, nextOffset - lastProgress >= negotiated;
  }

  /** Send a progress ack; if that fails, abort the write and stop. */
  method SendProgress(
      p: Params, ghost s: State, answers: seq<Answer>, start: nat, calls0: seq<Call>, id: U32, next: U32)
    returns (ok: bool, out: Option<Outcome>, i: nat, calls: seq<Call>)
    requires Valid(s) && s.phase.Reporting? && start <= |answers|
    requires s.offer.transferId == id && s.nextOffset == next && s.calls == calls0
    ensures !ok ==> var fin := RunFrom(p, s, answers, start); out == OutcomeOf(fin) && calls == fin.calls
    ensures ok ==>
      && start <= i <= |answers|
      && RunFrom(p, s, answers, start) ==
           RunFrom(p, s.(phase := AwaitingChunk, lastProgress := next, calls := calls), answers, i)
  {
    var a;
    a, i := Await(p, s, answers, start);
    if a.None? {
      return false, None, start, calls0;
    }
    calls := calls0 + [SendAck(ProgressAck(id, next))];
    if !a.value.sendOk {
      DoneIsFinal(p, Step(p, s, a.value), answers, i);
      return false, Some(Failed(ProtocolError)), i, calls + [AbortWrite];
    }
    return true, None, i, calls;
  }

  /** The end of the loop body once every byte is written: compare digests, commit, report completion. */
  method Finish(
      p: Params, ghost s0: State, o: Offer, negotiated: U32, hashed: seq<Byte>, answers: seq<Answer>, start: nat,
      calls0: seq<Call>)
    returns (out: Option<Outcome>, calls: seq<Call>)
    requires Valid(s0) && start <= |answers| && negotiated == Negotiated(p, s0)
    requires s0.offer == o && s0.hashed == hashed
    requires if p.digest(hashed) != o.hash
             then s0.phase == Done(Failed(ProtocolError))
               && s0.calls == calls0 + [AbortWrite, SendAck(AbortAck(o.transferId, o.totalLen, HashMismatch))]
             else s0.phase == Committing && s0.calls == calls0
    ensures var fin := RunFrom(p, s0, answers, start); out == OutcomeOf(fin) && calls == fin.calls
  {
    if p.digest(hashed) != o.hash {
      DoneIsFinal(p, s0, answers, start);
      return Some(Failed(ProtocolError)),
        calls0 + [AbortWrite, SendAck(AbortAck(o.transferId, o.totalLen, HashMismatch))];
    }
    var a, i := Await(p, s0, answers, start);
    if a.None? {
      return None, calls0;
    }
    ghost var s := Step(p, s0, a.value);
    if a.value.store.StoreErr? {
      DoneIsFinal(p, s, answers, i);
      return Some(Failed(StoreError(a.value.store.e))), calls0 + [Commit(false)];
    }
    calls := calls0 + [Commit(true)];
    a, i := Await(p, s, answers, i);
    if a.None? {
      return None, calls;
    }
    s := Step(p, s, a.value);
    DoneIsFinal(p, s, answers, i);
    calls := calls + [SendAck(CompleteAck(o.transferId, o.totalLen))];
    if !a.value.sendOk {
      return Some(Failed(ProtocolError)), calls;
    }
    out := Some(Received(RecvFileResult(
      o.transferId, o.totalLen, o.totalLen, o.senderMaxChunk, negotiated, o.metadata, o.hash)));
  }

  /** The part for an empty file: no chunk follows, only the digest test and the commit. */
  method FinishEmpty(
      p: Params, ghost s0: State, o: Offer, negotiated: U32, answers: seq<Answer>, start: nat, calls0: seq<Call>)
    returns (out: Option<Outcome>, calls: seq<Call>)
    requires Valid(s0) && start <= |answers| && negotiated == Negotiated(p, s0) && s0.offer == o && o.totalLen == 0
    requires if p.digest([]) != o.hash
             then s0.phase == Done(Failed(ProtocolError))
               && s0.calls == calls0 + [AbortWrite, SendAck(AbortAck(o.transferId, 0, HashMismatch))]
             else s0.phase == CommittingEmpty && s0.calls == calls0
    ensures var fin := RunFrom(p, s0, answers, start); out == OutcomeOf(fin) && calls == fin.calls
  {
    if p.digest([]) != o.hash {
      DoneIsFinal(p, s0, answers, start);
      return Some(Failed(ProtocolError)), calls0 + [AbortWrite, SendAck(AbortAck(o.transferId, 0, HashMismatch))];
    }
    var a, i := Await(p, s0, answers, start);
    if a.None? {
      return None, calls0;
    }
    DoneIsFinal(p, Step(p, s0, a.value), answers, i);
    if a.value.store.StoreErr? {
      return Some(Failed(StoreError(a.value.store.e))), calls0 + [Commit(false)];
    }
    out := Some(Received(RecvFileResult(
      o.transferId, o.totalLen, 0, o.senderMaxChunk, negotiated, o.metadata, o.hash)));
    return out, calls0 + [Commit(true)];
  }

  /** From `begin_write` on. */
  method Transfer(p: Params, ghost s0: State, o: Offer, negotiated: U32, answers: seq<Answer>, start: nat)
    returns (out: Option<Outcome>, calls: seq<Call>)
    requires start <= |answers| && s0 == State(Beginning, o, 0, 0, [], []) && negotiated == Negotiated(p, s0)
    ensures var fin := RunFrom(p, s0, answers, start); out == OutcomeOf(fin) && calls == fin.calls
  {
    var a, i := Await(p, s0, answers, start);
    if a.None? {
      return None, [];
    }
    ghost var s := Step(p, s0, a.value);
    if a.value.store.StoreErr? {
      DoneIsFinal(p, s, answers, i);
      return Some(Failed(StoreError(a.value.store.e))), [Begin(o.transferId, o.totalLen, false)];
    }
    calls := [Begin(o.transferId, o.totalLen, true)];
    out, calls := SendAccept(p, s, o, negotiated, answers, i, calls);
  }

  /** From the accept on. */
  method SendAccept(
      p: Params, ghost s0: State, o: Offer, negotiated: U32, answers: seq<Answer>, start: nat, calls0: seq<Call>)
    returns (out: Option<Outcome>, calls: seq<Call>)
    requires start <= |answers| && s0 == State(Accepting, o, 0, 0, [], calls0) && negotiated == Negotiated(p, s0)
    ensures var fin := RunFrom(p, s0, answers, start); out == OutcomeOf(fin) && calls == fin.calls
  {
    var a, i := Await(p, s0, answers, start);
    if a.None? {
      return None, calls0;
    }
    ghost var s := Step(p, s0, a.value);
    calls := calls0 + [SendAck(AcceptAck(o.transferId, negotiated))];
    if !a.value.sendOk {
      DoneIsFinal(p, s, answers, i);
      return Some(Failed(ProtocolError)), calls + [AbortWrite];
    }
    if o.totalLen == 0 {
      out, calls := FinishEmpty(p, s, o, negotiated, answers, i, calls);
    } else {
      out, calls := ChunkLoop(p, s, o, negotiated, answers, i, calls);
    }
  }

  /** `recv_file_impl`: outcome and outside calls are those of the state machine, for every environment. */
  method RecvFileImpl(p: Params, answers: seq<Answer>) returns (out: Option<Outcome>, calls: seq<Call>)
    ensures out == OutcomeOf(Run(p, answers))
    ensures calls == Run(p, answers).calls
  {
    var a, i := Await(p, Init(), answers, 0);
    if a.None? {
      return None, [];
    }
    ghost var s := Step(p, Init(), a.value);
    if !a.value.offer.GotOffer? {
      DoneIsFinal(p, s, answers, i);
      return Some(Failed(if a.value.offer.OfferErr? then ProtocolError else CapnpError)), [];
    }
    var o := a.value.offer.offer;
    var reason := RejectReason(p, o);
    if reason.Some? {
      DoneIsFinal(p, s, answers, i);
      return Some(Failed(ProtocolError)), [SendAck(RejectAck(o.transferId, reason.value))];
    }
    out, calls := Transfer(p, s, o, Negotiate(p.maxChunkSize, o.senderMaxChunk), answers, i);
  }
}
