/** When and how the receivers give up: which offers they refuse and why, and for every wait which answers end the
    transfer, with which error, and what the store and the sender are told. */
module ReceiverFailures {
  import opened Basics
  import opened TransferTypes
  import opened Receiver
  import opened ReceiverSafety
  import opened NoAllocReceiver

  // ---------- Offers ----------

  /** An offer that has no agreed chunk size. */
  predicate NoSize(p: Params, o: Offer) { p.maxChunkSize == 0 && o.senderMaxChunk == 0 }

  /** Why an offer is refused, by the first thing that is wrong with it. */
  predicate RefusedFor(p: Params, o: Offer, e: AckError) {
    if o.algo != Sha256 then e == HashAlgoUnsupported
    else if |o.hash| == 0 then e == HashMissing
    else if |o.hash| != 32 then e == HashInvalidLength
    else NoSize(p, o) && e == ChunkSizeTooSmall
  }

  predicate Refused(p: Params, o: Offer) { o.algo != Sha256 || |o.hash| != 32 || NoSize(p, o) }

  lemma ReasonIff(p: Params, o: Offer)
    ensures RejectReason(p, o).Some? <==> Refused(p, o)
    ensures Refused(p, o) ==> RefusedFor(p, o, RejectReason(p, o).value)
  {
    NegotiatedIsAgreed(p, o);
  }

  /** The offer is refused exactly for these reasons, with a reject that names the reason, and before any store call. */
  lemma RefusesIff(p: Params, o: Offer, a: Answer)
    requires a.offer == GotOffer(o)
    ensures var s := Run(p, [a]);
      && (s.phase.Done? <==> Refused(p, o))
      && (Refused(p, o) ==>
            && s.phase == Done(Failed(ProtocolError)) && |s.calls| == 1 && s.calls[0].SendAck?
            && RefusedFor(p, o, s.calls[0].ack.error)
            && s.calls[0].ack == Ack(o.transferId, Reject, 0, 0, s.calls[0].ack.error))
      && (!Refused(p, o) ==> s.phase == Beginning && s.calls == [])
  {
    ReasonIff(p, o);
    RunAppend(p, [], a);
    assert [] + [a] == [a];
  }

  /** The allocation-free receiver also refuses metadata and hashes beyond its capacities, and looks at those first. */
  lemma BoundedRefusesIff(p: Params, k: Capacity, o: Offer, a: Answer)
    requires a.offer == GotOffer(o)
    ensures var s := RunBounded(p, k, [a]);
      && (s.phase.Done? <==> |o.metadata| > k.metadata || Refused(p, o))
      && (s.phase.Done? ==>
            && s.phase == Done(Failed(ProtocolError)) && |s.calls| == 1 && s.calls[0].SendAck?
            && var e := s.calls[0].ack.error;
            && s.calls[0].ack == Ack(o.transferId, Reject, 0, 0, e)
            && if |o.metadata| > k.metadata then e == InvalidRequest
               else if |o.hash| > 32 then e == HashInvalidLength
               else RefusedFor(p, o, e))
      && (!s.phase.Done? ==> s.phase == Beginning && s.calls == [])
  {
    ReasonIff(p, o);
    BoundedAppend(p, k, [], a);
    assert [] + [a] == [a];
  }

  // ---------- Every wait ----------

  datatype Failure = Failure(error: RecvError, calls: seq<Call>)

  function Notice(s: State, next: U32, e: AckError): Call { SendAck(Ack(s.offer.transferId, Abort, next, 0, e)) }

  /** A chunk of this transfer longer than the agreed size, by its length as 32 bits. */
  predicate TooLong(p: Params, o: Offer, c: Chunk) {
    && c.transferId == o.transferId
    && (!Within(|c.data| % U32_LIMIT, p.maxChunkSize) || !Within(|c.data| % U32_LIMIT, o.senderMaxChunk))
  }

  /** The failure that an answer means for a transfer that has accepted its offer. */
  function FailureAt(p: Params, s: State, a: Answer): Option<Failure> {
    match s.phase
    case Beginning =>
      if a.store.StoreErr?
      then Some(Failure(StoreError(a.store.e), [Begin(s.offer.transferId, s.offer.totalLen, false)])) else None
    case Accepting =>
      var accept := SendAck(AcceptAck(s.offer.transferId, Negotiate(p.maxChunkSize, s.offer.senderMaxChunk)));
      if !a.sendOk then Some(Failure(ProtocolError, [accept, AbortWrite]))
      else if s.offer.totalLen == 0 && p.digest([]) != s.offer.hash
      then Some(Failure(ProtocolError, [accept, AbortWrite, Notice(s, 0, HashMismatch)])) else None
    case AwaitingChunk =>
      (match a.chunk
       case ChunkErr => Some(Failure(ProtocolError, [AbortWrite]))
       case ChunkMalformed => Some(Failure(CapnpError, [AbortWrite, Notice(s, s.nextOffset, InvalidRequest)]))
       case GotChunk(c) =>
         if TooLong(p, s.offer, c)
         then Some(Failure(ProtocolError, [AbortWrite, Notice(s, s.nextOffset, ChunkSizeTooLarge)])) else None)
    case Writing(data) =>
      if a.store.StoreErr?
      then Some(Failure(StoreError(a.store.e), [WriteAt(s.nextOffset, data, false), AbortWrite]))
      else if s.nextOffset + |data| >= s.offer.totalLen && p.digest(s.hashed + data) != s.offer.hash
      then Some(Failure(ProtocolError,
        [WriteAt(s.nextOffset, data, true), AbortWrite, Notice(s, s.offer.totalLen, HashMismatch)])) else None
    case Reporting =>
      var progress := SendAck(Ack(s.offer.transferId, Progress, s.nextOffset, 0, NoError));
      if a.sendOk then None else Some(Failure(ProtocolError, [progress, AbortWrite]))
    case Completing =>
      var complete := SendAck(Ack(s.offer.transferId, Complete, s.offer.totalLen, 0, NoError));
      if a.sendOk then None else Some(Failure(ProtocolError, [complete]))
    case _ => if a.store.StoreErr? then Some(Failure(StoreError(a.store.e), [Commit(false)])) else None
  }

  /** Past its offer, the receiver fails exactly at these answers: with the store's error if the store failed, and
      telling the store and the sender exactly this; nothing is done after that. */
  lemma FailsIff(p: Params, before: seq<Answer>, a: Answer, more: seq<Answer>)
    requires var s := Run(p, before); !s.phase.Done? && !s.phase.AwaitingOffer?
    ensures var s, t := Run(p, before), Run(p, before + [a]);
      var f := FailureAt(p, s, a);
      && (t.phase.Done? && t.phase.outcome.Failed? <==> f.Some?)
      && (f.Some? ==> t.phase.outcome == Failed(f.value.error) && t.calls == s.calls + f.value.calls)
      && (t.phase.Done? ==> Run(p, before + [a] + more) == t)
  {
    RunKeepsInv(p, Init(), before, 0);
    var s := Run(p, before);
    RunAppend(p, before, a);
    StepFailsIff(p, s, a);
    var t := Run(p, before + [a]);
    if t.phase.Done? {
      StaysDone(p, before + [a], more);
    }
  }

  lemma StepFailsIff(p: Params, s: State, a: Answer)
    requires Inv(p, s) && !s.phase.Done? && !s.phase.AwaitingOffer?
    ensures var t := Step(p, s, a);
      var f := FailureAt(p, s, a);
      && (t.phase.Done? && t.phase.outcome.Failed? <==> f.Some?)
      && (f.Some? ==> t.phase.outcome == Failed(f.value.error) && t.calls == s.calls + f.value.calls)
  {
    NegotiatedIsAgreed(p, s.offer);
  }

  lemma {:induction false} StaysDone(p: Params, answers: seq<Answer>, more: seq<Answer>)
    requires Run(p, answers).phase.Done?
    ensures Run(p, answers + more) == Run(p, answers)
    decreases |more|
  {
    if more != [] {
      var n := |more| - 1;
      StaysDone(p, answers, more[..n]);
      RunAppend(p, answers + more[..n], more[n]);
      assert answers + more == answers + more[..n] + [more[n]];
    } else {
      assert answers + more == answers;
    }
  }

  /** A wait for the offer that fails, or an offer that cannot be read, ends everything without a word. */
  lemma NoOffer(p: Params, a: Answer)
    requires !a.offer.GotOffer?
    ensures Run(p, [a]) == Init().(phase := Done(Failed(if a.offer.OfferErr? then ProtocolError else CapnpError)))
  {
    RunAppend(p, [], a);
    assert [] + [a] == [a];
  }
}
