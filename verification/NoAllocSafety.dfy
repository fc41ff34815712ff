/** The allocation-free receiver keeps the same discipline as the other one: its store calls and acks are accepted by
    the same monitor, whatever arrives and whatever its capacities are. */
module NoAllocSafety {
  import opened Basics
  import opened TransferTypes
  import opened Receiver
  import opened ReceiverSafety
  import opened NoAllocReceiver

  lemma OfferKeepsBounded(p: Params, k: Capacity, s: State, a: OfferAnswer)
    requires Inv(p, s) && s.phase.AwaitingOffer?
    ensures Inv(p, StepOfferBounded(p, k, s, a))
  {
    if a.GotOffer? && RejectReasonBounded(p, k, a.offer).Some? {
      var c := SendAck(RejectAck(a.offer.transferId, RejectReasonBounded(p, k, a.offer).value));
      Watch1(p, a.offer, Idle, c);
      assert s.calls + [c] == [c];
    } else {
      assert s.calls + [] == [];
    }
  }

  /** A chunk beyond the buffer is turned away as one beyond the agreed size is. */
  lemma OverflowKeeps(p: Params, s: State)
    requires Inv(p, s) && s.phase.AwaitingChunk?
    ensures Inv(p, AbortWith(s, s.nextOffset, ChunkSizeTooLarge, ProtocolError))
  {
    var m := Watch(p, s.offer, s.calls);
    var notice := SendAck(AbortAck(s.offer.transferId, s.nextOffset, ChunkSizeTooLarge));
    Watch2(p, s.offer, m, AbortWrite, notice);
    WatchConcat(p, s.offer, Idle, s.calls, [AbortWrite, notice]);
  }

  lemma BufferedFront(p: Params, k: Capacity, s: State, c: Chunk)
    requires Valid(s) && s.phase.AwaitingChunk? && |c.data| < U32_LIMIT && |c.data| <= k.chunk
    ensures StepChunkBounded(p, k, s, GotChunk(c)) == StepChunk(p, s, GotChunk(c))
  {
    var n := Min(|c.data|, s.offer.totalLen - s.nextOffset);
    assert Buffered(c.data, k.chunk)[..n] == c.data[..n];
  }

  lemma StepKeepsBounded(p: Params, k: Capacity, s: State, a: Answer)
    requires Inv(p, s) && (a.chunk.GotChunk? ==> |a.chunk.chunk.data| < U32_LIMIT)
    ensures Inv(p, StepBounded(p, k, s, a))
  {
    if s.phase.AwaitingOffer? {
      OfferKeepsBounded(p, k, s, a.offer);
    } else if s.phase.AwaitingChunk? && a.chunk.GotChunk? && |a.chunk.chunk.data| > k.chunk {
      OverflowKeeps(p, s);
    } else {
      if s.phase.AwaitingChunk? && a.chunk.GotChunk? {
        BufferedFront(p, k, s, a.chunk.chunk);
      }
      StepKeepsInv(p, s, a);
    }
  }

  lemma {:induction false} RunKeepsBounded(p: Params, k: Capacity, s: State, answers: seq<Answer>, i: nat)
    requires Inv(p, s) && i <= |answers| && Sized(answers)
    ensures Inv(p, RunBoundedFrom(p, k, s, answers, i))
    decreases |answers| - i
  {
    if i < |answers| {
      StepKeepsBounded(p, k, s, answers[i]);
      RunKeepsBounded(p, k, StepBounded(p, k, s, answers[i]), answers, i + 1);
    }
  }

  /** The log obeys the discipline, each write that was opened is closed exactly once by the end, and success means a
      committed image of the offered length and digest. */
  lemma BoundedDiscipline(p: Params, k: Capacity, answers: seq<Answer>)
    requires Sized(answers)
    ensures var s := RunBounded(p, k, answers);
      var m := Watch(p, s.offer, s.calls);
      && !m.Bad?
      && CountCloses(s.calls) <= CountOpens(s.calls) <= 1
      && (s.phase.Done? ==> CountCloses(s.calls) == CountOpens(s.calls))
      && (s.phase.Done? && s.phase.outcome.Received? ==>
            && m.Committed? && |m.image| == s.offer.totalLen && p.digest(m.image) == s.offer.hash
            && (m.announced <==> s.offer.totalLen > 0))
  {
    RunKeepsBounded(p, k, Init(), answers, 0);
    var s := RunBounded(p, k, answers);
    CountsFollowVerdict(p, s.offer, Idle, s.calls);
  }

  /** An accept names the agreed chunk size; no write is longer than either limit. */
  lemma BoundedSizes(p: Params, k: Capacity, answers: seq<Answer>, i: nat)
    requires Sized(answers) && i < |RunBounded(p, k, answers).calls|
    ensures var s := RunBounded(p, k, answers);
      match s.calls[i]
      case WriteAt(_, data, _) => Within(|data|, p.maxChunkSize) && Within(|data|, s.offer.senderMaxChunk)
      case SendAck(a) =>
        a.kind == Accept ==> a == AcceptAck(s.offer.transferId, a.chunkSize) && Agreed(p, s.offer, a.chunkSize)
      case _ => true
  {
    RunKeepsBounded(p, k, Init(), answers, 0);
    var s := RunBounded(p, k, answers);
    SizesInLog(p, s.offer, s.calls, i);
  }
}
