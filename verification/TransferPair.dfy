/** One sender and one receiver of the same file, and the facts about the two ends that hold whatever
    the channels do, as long as messages carrying this transfer's id were really sent. */
module TransferPair {
  import opened Basics
  import opened TransferTypes
  import S = Sender
  import R = Receiver
  import M = ReceiverSafety

  /** One transfer: both ends use the same digest (SHA-256 in the source). */
  datatype Setup = Setup(id: U32, bytes: seq<Byte>, config: S.SendConfig, maxChunkSize: U32,
                         digest: seq<Byte> -> seq<Byte>) {
    function SP(): S.Params { S.Params(id, bytes, config, digest) }
    function RP(): R.Params { R.Params(maxChunkSize, digest) }

    /** The chunk size the two ends agree on. */
    function Size(): nat
      requires S.Runnable(SP())
    {
      R.Negotiate(maxChunkSize, config.senderMaxChunk)
    }
  }

  function Verdict(w: Setup, r: R.State): M.Monitor { M.Watch(w.RP(), r.offer, r.calls) }

  /** The receiver took up this transfer's offer. */
  predicate Ours(w: Setup, r: R.State) {
    (r.phase.Beginning? || r.calls != []) && r.offer.transferId == w.id
  }

  predicate Started(m: M.Monitor) { m.Open? || M.Closed(m) }

  predicate PastAccept(s: S.State) {
    s.phase.Streaming? || (s.phase.Done? && s.phase.outcome.Sent?)
  }

  predicate Succeeded(s: S.State) { s.phase.Done? && s.phase.outcome.Sent? }

  /** The receiver's own part: whatever it has taken in is a prefix of the sender's file. */
  ghost predicate TrueContent(w: Setup, r: R.State) {
    Ours(w, r) ==>
      && S.Runnable(w.SP()) && r.offer == S.TheOffer(w.SP())
      && r.hashed <= w.bytes
      && (r.phase.Writing? ==> r.hashed + r.phase.data <= w.bytes)
  }

  ghost predicate PairInv(w: Setup, s: S.State, r: R.State) {
    && S.Inv(w.SP(), s)
    && M.Inv(w.RP(), r)
    && TrueContent(w, r)
    && (PastAccept(s) ==> Ours(w, r) && Started(Verdict(w, r)) && s.chunkSize == R.Negotiated(w.RP(), r))
    && (Succeeded(s) && |w.bytes| > 0 ==> Verdict(w, r).Committed?)
  }

  /** The network delivers to the sender only acks that the receiver sent, or acks of other transfers. */
  predicate TrueAck(w: Setup, r: R.State, a: S.WaitAnswer) {
    a.GotAck? && a.ack.transferId == w.id ==> R.SendAck(a.ack) in r.calls
  }

  /** The network delivers to the receiver only messages that the sender sent, or those of other transfers. */
  predicate TrueMessage(w: Setup, s: S.State, b: R.Answer) {
    && (b.offer.GotOffer? && b.offer.offer.transferId == w.id ==> S.OfferMsg(b.offer.offer) in s.sent)
    && (b.chunk.GotChunk? && b.chunk.chunk.transferId == w.id ==> S.ChunkMsg(b.chunk.chunk) in s.sent)
  }

  /** What a true ack of each kind tells the sender. */
  lemma TrueAckMeaning(w: Setup, r: R.State, ack: Ack)
    requires M.Inv(w.RP(), r) && TrueContent(w, r) && R.SendAck(ack) in r.calls && ack.transferId == w.id
    ensures Ours(w, r)
    ensures ack.kind == Progress ==> ack.nextOffset < |w.bytes|
    ensures ack.kind == Complete ==> Verdict(w, r).Committed? && ack.nextOffset == |w.bytes|
    ensures ack.kind == Accept ==> Started(Verdict(w, r)) && ack.chunkSize == R.Negotiated(w.RP(), r)
  {
    var k :| 0 <= k < |r.calls| && r.calls[k] == R.SendAck(ack);
    M.AckMeaning(w.RP(), r.offer, M.Idle, r.calls, k);
  }

  lemma SenderStepKeeps(w: Setup, s: S.State, r: R.State, a: S.Answer)
    requires PairInv(w, s, r) && TrueAck(w, r, a.wait)
    ensures PairInv(w, S.Step(w.SP(), s, a), r)
  {
    S.StepKeepsInv(w.SP(), s, a);
    if a.wait.GotAck? && a.wait.ack.transferId == w.id {
      TrueAckMeaning(w, r, a.wait.ack);
    }
  }

  /** The monitor's verdict only moves forward. */
  lemma VerdictForward(w: Setup, r: R.State, b: R.Answer)
    requires M.Inv(w.RP(), r) && !r.phase.AwaitingOffer?
    ensures var t := R.Step(w.RP(), r, b);
      && t.offer == r.offer
      && (Started(Verdict(w, r)) ==> Started(Verdict(w, t)))
      && (Verdict(w, r).Committed? ==> Verdict(w, t).Committed?)
  {
    var t := R.Step(w.RP(), r, b);
    M.StepKeepsInv(w.RP(), r, b);
    var e := t.calls[|r.calls|..];
    assert t.calls == r.calls + e;
    M.WatchConcat(w.RP(), r.offer, M.Idle, r.calls, e);
    M.CountsFollowVerdict(w.RP(), r.offer, Verdict(w, r), e);
    if Verdict(w, r).Committed? {
      M.CommittedStays(w.RP(), r.offer, Verdict(w, r), e);
    }
  }

  lemma SliceExtends(bytes: seq<Byte>, hashed: seq<Byte>, data: seq<Byte>, end: nat, n: nat)
    requires hashed <= bytes && |hashed| <= end <= |bytes| && data == bytes[|hashed|..end] && n <= |data|
    ensures hashed + data[..n] <= bytes
  {
    assert hashed + data[..n] == bytes[..|hashed| + n];
  }

  /** A true chunk taken at the receiver's offset extends the prefix. */
  lemma ChunkKeepsContent(w: Setup, s: S.State, r: R.State, a: R.ChunkAnswer)
    requires S.GoodLog(w.SP(), s.chunkSize, s.sent) && TrueContent(w, r)
    requires r.phase.AwaitingChunk? && r.calls != [] && |r.hashed| == r.nextOffset
    requires a.GotChunk? && a.chunk.transferId == w.id ==> S.ChunkMsg(a.chunk) in s.sent
    ensures TrueContent(w, R.StepChunk(w.RP(), r, a))
  {
    var t := R.StepChunk(w.RP(), r, a);
    if t.phase.Writing? && Ours(w, r) {
      var c := a.chunk;
      var k :| 0 <= k < |s.sent| && s.sent[k] == S.ChunkMsg(c);
      assert S.GoodMsg(w.SP(), s.chunkSize, s.sent[k]);
      SliceExtends(w.bytes, r.hashed, c.data, Min(c.offset + s.chunkSize, |w.bytes|), |t.phase.data|);
    }
  }

  lemma ReceiverKeepsContent(w: Setup, s: S.State, r: R.State, b: R.Answer)
    requires S.Inv(w.SP(), s) && M.Inv(w.RP(), r) && TrueContent(w, r) && TrueMessage(w, s, b)
    ensures TrueContent(w, R.Step(w.RP(), r, b))
  {
    match r.phase
    case AwaitingOffer =>
      if b.offer.GotOffer? && b.offer.offer.transferId == w.id {
        var k :| 0 <= k < |s.sent| && s.sent[k] == S.OfferMsg(b.offer.offer);
        assert S.GoodMsg(w.SP(), s.chunkSize, s.sent[k]);
      }
    case AwaitingChunk => ChunkKeepsContent(w, s, r, b.chunk);
    case _ =>
  }

  lemma ReceiverStepKeeps(w: Setup, s: S.State, r: R.State, b: R.Answer)
    requires PairInv(w, s, r) && TrueMessage(w, s, b)
    ensures PairInv(w, s, R.Step(w.RP(), r, b))
  {
    M.StepKeepsInv(w.RP(), r, b);
    ReceiverKeepsContent(w, s, r, b);
    if !r.phase.AwaitingOffer? {
      VerdictForward(w, r, b);
    }
  }

  /** What a committed receiver of this transfer holds. */
  lemma CommittedBytes(w: Setup, r: R.State)
    requires M.Inv(w.RP(), r) && TrueContent(w, r) && Ours(w, r) && Verdict(w, r).Committed?
    ensures Verdict(w, r).image == w.bytes
  {
  }
}
