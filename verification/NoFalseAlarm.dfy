/** Proof that the honest pair over lossy FIFO channels raises no false alarm. */
module NoFalseAlarm {
  import opened Basics
  import opened TransferTypes
  import opened TransferPair
  import opened FifoPair
  import S = Sender
  import R = Receiver
  import M = ReceiverSafety

  // ---------- Initially ----------

  lemma InitInv(w: Setup)
    requires Honest(w)
    ensures LinkInv(w, Init(w))
  {
  }

  // ---------- Losing messages ----------

  lemma DropAt<T>(q: seq<T>, i: nat)
    requires i < |q|
    ensures forall k :: 0 <= k < |q| - 1 ==> Drop(q, i)[k] == q[if k >= i then k + 1 else k]
  {
  }

  lemma DropKeepsOrder(acks: seq<Ack>, i: nat)
    requires i < |acks| && AcksOrdered(acks)
    ensures AcksOrdered(Drop(acks, i))
  {
    var q := Drop(acks, i);
    DropAt(acks, i);
    forall j, k | 0 <= j < k < |q| && !q[j].kind.Accept? && !q[k].kind.Accept?
      ensures q[j].nextOffset <= q[k].nextOffset
    {
      var j', k' := if j >= i then j + 1 else j, if k >= i then k + 1 else k;
      assert q[j] == acks[j'] && q[k] == acks[k'] && j' < k';
    }
  }

  /** Losing a message keeps whatever holds of every message. */
  lemma LoseOfferKeeps(w: Setup, l: Link, i: nat)
    requires S.Runnable(w.SP()) && w.Size() > 0 && Net(w, l) && i < |l.offers|
    ensures Net(w, l.(offers := Drop(l.offers, i)))
  {
    DropAt(l.offers, i);
  }

  lemma LoseChunkKeeps(w: Setup, l: Link, i: nat)
    requires S.Runnable(w.SP()) && w.Size() > 0 && Net(w, l) && i < |l.chunks|
    ensures Net(w, l.(chunks := Drop(l.chunks, i)))
  {
    DropAt(l.chunks, i);
  }

  lemma LoseAckKeeps(w: Setup, l: Link, i: nat)
    requires S.Runnable(w.SP()) && w.Size() > 0 && Net(w, l) && i < |l.acks|
    ensures Net(w, l.(acks := Drop(l.acks, i)))
  {
    DropAt(l.acks, i);
    DropKeepsOrder(l.acks, i);
  }

  // ---------- The sender ----------

  /** At every wait for an ack the window is full: the sender has transmitted exactly up to its horizon
      or the end of the file. */
  lemma WindowFull(w: Setup, l: Link)
    requires SenderFit(w, l.s) && OnGrid(w, l.s.lastAcked) && OnGrid(w, l.s.nextToSend)
    requires l.s.phase.Streaming? && !S.CanSend(w.SP(), l.s)
    ensures l.s.nextToSend == Min(|w.bytes|, Horizon(w, l))
  {
    var c, n := w.Size(), l.s.nextToSend - l.s.lastAcked;
    if l.s.nextToSend < |w.bytes| {
      MultipleDifference(l.s.nextToSend, l.s.lastAcked, c);
      MultipleCeil(n, c);
      MulMonotone(w.config.windowChunks, DivCeil(n, c), c);
    }
  }

  lemma SendOfferKeepsQueues(w: Setup, l: Link, res: S.SendAnswer)
    requires S.Runnable(w.SP()) && w.Size() > 0 && S.Valid(w.SP(), l.s) && R.Valid(l.r)
    requires l.s.phase.Offering? && QueuesTrue(l) && QueuesGood(w, l)
    ensures QueuesTrue(Next(w, l, SenderSends(res))) && QueuesGood(w, Next(w, l, SenderSends(res)))
  {
    var t := Next(w, l, SenderSends(res));
    assert forall m :: m in l.s.sent ==> m in t.s.sent;
    assert t.s.sent[|l.s.sent|] == S.OfferMsg(S.TheOffer(w.SP()));
  }

  lemma SendChunkKeepsQueues(w: Setup, l: Link, res: S.SendAnswer)
    requires S.Runnable(w.SP()) && w.Size() > 0 && S.Valid(w.SP(), l.s) && R.Valid(l.r)
    requires l.s.phase.Streaming? && S.CanSend(w.SP(), l.s) && l.s.chunkSize == w.Size() && OnGrid(w, l.s.nextToSend)
    requires QueuesTrue(l) && QueuesGood(w, l)
    ensures QueuesTrue(Next(w, l, SenderSends(res))) && QueuesGood(w, Next(w, l, SenderSends(res)))
    ensures OnGrid(w, Next(w, l, SenderSends(res)).s.nextToSend)
  {
    var t := Next(w, l, SenderSends(res));
    var c := S.NextChunk(w.SP(), l.s);
    assert forall m :: m in l.s.sent ==> m in t.s.sent;
    assert t.s.sent[|l.s.sent|] == S.ChunkMsg(c);
    S.RoomForOne(l.s.lastAcked, l.s.nextToSend, w.Size(), w.config.windowChunks);
    assert GoodChunk(w, t, c);
    assert Multiple(l.s.nextToSend + w.Size(), w.Size());
  }

  lemma SendKeeps(w: Setup, l: Link, res: S.SendAnswer)
    requires Fit(w, l) && Transmitting(w, l.s)
    ensures Net(w, Next(w, l, SenderSends(res)))
  {
    if l.s.phase.Offering? {
      SendOfferKeepsQueues(w, l, res);
    } else {
      SendChunkKeepsQueues(w, l, res);
    }
  }

  lemma WaitFailKeeps(w: Setup, l: Link, kind: ErrorKind)
    requires Fit(w, l) && S.Waiting(w.SP(), l.s)
    ensures Net(w, Next(w, l, SenderWaitFails(kind)))
  {
  }

  /** The ack at the head of the queue is always one the sender accepts. */
  lemma HeadAckWelcome(w: Setup, l: Link)
    requires Fit(w, l) && S.Waiting(w.SP(), l.s) && l.acks != []
    ensures var a := l.acks[0];
      && (l.s.phase.AwaitingAccept? ==> a.kind.Accept?)
      && (l.s.phase.Streaming? && !a.kind.Accept? ==> S.AckInRange(w.SP(), l.s, a.nextOffset))
    ensures var t := S.Step(w.SP(), l.s, SAnswer(SenderGetsAck, l));
      && !(t.phase.Done? && t.phase.outcome.Failed?)
      && (l.acks[0].kind.Accept? ==> t.lastAcked == l.s.lastAcked)
      && (!l.acks[0].kind.Accept? ==> t.lastAcked == l.acks[0].nextOffset)
      && t.nextToSend == l.s.nextToSend && t.sent == l.s.sent && !t.phase.Offering? && !t.phase.AwaitingAccept?
  {
    assert GoodAck(w, l, l.acks[0]);
    if l.s.phase.Streaming? {
      WindowFull(w, l);
    }
  }

  /** Taking an ack moves the sender's window forward, never back. */
  lemma AckKeepsQueues(w: Setup, l: Link, t: Link)
    requires S.Runnable(w.SP()) && w.Size() > 0 && QueuesTrue(l) && QueuesGood(w, l) && l.acks != []
    requires t == l.(s := t.s, acks := l.acks[1..]) && t.s.sent == l.s.sent
    requires if l.acks[0].kind.Accept? then t.s.lastAcked == l.s.lastAcked
             else l.s.lastAcked <= t.s.lastAcked == l.acks[0].nextOffset
    ensures QueuesTrue(t) && QueuesGood(w, t)
  {
    assert forall k :: 0 <= k < |t.acks| ==> t.acks[k] == l.acks[k + 1];
    forall k | 0 <= k < |t.acks|
      ensures GoodAck(w, t, t.acks[k])
    {
      assert GoodAck(w, l, l.acks[k + 1]);
    }
    forall k | 0 <= k < |t.chunks|
      ensures GoodChunk(w, t, t.chunks[k])
    {
      assert GoodChunk(w, l, l.chunks[k]);
    }
  }

  lemma AckKeeps(w: Setup, l: Link)
    requires Fit(w, l) && S.Waiting(w.SP(), l.s) && l.acks != []
    ensures Net(w, Next(w, l, SenderGetsAck))
  {
    HeadAckWelcome(w, l);
    assert GoodAck(w, l, l.acks[0]);
    AckKeepsQueues(w, l, Next(w, l, SenderGetsAck));
  }

  // ---------- The receiver ----------

  /** The acks an honest receiver sends in each phase. */
  function ExpectedAcks(w: Setup, r: R.State): seq<Ack>
    requires S.Runnable(w.SP())
  {
    match r.phase
    case Accepting => [AcceptAck(w.id, w.Size())]
    case Reporting => [ProgressAck(w.id, r.nextOffset)]
    case Completing => [CompleteAck(w.id, |w.bytes|)]
    case _ => []
  }

  /** A fault of the receiver's surroundings rather than of the peer. */
  predicate Faulty(b: R.Answer) { b.store.StoreErr? || !b.sendOk || b.chunk.ChunkErr? || b.offer.OfferErr? }

  /** The inputs an honest channel can hand to the receiver. */
  ghost predicate HonestInput(w: Setup, l: Link, b: R.Answer)
    requires S.Runnable(w.SP()) && w.Size() > 0
  {
    && (l.r.phase.AwaitingOffer? && b.offer.GotOffer? ==> b.offer.offer == S.TheOffer(w.SP()))
    && !b.offer.OfferMalformed? && !b.chunk.ChunkMalformed?
    && (l.r.phase.AwaitingChunk? && b.chunk.GotChunk? ==> l.chunks != [] && GoodChunk(w, l, b.chunk.chunk))
  }

  lemma AcksOfShort(c: R.Call, d: R.Call)
    ensures AcksOf([]) == []
    ensures AcksOf([c]) == if c.SendAck? then [c.ack] else []
    ensures AcksOf([c, d]) == AcksOf([c]) + AcksOf([d])
  {
    assert [c, d][1..] == [d];
  }

  /** A good chunk leads to a whole-chunk write, a progress report, or nothing. */
  lemma ChunkOutcome(w: Setup, r: R.State, c: Chunk)
    requires S.Runnable(w.SP()) && w.Size() > 0 && R.Valid(r) && r.phase.AwaitingChunk?
    requires r.offer == S.TheOffer(w.SP()) && S.GoodChunk(w.SP(), w.Size(), c)
    ensures var t := R.StepChunk(w.RP(), r, R.GotChunk(c));
      && t == r.(phase := t.phase)
      && (t.phase == R.Reporting || (t.phase == R.Writing(c.data) && c.offset == r.nextOffset))
  {
    var n := Min(w.Size(), |w.bytes| - c.offset);
    assert |c.data| == n;
    assert R.Len32(c.data) == n;
    assert c.data[..n] == c.data;
  }

  /** The last write completes exactly the sender's bytes, so the digests agree. */
  lemma WriteOutcome(w: Setup, r: R.State, a: R.StoreAnswer)
    requires ReceiverFit(w, r) && r.phase.Writing?
    ensures R.StepWrite(w.RP(), r, r.phase.data, a).phase.Done? ==> a.StoreErr?
  {
    var d := r.phase.data;
    if r.nextOffset + |d| == |w.bytes| {
      assert r.hashed + d == w.bytes;
    }
  }

  /** The outside calls of one honest step. */
  function HonestCalls(w: Setup, r: R.State, b: R.Answer): seq<R.Call>
    requires S.Runnable(w.SP())
  {
    match r.phase
    case Beginning => [R.Begin(w.id, |w.bytes|, b.store.StoreOk?)]
    case Accepting => [R.SendAck(AcceptAck(w.id, w.Size()))] + if b.sendOk then [] else [R.AbortWrite]
    case CommittingEmpty => [R.Commit(b.store.StoreOk?)]
    case AwaitingChunk => if b.chunk.ChunkErr? then [R.AbortWrite] else []
    case Writing(d) => [R.WriteAt(r.nextOffset, d, b.store.StoreOk?)] + if b.store.StoreOk? then [] else [R.AbortWrite]
    case Reporting => [R.SendAck(ProgressAck(w.id, r.nextOffset))] + if b.sendOk then [] else [R.AbortWrite]
    case Committing => [R.Commit(b.store.StoreOk?)]
    case Completing => [R.SendAck(CompleteAck(w.id, |w.bytes|))]
    case _ => []
  }

  lemma HonestCallsAcks(w: Setup, r: R.State, b: R.Answer)
    requires S.Runnable(w.SP())
    ensures AcksOf(HonestCalls(w, r, b)) == ExpectedAcks(w, r)
  {
    var e := HonestCalls(w, r, b);
    AcksOfShort(if e != [] then e[0] else R.AbortWrite, R.AbortWrite);
  }

  /** One honest receiver step makes these calls, and only a fault makes it fail. */
  lemma HonestStep(w: Setup, r: R.State, b: R.Answer)
    requires ReceiverFit(w, r) && !r.phase.Done?
    requires r.phase.AwaitingOffer? && b.offer.GotOffer? ==> b.offer.offer == S.TheOffer(w.SP())
    requires !b.offer.OfferMalformed? && !b.chunk.ChunkMalformed?
    requires r.phase.AwaitingChunk? && b.chunk.GotChunk? ==> S.GoodChunk(w.SP(), w.Size(), b.chunk.chunk)
    ensures var t := R.Step(w.RP(), r, b);
      && t.calls == r.calls + HonestCalls(w, r, b)
      && (t.phase.Done? && t.phase.outcome.Failed? ==> Faulty(b))
  {
    match r.phase
    case Accepting => assert |w.bytes| == 0 ==> w.bytes == [];
    case AwaitingChunk =>
      if b.chunk.GotChunk? {
        ChunkOutcome(w, r, b.chunk.chunk);
      }
    case Writing(_) => WriteOutcome(w, r, b.store);
    case _ =>
  }

  lemma HonestAcks(w: Setup, l: Link, b: R.Answer)
    requires ReceiverFit(w, l.r) && HonestInput(w, l, b) && !l.r.phase.Done?
    ensures var t := R.Step(w.RP(), l.r, b);
      && t.calls == l.r.calls + HonestCalls(w, l.r, b)
      && NewAcks(l.r, t) == ExpectedAcks(w, l.r)
  {
    var t := R.Step(w.RP(), l.r, b);
    HonestStep(w, l.r, b);
    HonestCallsAcks(w, l.r, b);
    assert t.calls[|l.r.calls|..] == HonestCalls(w, l.r, b);
  }

  /** How one honest step moves the receiver's offsets. */
  lemma HonestOffset(w: Setup, l: Link, b: R.Answer)
    requires ReceiverFit(w, l.r) && HonestInput(w, l, b)
    ensures var t := R.Step(w.RP(), l.r, b);
      && l.r.nextOffset <= t.nextOffset
      && (t.nextOffset == l.r.nextOffset || (l.r.phase.Writing? && t.nextOffset == l.r.nextOffset + |l.r.phase.data|))
      && (t.lastProgress == l.r.lastProgress || t.lastProgress == l.r.nextOffset)
      && (t.phase.Writing? ==>
            l.r.phase.AwaitingChunk? && b.chunk.GotChunk? && t.nextOffset == b.chunk.chunk.offset &&
            t.phase.data == b.chunk.chunk.data)
  {
    if l.r.phase.AwaitingChunk? && b.chunk.GotChunk? {
      ChunkOutcome(w, l.r, b.chunk.chunk);
    }
  }

  lemma ReceiverKeepsOffsets(w: Setup, l: Link, b: R.Answer)
    requires ReceiverFit(w, l.r) && Offsets(w, l) && HonestInput(w, l, b)
    ensures Offsets(w, AfterReceiver(w, l, b))
  {
    HonestOffset(w, l, b);
    var t := R.Step(w.RP(), l.r, b);
    if t.phase.Writing? {
      var c := b.chunk.chunk;
      assert |c.data| == Min(w.Size(), |w.bytes| - c.offset);
      assert Multiple(c.offset + w.Size(), w.Size());
    }
  }

  /** Old acks stay good and in order as the receiver advances; the new one is the largest. */
  lemma ExtendAcks(w: Setup, l: Link, t: Link, more: seq<Ack>)
    requires S.Runnable(w.SP()) && w.Size() > 0
    requires l.s == t.s && l.r.nextOffset <= t.r.nextOffset <= |w.bytes| && t.acks == l.acks + more
    requires forall i :: 0 <= i < |l.acks| ==> GoodAck(w, l, l.acks[i])
    requires AcksOrdered(l.acks)
    requires |more| <= 1
    requires forall i :: 0 <= i < |more| ==>
      GoodAck(w, t, more[i]) && (more[i].kind.Accept? || more[i].nextOffset == t.r.nextOffset)
    ensures forall i :: 0 <= i < |t.acks| ==> GoodAck(w, t, t.acks[i])
    ensures AcksOrdered(t.acks)
  {
    forall i | 0 <= i < |t.acks|
      ensures GoodAck(w, t, t.acks[i])
    {
      if i < |l.acks| {
        assert GoodAck(w, l, l.acks[i]);
      }
    }
    forall i, j | 0 <= i < j < |t.acks| && !t.acks[i].kind.Accept? && !t.acks[j].kind.Accept?
      ensures t.acks[i].nextOffset <= t.acks[j].nextOffset
    {
      assert GoodAck(w, l, l.acks[i]);
    }
  }

  /** The ack a step emits is good for the state after it. */
  lemma ExpectedAcksGood(w: Setup, l: Link, b: R.Answer)
    requires ReceiverFit(w, l.r) && Offsets(w, l) && HonestInput(w, l, b) && !l.r.phase.Done?
    ensures var t := AfterReceiver(w, l, b);
      forall i :: 0 <= i < |ExpectedAcks(w, l.r)| ==>
        && GoodAck(w, t, ExpectedAcks(w, l.r)[i])
        && (ExpectedAcks(w, l.r)[i].kind.Accept? || ExpectedAcks(w, l.r)[i].nextOffset == t.r.nextOffset)
  {
    HonestOffset(w, l, b);
  }

  lemma EmittedAreLogged(l: Link, t: Link, e: seq<R.Call>, more: seq<Ack>)
    requires QueuesTrue(l) && NoAlarm(l.r.calls) && NoAlarm(e)
    requires t == l.(r := t.r, acks := l.acks + more) && t.r.calls == l.r.calls + e
    requires forall i :: 0 <= i < |more| ==> R.SendAck(more[i]) in e
    ensures QueuesTrue(t) && NoAlarm(t.r.calls)
  {
    assert forall c :: c in l.r.calls || c in e ==> c in t.r.calls;
  }

  lemma HonestCallsQuiet(w: Setup, r: R.State, b: R.Answer)
    requires S.Runnable(w.SP())
    ensures NoAlarm(HonestCalls(w, r, b))
    ensures forall i :: 0 <= i < |ExpectedAcks(w, r)| ==> R.SendAck(ExpectedAcks(w, r)[i]) in HonestCalls(w, r, b)
  {
    assert ExpectedAcks(w, r) != [] ==> HonestCalls(w, r, b)[0] == R.SendAck(ExpectedAcks(w, r)[0]);
  }

  lemma ReceiverKeepsTrue(w: Setup, l: Link, b: R.Answer)
    requires ReceiverFit(w, l.r) && QueuesTrue(l) && NoAlarm(l.r.calls) && HonestInput(w, l, b) && !l.r.phase.Done?
    ensures QueuesTrue(AfterReceiver(w, l, b)) && NoAlarm(AfterReceiver(w, l, b).r.calls)
  {
    HonestAcks(w, l, b);
    HonestCallsQuiet(w, l.r, b);
    EmittedAreLogged(l, AfterReceiver(w, l, b), HonestCalls(w, l.r, b), ExpectedAcks(w, l.r));
  }

  lemma ReceiverKeepsGood(w: Setup, l: Link, b: R.Answer)
    requires ReceiverFit(w, l.r) && Offsets(w, l) && QueuesGood(w, l) && HonestInput(w, l, b) && !l.r.phase.Done?
    ensures QueuesGood(w, AfterReceiver(w, l, b))
  {
    var t := AfterReceiver(w, l, b);
    HonestAcks(w, l, b);
    HonestOffset(w, l, b);
    ReceiverKeepsOffsets(w, l, b);
    ExpectedAcksGood(w, l, b);
    ExtendAcks(w, l, t, ExpectedAcks(w, l.r));
    forall k | 0 <= k < |t.chunks|
      ensures GoodChunk(w, t, t.chunks[k])
    {
      assert GoodChunk(w, l, l.chunks[k]);
    }
  }

  lemma ReceiverKeepsQuiet(w: Setup, l: Link, b: R.Answer)
    requires ReceiverFit(w, l.r) && HonestInput(w, l, b) && !l.r.phase.Done? && Quiet(w, l)
    ensures Quiet(w, AfterReceiver(w, l, b))
  {
    HonestOffset(w, l, b);
    HonestAcks(w, l, b);
  }

  lemma ReceiverKeepsOurs(w: Setup, r: R.State, b: R.Answer)
    requires ReceiverFit(w, r) && !r.phase.Done? && (!r.phase.AwaitingOffer? ==> Ours(w, r))
    requires r.phase.AwaitingOffer? && b.offer.GotOffer? ==> b.offer.offer == S.TheOffer(w.SP())
    ensures var t := R.Step(w.RP(), r, b); !t.phase.AwaitingOffer? && !t.phase.Done? ==> Ours(w, t)
  {
  }

  lemma ReceiverKeeps(w: Setup, l: Link, b: R.Answer)
    requires ReceiverFit(w, l.r) && Net(w, l) && HonestInput(w, l, b) && !l.r.phase.Done?
    ensures Net(w, AfterReceiver(w, l, b))
  {
    ReceiverKeepsOurs(w, l.r, b);
    ReceiverKeepsOffsets(w, l, b);
    ReceiverKeepsTrue(w, l, b);
    ReceiverKeepsGood(w, l, b);
    if l.s.phase.Offering? || l.s.phase.AwaitingAccept? {
      ReceiverKeepsQuiet(w, l, b);
    }
  }

  /** Taking the head off a queue keeps the invariant. */
  lemma PopKeeps(w: Setup, l: Link, offers: seq<Offer>, chunks: seq<Chunk>)
    requires S.Runnable(w.SP()) && w.Size() > 0 && Net(w, l)
    requires offers == l.offers || (l.offers != [] && offers == l.offers[1..])
    requires chunks == l.chunks || (l.chunks != [] && chunks == l.chunks[1..])
    ensures Net(w, l.(offers := offers, chunks := chunks))
  {
    assert forall i :: 0 <= i < |chunks| ==> chunks[i] in l.chunks;
    assert forall i :: 0 <= i < |offers| ==> offers[i] in l.offers;
  }

  // ---------- Every step, every run ----------

  predicate OfReceiver(e: Event) {
    e.ReceiverGetsOffer? || e.ReceiverGetsChunk? || e.ReceiverWaitFails? || e.ReceiverActs?
  }

  lemma InputHonest(w: Setup, l: Link, e: Event)
    requires SenderFit(w, l.s) && ReceiverFit(w, l.r) && QueuesTrue(l) && QueuesGood(w, l) && Enabled(w, l, e)
      && OfReceiver(e)
    ensures HonestInput(w, l, RAnswer(e, l)) && TrueMessage(w, l.s, RAnswer(e, l)) && !l.r.phase.Done?
  {
    if l.chunks != [] {
      assert GoodChunk(w, l, l.chunks[0]);
    }
  }

  lemma ReceiverEventKeeps(w: Setup, l: Link, e: Event)
    requires Fit(w, l) && Enabled(w, l, e) && OfReceiver(e)
    ensures Net(w, Next(w, l, e))
  {
    InputHonest(w, l, e);
    var m := AfterReceiver(w, l, RAnswer(e, l));
    ReceiverKeeps(w, l, RAnswer(e, l));
    var t := Next(w, l, e);
    PopKeeps(w, m, t.offers, t.chunks);
  }

  lemma NetKeeps(w: Setup, l: Link, e: Event)
    requires Fit(w, l) && Enabled(w, l, e)
    ensures Net(w, Next(w, l, e))
  {
    match e
    case SenderSends(res) => SendKeeps(w, l, res);
    case SenderGetsAck => AckKeeps(w, l);
    case SenderWaitFails(kind) => WaitFailKeeps(w, l, kind);
    case ReceiverListens =>
    case LoseOffer(i) => LoseOfferKeeps(w, l, i);
    case LoseChunk(i) => LoseChunkKeeps(w, l, i);
    case LoseAck(i) => LoseAckKeeps(w, l, i);
    case _ => ReceiverEventKeeps(w, l, e);
  }

  lemma PairKeeps(w: Setup, l: Link, e: Event)
    requires Fit(w, l) && PairInv(w, l.s, l.r) && Enabled(w, l, e)
    ensures PairInv(w, Next(w, l, e).s, Next(w, l, e).r)
  {
    if OfReceiver(e) {
      InputHonest(w, l, e);
      ReceiverStepKeeps(w, l.s, l.r, RAnswer(e, l));
    } else if e.SenderSends? || e.SenderGetsAck? || e.SenderWaitFails? {
      assert l.acks != [] ==> R.SendAck(l.acks[0]) in l.r.calls;
      SenderStepKeeps(w, l.s, l.r, SAnswer(e, l));
    }
  }

  lemma NextKeeps(w: Setup, l: Link, e: Event)
    requires LinkInv(w, l) && Enabled(w, l, e)
    ensures LinkInv(w, Next(w, l, e))
  {
    LinkIsFit(w, l);
    NetKeeps(w, l, e);
    PairKeeps(w, l, e);
  }

  /** A run: a sequence of links, each obtained from the one before by an enabled event. */
  ghost predicate IsRun(w: Setup, run: seq<Link>, events: seq<Event>) {
    && |run| == |events| + 1
    && run[0] == Init(w)
    && forall i :: 0 <= i < |events| ==>
         && S.Valid(w.SP(), run[i].s) && R.Valid(run[i].r)
         && Enabled(w, run[i], events[i]) && run[i + 1] == Next(w, run[i], events[i])
  }

  lemma {:induction false} RunInv(w: Setup, run: seq<Link>, events: seq<Event>, k: nat)
    requires Honest(w) && IsRun(w, run, events) && k < |run|
    ensures LinkInv(w, run[k]) && Fit(w, run[k])
  {
    if k == 0 {
      InitInv(w);
    } else {
      RunInv(w, run, events, k - 1);
      NextKeeps(w, run[k - 1], events[k - 1]);
    }
    LinkIsFit(w, run[k]);
  }

  predicate SenderFailed(l: Link) { l.s.phase.Done? && l.s.phase.outcome.Failed? }
  predicate ReceiverFailed(l: Link) { l.r.phase.Done? && l.r.phase.outcome.Failed? }

  /** Events that are faults of the surroundings: a timeout, a transport error or a store error. */
  predicate IsFault(e: Event) {
    match e
    case SenderSends(res) => res.SendErr?
    case SenderWaitFails(_) => true
    case ReceiverWaitFails => true
    case ReceiverActs(store, sendOk) => store.StoreErr? || !sendOk
    case _ => false
  }

  lemma SenderFailsOnlyByFault(w: Setup, l: Link, e: Event)
    requires Fit(w, l) && Enabled(w, l, e) && !SenderFailed(l) && SenderFailed(Next(w, l, e))
    ensures IsFault(e)
  {
    if e.SenderGetsAck? {
      HeadAckWelcome(w, l);
    }
  }

  /** A step of the receiver on an honest input fails only if the event is a fault. */
  lemma StepFailsByFault(w: Setup, l: Link, e: Event)
    requires ReceiverFit(w, l.r) && OfReceiver(e) && HonestInput(w, l, RAnswer(e, l)) && !l.r.phase.Done?
    requires (e.ReceiverGetsOffer? ==> l.r.phase.AwaitingOffer? && l.offers != [])
      && (e.ReceiverGetsChunk? ==> l.r.phase.AwaitingChunk? && l.chunks != [])
    requires e.ReceiverActs? ==> !l.r.phase.AwaitingOffer? && !l.r.phase.AwaitingChunk?
    requires R.Step(w.RP(), l.r, RAnswer(e, l)).phase.Done? && R.Step(w.RP(), l.r, RAnswer(e, l)).phase.outcome.Failed?
    ensures IsFault(e)
  {
    HonestStep(w, l.r, RAnswer(e, l));
  }

  lemma ReceiverFailsOnlyByFault(w: Setup, l: Link, e: Event)
    requires SenderFit(w, l.s) && ReceiverFit(w, l.r) && QueuesTrue(l) && QueuesGood(w, l)
    requires Enabled(w, l, e) && !ReceiverFailed(l) && ReceiverFailed(Next(w, l, e))
    ensures IsFault(e)
  {
    if OfReceiver(e) {
      InputHonest(w, l, e);
      StepFailsByFault(w, l, e);
    }
  }

  /** In every run of the honest pair: no refusal is ever sent, at every wait for an ack the window is
      exactly full, and an end that newly fails does so at a fault event, never because of a message. */
  lemma OnlyFaultsFail(w: Setup, run: seq<Link>, events: seq<Event>, k: nat)
    requires Honest(w) && IsRun(w, run, events) && k < |events|
    ensures NoAlarm(run[k].r.calls)
    ensures S.Runnable(w.SP()) && w.Size() > 0
    ensures OnGrid(w, run[k].s.lastAcked) && OnGrid(w, run[k].s.nextToSend)
    ensures OnGrid(w, run[k].r.nextOffset) && OnGrid(w, run[k].r.lastProgress)
    ensures run[k].s.phase.Streaming? && !S.CanSend(w.SP(), run[k].s) ==>
      run[k].s.nextToSend == Min(|w.bytes|, run[k].s.lastAcked + w.config.windowChunks * run[k].s.chunkSize)
    ensures !SenderFailed(run[k]) && SenderFailed(run[k + 1]) ==> IsFault(events[k])
    ensures !ReceiverFailed(run[k]) && ReceiverFailed(run[k + 1]) ==> IsFault(events[k])
  {
    RunInv(w, run, events, k);
    if run[k].s.phase.Streaming? && !S.CanSend(w.SP(), run[k].s) {
      WindowFull(w, run[k]);
    }
    if !SenderFailed(run[k]) && SenderFailed(run[k + 1]) {
      SenderFailsOnlyByFault(w, run[k], events[k]);
    }
    if !ReceiverFailed(run[k]) && ReceiverFailed(run[k + 1]) {
      ReceiverFailsOnlyByFault(w, run[k], events[k]);
    }
  }
}
