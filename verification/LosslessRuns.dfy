/** Runs of the honest pair in which nothing is lost and nothing in the surroundings fails: the transfer
    always succeeds, and never more than one window of chunks waits to be taken by the receiver. */
module LosslessRuns {
  import opened Basics
  import opened TransferTypes
  import opened TransferPair
  import opened FifoPair
  import opened NoFalseAlarm
  import S = Sender
  import R = Receiver
  import M = ReceiverSafety

  /** Neither a loss nor a fault. */
  predicate Normal(e: Event) {
    !IsFault(e) && !e.LoseOffer? && !e.LoseChunk? && !e.LoseAck?
  }

  /** The queued chunks cover [from, to) without gap or overlap. */
  predicate Tile(from: nat, chunks: seq<Chunk>, to: nat)
    decreases |chunks|
  {
    if chunks == [] then from == to
    else chunks[0].offset == from && Tile(from + |chunks[0].data|, chunks[1..], to)
  }

  /** The first byte the receiver has not taken from the channel. */
  function Front(r: R.State): nat {
    r.nextOffset + if r.phase.Writing? then |r.phase.data| else 0
  }

  /** The offset of the newest ack on its way, or the last one that arrived. */
  function Latest(l: Link): nat {
    if l.acks == [] then l.s.lastAcked else l.acks[|l.acks| - 1].nextOffset
  }

  function Reported(r: R.State): nat {
    if r.phase.Done? then r.nextOffset else r.lastProgress
  }

  /** Where the two ends stand relative to each other. */
  predicate Stage(w: Setup, l: Link)
    requires S.Runnable(w.SP())
  {
    match l.s.phase
    case Offering => l.offers == [] && l.r.phase.AwaitingOffer? && l.acks == []
    case AwaitingAccept =>
      || (l.r.phase.AwaitingOffer? && l.offers == [S.TheOffer(w.SP())] && l.acks == [])
      || ((l.r.phase.Beginning? || l.r.phase.Accepting?) && l.offers == [] && l.acks == [])
      || ((l.r.phase.AwaitingChunk? || l.r.phase.CommittingEmpty? || l.r.phase.Done?) && l.offers == []
          && l.acks == [AcceptAck(w.id, w.Size())])
    case _ =>
      && l.offers == [] && !l.r.phase.AwaitingOffer? && !l.r.phase.Beginning? && !l.r.phase.Accepting?
      && forall i :: 0 <= i < |l.acks| ==> !l.acks[i].kind.Accept?
  }

  ghost predicate Flow(w: Setup, l: Link)
    requires S.Runnable(w.SP())
  {
    && Stage(w, l)
    && !SenderFailed(l) && !ReceiverFailed(l)
    && Tile(Front(l.r), l.chunks, l.s.nextToSend)
    && Latest(l) == Reported(l.r)
    && (l.r.phase.AwaitingChunk? || l.r.phase.Writing? ==> l.r.lastProgress == l.r.nextOffset)
    && (l.r.phase.Writing? ==>
          |l.r.phase.data| == w.Size() || l.r.nextOffset + |l.r.phase.data| == |w.bytes|)
    && (l.r.phase.Done? ==> l.r.nextOffset == |w.bytes|)
  }

  lemma {:induction false} TileAppend(from: nat, chunks: seq<Chunk>, to: nat, c: Chunk)
    requires Tile(from, chunks, to) && c.offset == to
    ensures Tile(from, chunks + [c], to + |c.data|)
    decreases |chunks|
  {
    if chunks == [] {
      assert [c][1..] == [];
      assert chunks + [c] == [c];
    } else {
      assert (chunks + [c])[1..] == chunks[1..] + [c];
      TileAppend(from + |chunks[0].data|, chunks[1..], to, c);
    }
  }

  lemma SendChunkFlows(w: Setup, l: Link, t: Link, c: Chunk)
    requires S.Runnable(w.SP()) && Flow(w, l) && l.s.phase.Streaming? && c.offset == l.s.nextToSend
    requires t == l.(s := t.s, chunks := l.chunks + [c])
    requires t.s.phase.Streaming? && t.s.nextToSend == l.s.nextToSend + |c.data| && t.s.lastAcked == l.s.lastAcked
    ensures Flow(w, t)
  {
    TileAppend(Front(l.r), l.chunks, l.s.nextToSend, c);
  }

  lemma SendFlows(w: Setup, l: Link)
    requires Fit(w, l) && Flow(w, l) && Transmitting(w, l.s)
    ensures Flow(w, Next(w, l, SenderSends(S.Delivered)))
  {
    var t := Next(w, l, SenderSends(S.Delivered));
    if l.s.phase.Streaming? {
      SendChunkFlows(w, l, t, S.NextChunk(w.SP(), l.s));
    }
  }

  lemma AckFlows(w: Setup, l: Link)
    requires Fit(w, l) && Flow(w, l) && S.Waiting(w.SP(), l.s) && l.acks != []
    ensures Flow(w, Next(w, l, SenderGetsAck))
  {
    var t := Next(w, l, SenderGetsAck);
    HeadAckWelcome(w, l);
    assert t.s.phase.Streaming? || Succeeded(t.s);
    assert t.r == l.r && t.chunks == l.chunks && t.offers == l.offers == [];
    assert Latest(t) == Latest(l);
    assert Stage(w, t);
  }

  /** The chunk the receiver expects is written whole. */
  lemma ExpectedChunk(w: Setup, r: R.State, c: Chunk)
    requires ReceiverFit(w, r) && r.phase.AwaitingChunk?
    requires S.GoodChunk(w.SP(), w.Size(), c) && c.offset == r.nextOffset
    ensures R.StepChunk(w.RP(), r, R.GotChunk(c)) == r.(phase := R.Writing(c.data))
    ensures |c.data| == Min(w.Size(), |w.bytes| - r.nextOffset)
  {
    assert |c.data| == Min(w.Size(), |w.bytes| - c.offset);
    assert R.Len32(c.data) == |c.data|;
    assert c.data[..|c.data|] == c.data;
  }

  /** Taking the expected chunk: what was queued is now being written. */
  lemma TakenFlows(w: Setup, l: Link, t: Link)
    requires S.Runnable(w.SP()) && Flow(w, l) && l.r.phase.AwaitingChunk? && l.chunks != []
    requires !l.s.phase.Offering? && !l.s.phase.AwaitingAccept?
    requires |l.chunks[0].data| == w.Size() || l.r.nextOffset + |l.chunks[0].data| == |w.bytes|
    requires t == l.(r := l.r.(phase := R.Writing(l.chunks[0].data)), chunks := l.chunks[1..])
    ensures Flow(w, t)
  {
  }

  lemma TakenChunk(w: Setup, l: Link)
    requires Fit(w, l) && l.r.phase.AwaitingChunk? && l.chunks != [] && l.chunks[0].offset == l.r.nextOffset
    ensures Next(w, l, ReceiverGetsChunk)
         == l.(r := l.r.(phase := R.Writing(l.chunks[0].data)), chunks := l.chunks[1..])
    ensures |l.chunks[0].data| == Min(w.Size(), |w.bytes| - l.r.nextOffset)
  {
    assert GoodChunk(w, l, l.chunks[0]);
    ExpectedChunk(w, l.r, l.chunks[0]);
    var t := R.StepChunk(w.RP(), l.r, R.GotChunk(l.chunks[0]));
    assert t.calls[|l.r.calls|..] == [] && l.acks + [] == l.acks;
  }

  lemma ChunkFlows(w: Setup, l: Link)
    requires Fit(w, l) && Flow(w, l) && l.r.phase.AwaitingChunk? && l.chunks != []
    ensures Flow(w, Next(w, l, ReceiverGetsChunk))
  {
    TakenChunk(w, l);
    TakenFlows(w, l, Next(w, l, ReceiverGetsChunk));
  }

  /** Where an undisturbed action takes the receiver. */
  predicate ActShape(w: Setup, r: R.State, t: R.State) {
    && t.nextOffset == Front(r) && Front(t) == t.nextOffset
    && t.lastProgress == (if r.phase.Reporting? then r.nextOffset else r.lastProgress)
    && (t.phase.Done? ==> t.phase.outcome.Received? && t.nextOffset == |w.bytes|)
    && match r.phase
       case Beginning => t.phase.Accepting?
       case Accepting => t.phase == if |w.bytes| == 0 then R.CommittingEmpty else R.AwaitingChunk
       case Writing(_) => t.phase.Committing? || t.phase.Reporting?
       case Reporting => t.phase.AwaitingChunk?
       case Committing => t.phase.Completing?
       case _ => t.phase.Done?
  }

  lemma ActOutcome(w: Setup, r: R.State, b: R.Answer)
    requires ReceiverFit(w, r) && b.store.StoreOk? && b.sendOk
    requires !r.phase.AwaitingOffer? && !r.phase.AwaitingChunk? && !r.phase.Done?
    requires r.phase.Writing? ==> r.lastProgress == r.nextOffset
    requires r.phase.Writing? ==> |r.phase.data| == w.Size() || r.nextOffset + |r.phase.data| == |w.bytes|
    requires r.phase.Completing? || r.phase.CommittingEmpty? ==> r.nextOffset == |w.bytes|
    ensures ActShape(w, r, R.Step(w.RP(), r, b))
  {
    HonestStep(w, r, R.Answer(R.OfferErr, R.ChunkErr, R.StoreOk, true));
    if r.phase.Writing? {
      WriteOutcome(w, r, R.StoreOk);
    }
  }

  lemma ActShapeFlows(w: Setup, l: Link, t: Link)
    requires S.Runnable(w.SP()) && Flow(w, l) && ActShape(w, l.r, t.r)
    requires t == l.(r := t.r, acks := l.acks + ExpectedAcks(w, l.r))
    requires l.r.phase.Accepting? ==> l.r.nextOffset == l.r.lastProgress == 0
    requires l.r.phase.CommittingEmpty? ==> |w.bytes| == 0 && l.r.lastProgress == 0
    requires !l.r.phase.AwaitingOffer? && !l.r.phase.AwaitingChunk? && !l.r.phase.Done?
    requires l.s.phase.Offering? || l.s.phase.AwaitingAccept? ==>
      !l.r.phase.Writing? && !l.r.phase.Reporting? && !l.r.phase.Committing? && !l.r.phase.Completing?
    ensures Flow(w, t)
  {
    assert Latest(t) == Reported(t.r);
  }

  lemma ActFlows(w: Setup, l: Link)
    requires Fit(w, l) && Flow(w, l) && Enabled(w, l, ReceiverActs(R.StoreOk, true))
    ensures Flow(w, Next(w, l, ReceiverActs(R.StoreOk, true)))
  {
    var e := ReceiverActs(R.StoreOk, true);
    InputHonest(w, l, e);
    HonestAcks(w, l, RAnswer(e, l));
    ActOutcome(w, l.r, RAnswer(e, l));
    ActShapeFlows(w, l, Next(w, l, e));
  }

  lemma OfferFlows(w: Setup, l: Link)
    requires Fit(w, l) && Flow(w, l) && Enabled(w, l, ReceiverGetsOffer)
    ensures Flow(w, Next(w, l, ReceiverGetsOffer))
  {
    InputHonest(w, l, ReceiverGetsOffer);
    HonestAcks(w, l, RAnswer(ReceiverGetsOffer, l));
  }

  lemma NextFlows(w: Setup, l: Link, e: Event)
    requires Fit(w, l) && Flow(w, l) && Enabled(w, l, e) && Normal(e)
    ensures Flow(w, Next(w, l, e))
  {
    match e
    case SenderSends(_) => SendFlows(w, l);
    case SenderGetsAck => AckFlows(w, l);
    case ReceiverListens =>
    case ReceiverGetsOffer => OfferFlows(w, l);
    case ReceiverGetsChunk => ChunkFlows(w, l);
    case ReceiverActs(_, _) => ActFlows(w, l);
  }

  lemma {:induction false} RunFlows(w: Setup, run: seq<Link>, events: seq<Event>, k: nat)
    requires Honest(w) && IsRun(w, run, events) && k < |run|
    requires forall i :: 0 <= i < |events| ==> Normal(events[i])
    ensures Fit(w, run[k]) && Flow(w, run[k])
  {
    RunInv(w, run, events, k);
    if k > 0 {
      RunFlows(w, run, events, k - 1);
      NextFlows(w, run[k - 1], events[k - 1]);
    }
  }

  ghost predicate Stuck(w: Setup, l: Link)
    requires S.Valid(w.SP(), l.s) && R.Valid(l.r)
  {
    forall e :: Normal(e) ==> !Enabled(w, l, e)
  }

  /** The sender cannot wait forever for a receiver that waits for it. */
  lemma NoMutualWait(w: Setup, l: Link)
    requires Fit(w, l) && Flow(w, l) && Stuck(w, l)
    ensures l.s.phase.Done? && l.r.phase.Done?
  {
    assert !Enabled(w, l, SenderSends(S.Delivered));
    assert !Enabled(w, l, SenderGetsAck);
    assert !Enabled(w, l, ReceiverListens);
    assert !Enabled(w, l, ReceiverGetsOffer);
    assert !Enabled(w, l, ReceiverGetsChunk);
    assert !Enabled(w, l, ReceiverActs(R.StoreOk, true));
  }

  lemma StuckHasSucceeded(w: Setup, l: Link)
    requires Fit(w, l) && Flow(w, l) && Stuck(w, l)
    ensures Succeeded(l.s) && l.r.phase.Done? && l.r.phase.outcome.Received?
  {
    NoMutualWait(w, l);
  }

  lemma SucceededHasStored(w: Setup, l: Link)
    requires PairInv(w, l.s, l.r) && Succeeded(l.s) && l.r.phase.Done? && l.r.phase.outcome.Received?
    ensures Verdict(w, l.r).Committed? && Verdict(w, l.r).image == w.bytes
  {
    CommittedBytes(w, l.r);
  }

  /** A fault-free, loss-free run that can go no further has succeeded at both ends, with the file stored. */
  lemma LosslessTransferSucceeds(w: Setup, run: seq<Link>, events: seq<Event>)
    requires Honest(w) && IsRun(w, run, events)
    requires forall i :: 0 <= i < |events| ==> Normal(events[i])
    ensures var l := run[|events|];
      && S.Valid(w.SP(), l.s) && R.Valid(l.r)
      && (Stuck(w, l) ==>
            && Succeeded(l.s)
            && l.r.phase.Done? && l.r.phase.outcome.Received?
            && Verdict(w, l.r).Committed? && Verdict(w, l.r).image == w.bytes)
  {
    var l := run[|events|];
    RunFlows(w, run, events, |events|);
    if Stuck(w, l) {
      StuckHasSucceeded(w, l);
      RunInv(w, run, events, |events|);
      SucceededHasStored(w, l);
    }
  }

  // ---------- Backpressure ----------

  lemma {:induction false} TileCount(w: Setup, l: Link, from: nat, chunks: seq<Chunk>, to: nat)
    requires S.Runnable(w.SP()) && w.Size() > 0 && Tile(from, chunks, to)
    requires forall i :: 0 <= i < |chunks| ==> GoodChunk(w, l, chunks[i])
    ensures from <= to && |chunks| == DivCeil(to - from, w.Size())
    decreases |chunks|
  {
    if chunks != [] {
      var c := chunks[0];
      assert GoodChunk(w, l, c);
      assert |c.data| == Min(w.Size(), |w.bytes| - c.offset);
      assert forall i :: 0 <= i < |chunks[1..]| ==> chunks[1..][i] == chunks[i + 1];
      TileCount(w, l, from + |c.data|, chunks[1..], to);
      if chunks[1..] != [] {
        assert GoodChunk(w, l, chunks[1]);
      }
    }
  }

  /** Never more than a window of chunks has been sent and not yet taken by the receiver. */
  lemma AtMostAWindow(w: Setup, l: Link)
    requires Fit(w, l) && Flow(w, l)
    ensures |l.chunks| <= w.config.windowChunks
  {
    TileCount(w, l, Front(l.r), l.chunks, l.s.nextToSend);
    if l.chunks != [] {
      assert l.s.nextToSend - Front(l.r) <= l.s.nextToSend - l.s.lastAcked;
      DivCeilGrowth(0, l.s.nextToSend - Front(l.r), w.Size(), w.config.windowChunks);
    }
  }

  /** Without loss or timeout this holds along every run. */
  lemma NeverMoreThanAWindow(w: Setup, run: seq<Link>, events: seq<Event>)
    requires Honest(w) && IsRun(w, run, events)
    requires forall i :: 0 <= i < |events| ==> Normal(events[i])
    ensures |run[|events|].chunks| <= w.config.windowChunks
  {
    RunFlows(w, run, events, |events|);
    AtMostAWindow(w, run[|events|]);
  }
}
