/** Runs of the honest pair that lose offers, chunks and progress acks: go-back-N recovers. As long as the timeouts stay
    within the retry limit and the last loss is followed by a timeout, such a run can stop only in success. */
module Recovery {
  import opened Basics
  import opened TransferTypes
  import opened TransferPair
  import opened FifoPair
  import opened NoFalseAlarm
  import opened LosslessRuns
  import S = Sender
  import R = Receiver

  // ---------- Which runs ----------

  predicate IsTimeout(e: Event) { e == SenderWaitFails(Timeout) }

  /** The loss of an offer, a chunk or a progress ack; the accept and the completion are sent only once. */
  predicate Recoverable(l: Link, e: Event) {
    e.LoseOffer? || e.LoseChunk? || (e.LoseAck? && e.i < |l.acks| && l.acks[e.i].kind.Progress?)
  }

  /** An offer whose transmission timed out is waited for all the same. */
  predicate Smooth(l: Link, e: Event) {
    Normal(e) || (e == SenderSends(S.SendErr(Timeout)) && l.s.phase.Offering?)
  }

  /** How many of the first `k` events are timeouts in a wait for an ack, and in a wait for the accept. */
  function StreamTimeouts(run: seq<Link>, events: seq<Event>, k: nat): nat
    requires k <= |events| < |run|
  {
    if k == 0 then 0
    else
      var last := if IsTimeout(events[k - 1]) && run[k - 1].s.phase.Streaming? then 1 else 0;
      StreamTimeouts(run, events, k - 1) + last
  }

  function OfferTimeouts(run: seq<Link>, events: seq<Event>, k: nat): nat
    requires k <= |events| < |run|
  {
    if k == 0 then 0
    else
      var last := if IsTimeout(events[k - 1]) && !run[k - 1].s.phase.Streaming? then 1 else 0;
      OfferTimeouts(run, events, k - 1) + last
  }

  /** Every event is smooth, a timeout or a recoverable loss, and the timeouts stay within the retry limit. */
  ghost predicate Patient(w: Setup, run: seq<Link>, events: seq<Event>) {
    && |run| == |events| + 1
    && (forall i :: 0 <= i < |events| ==>
          Smooth(run[i], events[i]) || IsTimeout(events[i]) || Recoverable(run[i], events[i]))
    && StreamTimeouts(run, events, |events|) <= w.config.maxRetries
    && OfferTimeouts(run, events, |events|) <= w.config.maxRetries
  }

  /** Every loss among the first `k` events is followed by a timeout among them. */
  ghost predicate LossesTimedOut(run: seq<Link>, events: seq<Event>, k: nat)
    requires k <= |events| < |run|
  {
    forall i :: 0 <= i < k && Recoverable(run[i], events[i]) ==> exists j :: i < j < k && IsTimeout(events[j])
  }

  lemma {:induction false} TimeoutsGrow(run: seq<Link>, events: seq<Event>, j: nat, k: nat)
    requires j <= k <= |events| < |run|
    ensures StreamTimeouts(run, events, j) <= StreamTimeouts(run, events, k)
    ensures OfferTimeouts(run, events, j) <= OfferTimeouts(run, events, k)
  {
    if j < k {
      TimeoutsGrow(run, events, j, k - 1);
    }
  }

  // ---------- Where the receiver will get to ----------

  /** How far the chunks under way take a receiver that stands at `front`: it takes the ones it expects and passes
      over the others. */
  function Reach(front: nat, chunks: seq<Chunk>): (n: nat)
    ensures front <= n
    decreases |chunks|
  {
    if chunks == [] then front
    else Reach(if chunks[0].offset == front then front + |chunks[0].data| else front, chunks[1..])
  }

  lemma {:induction false} ReachAppend(front: nat, chunks: seq<Chunk>, c: Chunk)
    ensures Reach(front, chunks + [c]) ==
      var n := Reach(front, chunks); if c.offset == n then n + |c.data| else n
    decreases |chunks|
  {
    if chunks == [] {
      assert [c][1..] == [] && chunks + [c] == [c];
    } else {
      assert (chunks + [c])[1..] == chunks[1..] + [c];
      ReachAppend(if chunks[0].offset == front then front + |chunks[0].data| else front, chunks[1..], c);
    }
  }

  predicate OnTrack(w: Setup, c: Chunk)
    requires S.Runnable(w.SP()) && w.Size() > 0
  {
    S.GoodChunk(w.SP(), w.Size(), c) && Multiple(c.offset, w.Size())
  }

  lemma ChunkEnd(w: Setup, c: Chunk)
    requires S.Runnable(w.SP()) && w.Size() > 0 && OnTrack(w, c)
    ensures |c.data| == Min(w.Size(), |w.bytes| - c.offset) && OnGrid(w, c.offset + |c.data|)
    ensures c.offset + |c.data| <= |w.bytes|
  {
    assert Multiple(c.offset + w.Size(), w.Size());
  }

  lemma {:induction false} ReachOnGrid(w: Setup, front: nat, chunks: seq<Chunk>)
    requires S.Runnable(w.SP()) && w.Size() > 0 && OnGrid(w, front)
    requires forall i :: 0 <= i < |chunks| ==> OnTrack(w, chunks[i])
    ensures OnGrid(w, Reach(front, chunks))
    decreases |chunks|
  {
    if chunks != [] {
      ChunkEnd(w, chunks[0]);
      ReachOnGrid(w, if chunks[0].offset == front then front + |chunks[0].data| else front, chunks[1..]);
    }
  }

  /** A receiver that gets beyond the start of a chunk gets to its end. */
  lemma NoHalfChunk(w: Setup, c: Chunk, n: nat)
    requires S.Runnable(w.SP()) && w.Size() > 0 && OnTrack(w, c) && OnGrid(w, n) && c.offset < n
    ensures c.offset + |c.data| <= n
  {
    ChunkEnd(w, c);
    if n != |w.bytes| {
      MultipleDifference(n, c.offset, w.Size());
    }
  }

  // ---------- What such runs keep ----------

  predicate Busy(ph: R.Phase) { ph.Writing? || ph.Reporting? || ph.Committing? || ph.Completing? }

  predicate Before(ph: S.Phase) { ph.Offering? || ph.AwaitingAccept? }

  /** Where the two ends stand relative to each other. */
  predicate Standing(w: Setup, l: Link)
    requires S.Runnable(w.SP())
  {
    if Before(l.s.phase) then
      if l.r.phase.AwaitingOffer? || l.r.phase.Beginning? || l.r.phase.Accepting? then l.acks == []
      else (l.r.phase.AwaitingChunk? || l.r.phase.CommittingEmpty? || l.r.phase.Done?)
           && l.acks == [AcceptAck(w.id, w.Size())]
    else
      && !l.r.phase.AwaitingOffer? && !l.r.phase.Beginning? && !l.r.phase.Accepting?
      && forall i :: 0 <= i < |l.acks| ==> !l.acks[i].kind.Accept?
  }

  /** The receiver has reported all it has, or is about to. */
  predicate Tidy(w: Setup, r: R.State)
    requires S.Runnable(w.SP())
  {
    && (r.phase.AwaitingChunk? || r.phase.Writing? ==> r.lastProgress == r.nextOffset)
    && (r.phase.Writing? ==> |r.phase.data| == w.Size() || r.nextOffset + |r.phase.data| == |w.bytes|)
    && (r.phase.Done? ==> r.nextOffset == |w.bytes|)
  }

  predicate Short(w: Setup, acks: seq<Ack>) {
    forall i :: 0 <= i < |acks| && acks[i].kind.Progress? ==> acks[i].nextOffset < |w.bytes|
  }

  ghost predicate Alive(w: Setup, l: Link)
    requires S.Runnable(w.SP())
  {
    && Standing(w, l) && Tidy(w, l.r) && Short(w, l.acks)
    && !SenderFailed(l) && !ReceiverFailed(l)
    && (l.s.phase.Streaming? && l.r.phase.Done? ==> Latest(l) == |w.bytes|)
  }

  /** Nothing that was lost is still missing: an offer is under way if one is awaited, the chunks under way take the
      receiver as far as the sender has sent, and the receiver's position is reported or will be. */
  predicate Mended(w: Setup, l: Link) {
    && (l.s.phase.AwaitingAccept? && l.r.phase.AwaitingOffer? ==> l.offers != [])
    && (l.s.phase.Streaming? ==> l.s.nextToSend <= Reach(Front(l.r), l.chunks))
    && (l.s.phase.Streaming? && !l.r.phase.Done? ==>
          || Latest(l) == l.r.lastProgress || l.chunks != [] || Busy(l.r.phase)
          || l.s.nextToSend == l.s.lastAcked)
  }

  // ---------- The sender's steps ----------

  lemma OfferHeals(w: Setup, l: Link, res: S.SendAnswer)
    requires Fit(w, l) && Alive(w, l) && l.s.phase.Offering? && (res.SendErr? ==> res.kind == Timeout)
    ensures var t := Next(w, l, SenderSends(res)); Alive(w, t) && Mended(w, t) && t.s.phase.AwaitingAccept?
    ensures Next(w, l, SenderSends(res)).s.offerRetries == l.s.offerRetries
  {
  }

  lemma SendReaches(w: Setup, l: Link, c: Chunk)
    requires Fit(w, l) && l.s.phase.Streaming? && OnTrack(w, c) && c.offset == l.s.nextToSend
    requires l.s.nextToSend <= Reach(Front(l.r), l.chunks)
    ensures l.s.nextToSend + |c.data| <= Reach(Front(l.r), l.chunks + [c])
  {
    var n := Reach(Front(l.r), l.chunks);
    forall i | 0 <= i < |l.chunks|
      ensures OnTrack(w, l.chunks[i])
    {
      assert GoodChunk(w, l, l.chunks[i]);
    }
    ReachOnGrid(w, Front(l.r), l.chunks);
    ReachAppend(Front(l.r), l.chunks, c);
    if c.offset < n {
      NoHalfChunk(w, c, n);
    }
  }

  lemma ChunkSent(w: Setup, l: Link) returns (c: Chunk)
    requires Fit(w, l) && l.s.phase.Streaming? && S.CanSend(w.SP(), l.s)
    ensures OnTrack(w, c) && c.offset == l.s.nextToSend
    ensures var t := Next(w, l, SenderSends(S.Delivered));
      && t == l.(s := t.s, chunks := l.chunks + [c])
      && t.s == l.s.(nextToSend := l.s.nextToSend + |c.data|, chunksSent := t.s.chunksSent, sent := t.s.sent)
  {
    c := S.NextChunk(w.SP(), l.s);
    S.ChunkStep(w.SP(), l.s, SAnswer(SenderSends(S.Delivered), l));
  }

  lemma SendHeals(w: Setup, l: Link)
    requires Fit(w, l) && Alive(w, l) && l.s.phase.Streaming? && S.CanSend(w.SP(), l.s)
    ensures var t := Next(w, l, SenderSends(S.Delivered));
      Alive(w, t) && (Mended(w, l) ==> Mended(w, t)) && t.s.phase.Streaming? && t.s.retries == l.s.retries
  {
    var c := ChunkSent(w, l);
    if Mended(w, l) {
      SendReaches(w, l, c);
    }
  }

  lemma AckTaken(w: Setup, l: Link, t: Link)
    requires Fit(w, l) && S.Waiting(w.SP(), l.s) && l.acks != [] && t == Next(w, l, SenderGetsAck) && Alive(w, l)
    ensures t == l.(s := t.s, acks := l.acks[1..]) && t.s.nextToSend == l.s.nextToSend
    ensures t.s.lastAcked == if l.acks[0].kind.Accept? then l.s.lastAcked else l.acks[0].nextOffset
    ensures t.s.phase.Streaming? || Succeeded(t.s)
    ensures t.s.retries == l.s.retries
    ensures Latest(t) == Latest(l)
  {
    HeadAckWelcome(w, l);
    assert GoodAck(w, l, l.acks[0]);
  }

  lemma NoRoomMeansSent(w: Setup, s: S.State)
    requires SenderFit(w, s) && s.phase.Streaming? && !S.CanSend(w.SP(), s)
    ensures s.lastAcked < s.nextToSend
  {
  }

  lemma AckHeals(w: Setup, l: Link)
    requires Fit(w, l) && Alive(w, l) && S.Waiting(w.SP(), l.s) && l.acks != []
    ensures var t := Next(w, l, SenderGetsAck);
      && Alive(w, t) && (Mended(w, l) ==> Mended(w, t))
      && (t.s.phase.Streaming? ==> t.s.retries == l.s.retries) && !Before(t.s.phase)
  {
    var t := Next(w, l, SenderGetsAck);
    AckTaken(w, l, t);
    if l.s.phase.Streaming? {
      NoRoomMeansSent(w, l.s);
    }
  }

  /** A timeout within the limit mends everything: the sender goes back to what was acknowledged. */
  lemma TimeoutHeals(w: Setup, l: Link)
    requires Fit(w, l) && Alive(w, l) && S.Waiting(w.SP(), l.s)
    requires if l.s.phase.Streaming? then l.s.retries < w.config.maxRetries else l.s.offerRetries < w.config.maxRetries
    ensures var t := Next(w, l, SenderWaitFails(Timeout));
      && Alive(w, t) && Mended(w, t)
      && (if l.s.phase.Streaming? then t.s.phase.Streaming? && t.s.retries == l.s.retries + 1
          else t.s.phase.Offering? && t.s.offerRetries == l.s.offerRetries + 1)
  {
  }

  // ---------- The receiver's steps ----------

  lemma OfferTakenHeals(w: Setup, l: Link)
    requires Fit(w, l) && Alive(w, l) && Enabled(w, l, ReceiverGetsOffer)
    ensures var t := Next(w, l, ReceiverGetsOffer); Alive(w, t) && (Mended(w, l) ==> Mended(w, t)) && t.s == l.s
  {
    InputHonest(w, l, ReceiverGetsOffer);
    HonestAcks(w, l, RAnswer(ReceiverGetsOffer, l));
  }

  /** A chunk that is not the expected one is answered with the receiver's position. */
  lemma PassedOver(w: Setup, l: Link)
    requires Fit(w, l) && l.r.phase.AwaitingChunk? && l.chunks != [] && l.chunks[0].offset != l.r.nextOffset
    ensures Next(w, l, ReceiverGetsChunk) == l.(r := l.r.(phase := R.Reporting), chunks := l.chunks[1..])
  {
    assert GoodChunk(w, l, l.chunks[0]);
    ChunkOutcome(w, l.r, l.chunks[0]);
    var t := R.StepChunk(w.RP(), l.r, R.GotChunk(l.chunks[0]));
    assert t.calls[|l.r.calls|..] == [] && l.acks + [] == l.acks;
  }

  /** Taking the chunk at the head, by what becomes of the receiver. */
  lemma TakenKeeps(w: Setup, l: Link, t: Link)
    requires S.Runnable(w.SP()) && Alive(w, l) && l.r.phase.AwaitingChunk? && l.chunks != []
    requires !Before(l.s.phase) && t == l.(r := l.r.(phase := t.r.phase), chunks := l.chunks[1..])
    requires if l.chunks[0].offset == l.r.nextOffset
      then t.r.phase == R.Writing(l.chunks[0].data)
           && (|l.chunks[0].data| == w.Size() || l.r.nextOffset + |l.chunks[0].data| == |w.bytes|)
      else t.r.phase == R.Reporting
    ensures Alive(w, t) && (Mended(w, l) ==> Mended(w, t))
  {
  }

  lemma ChunkTakenHeals(w: Setup, l: Link)
    requires Fit(w, l) && Alive(w, l) && Enabled(w, l, ReceiverGetsChunk)
    ensures var t := Next(w, l, ReceiverGetsChunk); Alive(w, t) && (Mended(w, l) ==> Mended(w, t)) && t.s == l.s
  {
    if l.chunks[0].offset == l.r.nextOffset {
      TakenChunk(w, l);
    } else {
      PassedOver(w, l);
    }
    TakenKeeps(w, l, Next(w, l, ReceiverGetsChunk));
  }

  /** What an undisturbed action of the receiver does to the link. */
  lemma Acted(w: Setup, l: Link) returns (t: Link)
    requires Fit(w, l) && Alive(w, l) && Enabled(w, l, ReceiverActs(R.StoreOk, true))
    ensures t == Next(w, l, ReceiverActs(R.StoreOk, true)) && t == l.(r := t.r, acks := l.acks + ExpectedAcks(w, l.r))
    ensures ActShape(w, l.r, t.r)
  {
    var e := ReceiverActs(R.StoreOk, true);
    t := Next(w, l, e);
    InputHonest(w, l, e);
    HonestAcks(w, l, RAnswer(e, l));
    ActOutcome(w, l.r, RAnswer(e, l));
  }

  /** The same while the sender waits for the accept, and while it streams. */
  lemma EarlyActKeeps(w: Setup, l: Link, t: Link)
    requires S.Runnable(w.SP()) && Alive(w, l) && Before(l.s.phase) && ActShape(w, l.r, t.r)
    requires t == l.(r := t.r, acks := l.acks + ExpectedAcks(w, l.r))
    requires !l.r.phase.AwaitingOffer? && !l.r.phase.AwaitingChunk? && !l.r.phase.Done?
    requires l.r.nextOffset == 0 && (l.r.phase.Accepting? ==> l.r.lastProgress == 0)
    ensures Alive(w, t) && Mended(w, t)
  {
  }

  lemma StreamActKeeps(w: Setup, l: Link, t: Link)
    requires S.Runnable(w.SP()) && Alive(w, l) && !Before(l.s.phase) && ActShape(w, l.r, t.r)
    requires t == l.(r := t.r, acks := l.acks + ExpectedAcks(w, l.r))
    requires !l.r.phase.AwaitingChunk? && !l.r.phase.Done?
    requires l.r.phase.Reporting? ==> l.r.nextOffset < |w.bytes|
    requires l.r.phase.CommittingEmpty? ==> !l.s.phase.Streaming?
    ensures Alive(w, t) && (Mended(w, l) ==> Mended(w, t))
  {
    assert Latest(t) == if ExpectedAcks(w, l.r) == [] then Latest(l) else ExpectedAcks(w, l.r)[0].nextOffset;
  }

  lemma ActHeals(w: Setup, l: Link)
    requires Fit(w, l) && Alive(w, l) && Enabled(w, l, ReceiverActs(R.StoreOk, true))
    ensures var t := Next(w, l, ReceiverActs(R.StoreOk, true));
      Alive(w, t) && (Mended(w, l) ==> Mended(w, t)) && t.s == l.s
  {
    var t := Acted(w, l);
    if Before(l.s.phase) {
      EarlyActKeeps(w, l, t);
    } else {
      StreamActKeeps(w, l, t);
    }
  }

  // ---------- Every step, every run ----------

  lemma LossKeepsShort(w: Setup, acks: seq<Ack>, i: nat)
    requires i < |acks| && Short(w, acks)
    ensures Short(w, Drop(acks, i))
    ensures i < |acks| - 1 ==> Drop(acks, i) != [] && Drop(acks, i)[|acks| - 2] == acks[|acks| - 1]
    ensures forall k :: 0 <= k < |acks| - 1 ==> Drop(acks, i)[k] in acks
  {
    DropAt(acks, i);
  }

  lemma AckLossKeepsAlive(w: Setup, l: Link, t: Link, i: nat)
    requires S.Runnable(w.SP()) && Alive(w, l) && i < |l.acks| && l.acks[i].kind.Progress?
    requires t == l.(acks := Drop(l.acks, i))
    ensures Alive(w, t)
  {
    LossKeepsShort(w, l.acks, i);
    assert !Before(l.s.phase);
    assert l.s.phase.Streaming? && l.r.phase.Done? ==> i < |l.acks| - 1;
  }

  lemma LossKeepsAlive(w: Setup, l: Link, e: Event)
    requires Fit(w, l) && Alive(w, l) && Enabled(w, l, e) && Recoverable(l, e)
    ensures Alive(w, Next(w, l, e)) && Next(w, l, e).s == l.s
  {
    if e.LoseAck? {
      AckLossKeepsAlive(w, l, Next(w, l, e), e.i);
    }
  }

  lemma SmoothHeals(w: Setup, l: Link, e: Event)
    requires Fit(w, l) && Alive(w, l) && Enabled(w, l, e) && Smooth(l, e)
    ensures var t := Next(w, l, e);
      && Alive(w, t) && (Mended(w, l) ==> Mended(w, t))
      && (Before(t.s.phase) ==> Before(l.s.phase) && t.s.offerRetries == l.s.offerRetries)
      && (t.s.phase.Streaming? ==> !l.s.phase.Done? && t.s.retries == l.s.retries)
  {
    match e
    case SenderSends(res) =>
      if l.s.phase.Offering? {
        OfferHeals(w, l, res);
      } else {
        SendHeals(w, l);
      }
    case SenderGetsAck => AckHeals(w, l);
    case ReceiverListens =>
    case ReceiverGetsOffer => OfferTakenHeals(w, l);
    case ReceiverGetsChunk => ChunkTakenHeals(w, l);
    case ReceiverActs(_, _) => ActHeals(w, l);
  }

  /** The retries the sender has counted are the timeouts of the run. */
  predicate Counted(s: S.State, offers: nat, stream: nat) {
    && (Before(s.phase) ==> s.offerRetries == offers && stream == 0)
    && (s.phase.Streaming? ==> s.retries == stream)
  }

  lemma {:induction false} StepAlive(w: Setup, l: Link, e: Event, offers: nat, stream: nat)
    requires Fit(w, l) && Alive(w, l) && Enabled(w, l, e) && Counted(l.s, offers, stream)
    requires Smooth(l, e) || IsTimeout(e) || Recoverable(l, e)
    requires IsTimeout(e) ==> (if l.s.phase.Streaming? then stream else offers) < w.config.maxRetries
    ensures Alive(w, Next(w, l, e))
    ensures Counted(Next(w, l, e).s, offers + if IsTimeout(e) && !l.s.phase.Streaming? then 1 else 0,
                    stream + if IsTimeout(e) && l.s.phase.Streaming? then 1 else 0)
    ensures IsTimeout(e) || (Smooth(l, e) && Mended(w, l)) ==> Mended(w, Next(w, l, e))
  {
    if IsTimeout(e) {
      TimeoutHeals(w, l);
    } else if Smooth(l, e) {
      SmoothHeals(w, l, e);
    } else {
      LossKeepsAlive(w, l, e);
    }
  }

  lemma LossesBefore(run: seq<Link>, events: seq<Event>, k: nat)
    requires 0 < k <= |events| < |run| && LossesTimedOut(run, events, k) && !IsTimeout(events[k - 1])
    ensures LossesTimedOut(run, events, k - 1) && !Recoverable(run[k - 1], events[k - 1])
  {
  }

  lemma {:induction false} RunMended(w: Setup, run: seq<Link>, events: seq<Event>, k: nat)
    requires Honest(w) && IsRun(w, run, events) && Patient(w, run, events) && k <= |events|
    requires LossesTimedOut(run, events, k)
    ensures Mended(w, run[k])
  {
    if k > 0 {
      RunAlive(w, run, events, k - 1);
      if !IsTimeout(events[k - 1]) {
        LossesBefore(run, events, k);
        RunMended(w, run, events, k - 1);
      }
      EventAlive(w, run, events, k - 1);
    }
  }

  lemma AliveInit(w: Setup)
    requires Honest(w)
    ensures Alive(w, Init(w)) && Counted(Init(w).s, 0, 0)
  {
  }

  /** One event of a patient run. */
  lemma {:induction false} PatientStep(w: Setup, run: seq<Link>, events: seq<Event>, k: nat)
      returns (l: Link, e: Event, offers: nat, stream: nat)
    requires Honest(w) && IsRun(w, run, events) && Patient(w, run, events) && k < |events|
    ensures l == run[k] && e == events[k] && Fit(w, l) && Enabled(w, l, e) && run[k + 1] == Next(w, l, e)
    ensures Smooth(l, e) || IsTimeout(e) || Recoverable(l, e)
    ensures offers == OfferTimeouts(run, events, k) && stream == StreamTimeouts(run, events, k)
    ensures IsTimeout(e) ==> (if l.s.phase.Streaming? then stream else offers) < w.config.maxRetries
    ensures OfferTimeouts(run, events, k + 1) == offers + if IsTimeout(e) && !l.s.phase.Streaming? then 1 else 0
    ensures StreamTimeouts(run, events, k + 1) == stream + if IsTimeout(e) && l.s.phase.Streaming? then 1 else 0
  {
    RunInv(w, run, events, k);
    TimeoutsGrow(run, events, k + 1, |events|);
    l, e, offers, stream := run[k], events[k], OfferTimeouts(run, events, k), StreamTimeouts(run, events, k);
  }

  lemma {:induction false} EventAlive(w: Setup, run: seq<Link>, events: seq<Event>, k: nat)
    requires Honest(w) && IsRun(w, run, events) && Patient(w, run, events) && k < |events|
    requires Alive(w, run[k]) && Counted(run[k].s, OfferTimeouts(run, events, k), StreamTimeouts(run, events, k))
    ensures Alive(w, run[k + 1])
    ensures Counted(run[k + 1].s, OfferTimeouts(run, events, k + 1), StreamTimeouts(run, events, k + 1))
    ensures IsTimeout(events[k]) || (!Recoverable(run[k], events[k]) && Mended(w, run[k])) ==> Mended(w, run[k + 1])
  {
    var l, e, offers, stream := PatientStep(w, run, events, k);
    StepAlive(w, l, e, offers, stream);
  }

  lemma {:induction false} RunAlive(w: Setup, run: seq<Link>, events: seq<Event>, k: nat)
    requires Honest(w) && IsRun(w, run, events) && Patient(w, run, events) && k <= |events|
    ensures Alive(w, run[k])
    ensures Counted(run[k].s, OfferTimeouts(run, events, k), StreamTimeouts(run, events, k))
  {
    if k == 0 {
      AliveInit(w);
    } else {
      RunAlive(w, run, events, k - 1);
      EventAlive(w, run, events, k - 1);
    }
  }

  /** No mutual wait: when nothing is missing, something can move until both ends have succeeded. */
  lemma MendedIsNotStuck(w: Setup, l: Link)
    requires Fit(w, l) && Alive(w, l) && Mended(w, l) && Stuck(w, l)
    ensures Succeeded(l.s) && l.r.phase.Done? && l.r.phase.outcome.Received?
  {
    assert !Enabled(w, l, SenderSends(S.Delivered));
    assert !Enabled(w, l, SenderGetsAck);
    assert !Enabled(w, l, ReceiverListens);
    assert !Enabled(w, l, ReceiverGetsOffer);
    assert !Enabled(w, l, ReceiverGetsChunk);
    assert !Enabled(w, l, ReceiverActs(R.StoreOk, true));
  }

  /** Offers, chunks and progress acks may be lost and timeouts may come early or late: if the timeouts stay within the
      retry limit and the last loss is followed by a timeout, a run that can go no further without another one has
      succeeded at both ends, with the file stored. */
  lemma LossesAreRecovered(w: Setup, run: seq<Link>, events: seq<Event>)
    requires Honest(w) && IsRun(w, run, events) && Patient(w, run, events)
    requires LossesTimedOut(run, events, |events|)
    ensures var l := run[|events|];
      && S.Valid(w.SP(), l.s) && R.Valid(l.r)
      && (Stuck(w, l) ==>
            && Succeeded(l.s)
            && l.r.phase.Done? && l.r.phase.outcome.Received?
            && Verdict(w, l.r).Committed? && Verdict(w, l.r).image == w.bytes)
  {
    var l := run[|events|];
    RunInv(w, run, events, |events|);
    if Stuck(w, l) {
      RunAlive(w, run, events, |events|);
      RunMended(w, run, events, |events|);
      MendedIsNotStuck(w, l);
      SucceededHasStored(w, l);
    }
  }
}
