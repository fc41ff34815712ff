/** The limit of recovery: the accept and the completion are sent once, and the loss of either dooms the sender. */
module LostAcks {
  import opened Basics
  import opened TransferTypes
  import opened TransferPair
  import opened FifoPair
  import opened NoFalseAlarm
  import opened LosslessRuns
  import opened Recovery
  import S = Sender
  import R = Receiver

  /** The completion is the last ack, and a sender that has succeeded has taken all of them. */
  predicate Settled(l: Link) {
    && (forall i :: 0 <= i < |l.acks| && l.acks[i].kind.Complete? ==> l.r.phase.Done? && i == |l.acks| - 1)
    && (Succeeded(l.s) ==> l.acks == [] && (l.r.phase.Done? || l.r.phase.CommittingEmpty?))
  }

  lemma AckSettles(w: Setup, l: Link)
    requires Fit(w, l) && Alive(w, l) && Settled(l) && S.Waiting(w.SP(), l.s) && l.acks != []
    ensures Settled(Next(w, l, SenderGetsAck))
  {
    var t := Next(w, l, SenderGetsAck);
    AckTaken(w, l, t);
    assert GoodAck(w, l, l.acks[0]);
    assert forall i :: 0 <= i < |t.acks| ==> t.acks[i] == l.acks[i + 1];
    assert Succeeded(t.s) ==> t.s.lastAcked == |w.bytes|;
  }

  lemma ActSettles(w: Setup, l: Link, t: Link)
    requires S.Runnable(w.SP()) && Settled(l) && ActShape(w, l.r, t.r)
    requires t == l.(r := t.r, acks := l.acks + ExpectedAcks(w, l.r))
    requires !l.r.phase.AwaitingOffer? && !l.r.phase.AwaitingChunk? && !l.r.phase.Done?
    ensures Settled(t)
  {
    assert forall i :: 0 <= i < |l.acks| ==> !l.acks[i].kind.Complete?;
  }

  lemma LossSettles(l: Link, t: Link, i: nat)
    requires Settled(l) && i < |l.acks| && l.acks[i].kind.Progress? && t == l.(acks := Drop(l.acks, i))
    ensures Settled(t)
  {
    DropAt(l.acks, i);
    forall k | 0 <= k < |t.acks| && t.acks[k].kind.Complete?
      ensures t.r.phase.Done? && k == |t.acks| - 1
    {
      assert t.acks[k] == l.acks[if k >= i then k + 1 else k];
    }
  }

  lemma ChunkSettles(w: Setup, l: Link)
    requires Fit(w, l) && Settled(l) && Enabled(w, l, ReceiverGetsChunk)
    ensures Settled(Next(w, l, ReceiverGetsChunk))
  {
    if l.chunks[0].offset == l.r.nextOffset {
      TakenChunk(w, l);
    } else {
      PassedOver(w, l);
    }
  }

  lemma OfferSettles(w: Setup, l: Link)
    requires Fit(w, l) && Settled(l) && Enabled(w, l, ReceiverGetsOffer)
    ensures Settled(Next(w, l, ReceiverGetsOffer))
  {
    InputHonest(w, l, ReceiverGetsOffer);
    HonestAcks(w, l, RAnswer(ReceiverGetsOffer, l));
  }

  lemma ActsSettles(w: Setup, l: Link)
    requires Fit(w, l) && Alive(w, l) && Settled(l) && Enabled(w, l, ReceiverActs(R.StoreOk, true))
    ensures Settled(Next(w, l, ReceiverActs(R.StoreOk, true)))
  {
    var t := Acted(w, l);
    ActSettles(w, l, t);
  }

  lemma SenderSettles(w: Setup, l: Link, e: Event)
    requires Fit(w, l) && Settled(l) && Enabled(w, l, e) && (e.SenderSends? || e.SenderWaitFails?)
    ensures Settled(Next(w, l, e))
  {
    assert Next(w, l, e).acks == l.acks && Next(w, l, e).r == l.r;
  }

  lemma StepSettles(w: Setup, l: Link, e: Event)
    requires Fit(w, l) && Alive(w, l) && Settled(l) && Enabled(w, l, e)
    requires Smooth(l, e) || IsTimeout(e) || Recoverable(l, e)
    ensures Settled(Next(w, l, e))
  {
    match e
    case SenderSends(_) => SenderSettles(w, l, e);
    case SenderWaitFails(_) => SenderSettles(w, l, e);
    case SenderGetsAck => AckSettles(w, l);
    case ReceiverGetsOffer => OfferSettles(w, l);
    case ReceiverGetsChunk => ChunkSettles(w, l);
    case ReceiverActs(_, _) => ActsSettles(w, l);
    case LoseAck(i) => LossSettles(l, Next(w, l, e), i);
    case _ =>
  }

  lemma {:induction false} RunSettled(w: Setup, run: seq<Link>, events: seq<Event>, k: nat)
    requires Honest(w) && IsRun(w, run, events) && Patient(w, run, events) && k <= |events|
    ensures Settled(run[k])
  {
    if k > 0 {
      RunSettled(w, run, events, k - 1);
      RunAlive(w, run, events, k - 1);
      var l, e, offers, stream := PatientStep(w, run, events, k - 1);
      StepSettles(w, l, e);
    }
  }

  /** Acks that leave something to be acknowledged. */
  predicate OnlyProgress(w: Setup, acks: seq<Ack>) {
    forall i :: 0 <= i < |acks| ==> acks[i].kind.Progress? && acks[i].nextOffset < |w.bytes|
  }

  /** The sender cannot succeed any more: it waits for an accept that will not come again, or for a completion. */
  predicate Doomed(w: Setup, l: Link) {
    || SenderFailed(l)
    || (Before(l.s.phase) && l.acks == []
        && (l.r.phase.AwaitingChunk? || l.r.phase.CommittingEmpty? || l.r.phase.Done?))
    || (l.s.phase.Streaming? && l.r.phase.Done? && OnlyProgress(w, l.acks))
  }

  lemma AckStaysDoomed(w: Setup, l: Link)
    requires Fit(w, l) && Doomed(w, l) && S.Waiting(w.SP(), l.s) && l.acks != []
    ensures Doomed(w, Next(w, l, SenderGetsAck))
  {
    HeadAckWelcome(w, l);
    var t := Next(w, l, SenderGetsAck);
    assert forall i :: 0 <= i < |t.acks| ==> t.acks[i] == l.acks[i + 1];
  }

  lemma ReceiverStaysDoomed(w: Setup, l: Link, e: Event)
    requires Fit(w, l) && Doomed(w, l) && Enabled(w, l, e) && OfReceiver(e)
    ensures Doomed(w, Next(w, l, e))
  {
    if !SenderFailed(l) {
      InputHonest(w, l, e);
      HonestAcks(w, l, RAnswer(e, l));
    }
  }

  lemma LossStaysDoomed(w: Setup, l: Link, i: nat)
    requires S.Valid(w.SP(), l.s) && R.Valid(l.r) && Doomed(w, l) && i < |l.acks|
    ensures Doomed(w, Next(w, l, LoseAck(i)))
  {
    DropAt(l.acks, i);
  }

  lemma StaysDoomed(w: Setup, l: Link, e: Event)
    requires Fit(w, l) && Doomed(w, l) && Enabled(w, l, e)
    ensures Doomed(w, Next(w, l, e))
  {
    match e
    case SenderGetsAck => AckStaysDoomed(w, l);
    case LoseAck(i) => LossStaysDoomed(w, l, i);
    case _ =>
      if OfReceiver(e) {
        ReceiverStaysDoomed(w, l, e);
      }
  }

  lemma LossDooms(w: Setup, l: Link, i: nat)
    requires Fit(w, l) && Alive(w, l) && Settled(l) && i < |l.acks| && !l.acks[i].kind.Progress?
    ensures Doomed(w, Next(w, l, LoseAck(i)))
  {
    assert GoodAck(w, l, l.acks[i]);
    DropAt(l.acks, i);
    var t := Next(w, l, LoseAck(i));
    if !Before(l.s.phase) {
      forall k | 0 <= k < |t.acks|
        ensures t.acks[k].kind.Progress? && t.acks[k].nextOffset < |w.bytes|
      {
        var j := if k >= i then k + 1 else k;
        assert t.acks[k] == l.acks[j] && GoodAck(w, l, l.acks[j]);
      }
    }
  }

  lemma {:induction false} DoomedEvent(w: Setup, run: seq<Link>, events: seq<Event>, k: nat, l: Link, t: Link)
    requires Honest(w) && IsRun(w, run, events) && k < |events| && l == run[k] && t == run[k + 1] && Doomed(w, l)
    ensures Doomed(w, t)
  {
    RunInv(w, run, events, k);
    StaysDoomed(w, l, events[k]);
  }

  /** From event `k` on, `m` events later. */
  lemma {:induction false} DoomedOn(w: Setup, run: seq<Link>, events: seq<Event>, k: nat, m: nat)
    requires Honest(w) && IsRun(w, run, events) && k + m <= |events| && Doomed(w, run[k])
    ensures Doomed(w, run[k + m])
    decreases m
  {
    if m > 0 {
      var l, t := run[k], run[k + 1];
      DoomedEvent(w, run, events, k, l, t);
      DoomedOn(w, run, events, k + 1, m - 1);
    }
  }

  lemma PrefixIsRun(w: Setup, run: seq<Link>, events: seq<Event>, k: nat)
    requires IsRun(w, run, events) && k <= |events|
    ensures IsRun(w, run[..k + 1], events[..k])
  {
  }

  lemma {:induction false} PatientPrefix(w: Setup, run: seq<Link>, events: seq<Event>, k: nat) returns (l: Link)
    requires Honest(w) && IsRun(w, run, events) && k <= |events| && Patient(w, run[..k + 1], events[..k])
    ensures l == run[k] && Fit(w, l) && Alive(w, l) && Settled(l)
  {
    var r, e := run[..k + 1], events[..k];
    l := r[k];
    PrefixIsRun(w, run, events, k);
    RunAlive(w, r, e, k);
    RunSettled(w, r, e, k);
    RunInv(w, r, e, k);
  }

  lemma {:induction false} LossMoment(w: Setup, run: seq<Link>, events: seq<Event>, k: nat)
    requires Honest(w) && IsRun(w, run, events) && k < |events| && Patient(w, run[..k + 1], events[..k])
    requires events[k].LoseAck? && !Recoverable(run[k], events[k])
    ensures Doomed(w, run[k + 1])
  {
    var l := PatientPrefix(w, run, events, k);
    LossDooms(w, l, events[k].i);
  }

  /** The exact limit of recovery: the accept and the completion are sent once, and after the loss of either the sender
      never succeeds, whatever happens from then on. */
  lemma {:induction false} LostForGood(w: Setup, run: seq<Link>, events: seq<Event>, k: nat, m: nat)
    requires Honest(w) && IsRun(w, run, events) && k < m <= |events| && Patient(w, run[..k + 1], events[..k])
    requires events[k].LoseAck? && !Recoverable(run[k], events[k])
    ensures !Succeeded(run[m].s)
  {
    LossMoment(w, run, events, k);
    DoomedOn(w, run, events, k + 1, m - k - 1);
    DoomedFails(w, run[m]);
  }

  lemma DoomedFails(w: Setup, l: Link)
    requires Doomed(w, l)
    ensures !Succeeded(l.s)
  {
  }
}
