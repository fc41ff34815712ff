/** Every run of the honest pair over lossy FIFO channels is finite, with an explicit bound that is linear
    in the number of chunks and in the number of retries. */
module BoundedRuns {
  import opened Basics
  import opened TransferTypes
  import opened TransferPair
  import opened FifoPair
  import opened NoFalseAlarm
  import S = Sender
  import R = Receiver

  /** Work one retry can cause: the timeout itself, and a window of chunks sent, handled and acknowledged. */
  function RetryCost(w: Setup): nat { 1 + 5 * w.config.windowChunks }

  /** Work of the streaming phase with `left` retries and `unsent` chunks to go. */
  function StreamWork(w: Setup, left: nat, unsent: nat): nat {
    left * RetryCost(w) + 5 * unsent
  }

  function AllWork(w: Setup): nat
    requires S.Runnable(w.SP()) && w.Size() > 0
  {
    StreamWork(w, w.config.maxRetries + 1, DivCeil(|w.bytes|, w.Size()))
  }

  function SenderRank(w: Setup, s: S.State): int
    requires S.Runnable(w.SP()) && w.Size() > 0 && S.Valid(w.SP(), s)
  {
    match s.phase
    case Done(_) => 0
    case Offering => 3 * (w.config.maxRetries - s.offerRetries) + 3 + AllWork(w)
    case AwaitingAccept => 3 * (w.config.maxRetries - s.offerRetries) + 1 + AllWork(w)
    case Streaming =>
      if s.retries > w.config.maxRetries then 0
      else StreamWork(w, w.config.maxRetries + 1 - s.retries, DivCeil(|w.bytes| - s.nextToSend, w.Size()))
  }

  function ReceiverRank(r: R.State): nat {
    match r.phase
    case Done(_) => 0
    case AwaitingChunk => 1
    case CommittingEmpty => 1
    case Completing => 2
    case Reporting => 3
    case Committing => 3
    case Accepting => 3
    case Writing(_) => 4
    case Beginning => 4
    case AwaitingOffer => 4
  }

  /** A bound on the number of events still possible. */
  function Potential(w: Setup, l: Link): int
    requires S.Runnable(w.SP()) && w.Size() > 0 && S.Valid(w.SP(), l.s)
  {
    SenderRank(w, l.s) + ReceiverRank(l.r) + (if l.listening then 0 else 1) + 4 * |l.chunks| + |l.offers| + |l.acks|
  }

  lemma StreamWorkPositive(w: Setup, left: nat, unsent: nat)
    requires left > 0
    ensures StreamWork(w, left, unsent) >= 1 + 5 * unsent
  {
    MulMonotone(1, left, RetryCost(w));
  }

  lemma PotentialNonNegative(w: Setup, l: Link)
    requires Fit(w, l)
    ensures Potential(w, l) >= 0
  {
    StreamWorkPositive(w, w.config.maxRetries + 1, DivCeil(|w.bytes|, w.Size()));
    if l.s.phase.Streaming? {
      StreamWorkPositive(w, w.config.maxRetries + 1 - l.s.retries, DivCeil(|w.bytes| - l.s.nextToSend, w.Size()));
    }
  }

  lemma SendLowers(w: Setup, l: Link, res: S.SendAnswer)
    requires Fit(w, l) && Transmitting(w, l.s)
    ensures Potential(w, Next(w, l, SenderSends(res))) < Potential(w, l)
  {
    if l.s.phase.Offering? {
      StreamWorkPositive(w, w.config.maxRetries + 1, DivCeil(|w.bytes|, w.Size()));
    } else {
      StreamWorkPositive(w, w.config.maxRetries + 1 - l.s.retries, DivCeil(|w.bytes| - l.s.nextToSend, w.Size()));
    }
  }

  lemma TimeoutLowers(w: Setup, s: S.State)
    requires SenderFit(w, s) && s.phase.Streaming? && s.retries < w.config.maxRetries
    ensures SenderRank(w, s.(retries := s.retries + 1, nextToSend := s.lastAcked)) < SenderRank(w, s)
  {
    var left := w.config.maxRetries - s.retries;
    DivCeilGrowth(|w.bytes| - s.nextToSend, |w.bytes| - s.lastAcked, w.Size(), w.config.windowChunks);
    MulAdd(left, 1, RetryCost(w));
  }

  lemma WaitFailLowers(w: Setup, l: Link, kind: ErrorKind)
    requires Fit(w, l) && S.Waiting(w.SP(), l.s)
    ensures Potential(w, Next(w, l, SenderWaitFails(kind))) < Potential(w, l)
  {
    StreamWorkPositive(w, w.config.maxRetries + 1, DivCeil(|w.bytes|, w.Size()));
    if l.s.phase.Streaming? {
      StreamWorkPositive(w, w.config.maxRetries + 1 - l.s.retries, DivCeil(|w.bytes| - l.s.nextToSend, w.Size()));
      if l.s.retries < w.config.maxRetries {
        TimeoutLowers(w, l.s);
      }
    }
  }

  lemma AckLowers(w: Setup, l: Link)
    requires Fit(w, l) && S.Waiting(w.SP(), l.s) && l.acks != []
    ensures Potential(w, Next(w, l, SenderGetsAck)) < Potential(w, l)
  {
    HeadAckWelcome(w, l);
    assert GoodAck(w, l, l.acks[0]);
    StreamWorkPositive(w, w.config.maxRetries + 1, DivCeil(|w.bytes|, w.Size()));
    if l.s.phase.Streaming? {
      StreamWorkPositive(w, w.config.maxRetries + 1 - l.s.retries, DivCeil(|w.bytes| - l.s.nextToSend, w.Size()));
    }
  }

  /** A receiver step pays for its acks. */
  lemma ReceiverLowers(w: Setup, r: R.State, b: R.Answer)
    requires ReceiverFit(w, r) && !r.phase.Done?
    requires r.phase.AwaitingChunk? && b.chunk.GotChunk? ==> S.GoodChunk(w.SP(), w.Size(), b.chunk.chunk)
    ensures var t := R.Step(w.RP(), r, b);
      ReceiverRank(t) + |ExpectedAcks(w, r)| <
        ReceiverRank(r) + (if r.phase.AwaitingChunk? && b.chunk.GotChunk? then 4 else 0)
                        + (if r.phase.AwaitingOffer? && b.offer.GotOffer? then 1 else 0)
  {
    if r.phase.AwaitingChunk? && b.chunk.GotChunk? {
      ChunkOutcome(w, r, b.chunk.chunk);
    }
  }

  lemma ReceiverEventLowers(w: Setup, l: Link, e: Event)
    requires Fit(w, l) && Enabled(w, l, e) && OfReceiver(e)
    ensures Potential(w, Next(w, l, e)) < Potential(w, l)
  {
    var b := RAnswer(e, l);
    InputHonest(w, l, e);
    HonestAcks(w, l, b);
    ReceiverLowers(w, l.r, b);
  }

  lemma NextLowers(w: Setup, l: Link, e: Event)
    requires Fit(w, l) && Enabled(w, l, e)
    ensures Potential(w, Next(w, l, e)) < Potential(w, l)
  {
    match e
    case SenderSends(res) => SendLowers(w, l, res);
    case SenderGetsAck => AckLowers(w, l);
    case SenderWaitFails(kind) => WaitFailLowers(w, l, kind);
    case ReceiverListens =>
    case ReceiverGetsOffer => ReceiverEventLowers(w, l, e);
    case ReceiverGetsChunk => ReceiverEventLowers(w, l, e);
    case ReceiverWaitFails => ReceiverEventLowers(w, l, e);
    case ReceiverActs(_, _) => ReceiverEventLowers(w, l, e);
    case _ =>
  }

  lemma {:induction false} RunLowers(w: Setup, run: seq<Link>, events: seq<Event>, k: nat)
    requires Honest(w) && IsRun(w, run, events) && k < |run|
    ensures Fit(w, run[k]) && k + Potential(w, run[k]) <= Potential(w, Init(w))
  {
    RunInv(w, run, events, k);
    if k > 0 {
      RunLowers(w, run, events, k - 1);
      NextLowers(w, run[k - 1], events[k - 1]);
    }
  }

  /** Every run is finite: with n = ceil(total / chunk) chunks, window W and X retries, it has at most
      5n + (X + 1)(5W + 1) + 3X + 8 events. */
  lemma RunsAreBounded(w: Setup, run: seq<Link>, events: seq<Event>)
    requires Honest(w) && IsRun(w, run, events)
    ensures S.Runnable(w.SP()) && w.Size() > 0
    ensures |events| <= 5 * DivCeil(|w.bytes|, w.Size())
                      + (w.config.maxRetries + 1) * (5 * w.config.windowChunks + 1)
                      + 3 * w.config.maxRetries + 8
  {
    RunLowers(w, run, events, |events|);
    PotentialNonNegative(w, run[|events|]);
  }

  // ---------- Where runs stop ----------

  predicate IsLoss(e: Event) { e.LoseOffer? || e.LoseChunk? || e.LoseAck? }

  /** Neither end can take another step, whatever the surroundings do. */
  ghost predicate Stopped(w: Setup, l: Link)
    requires S.Valid(w.SP(), l.s) && R.Valid(l.r)
  {
    forall e :: !IsLoss(e) ==> !Enabled(w, l, e)
  }

  /** The sender has returned and the receiver listens for an offer that will never come. */
  predicate Hung(l: Link) {
    l.s.phase.Done? && l.r.phase.AwaitingOffer? && l.listening && l.offers == []
  }

  /** Some step of either end, unless both have returned or the receiver hangs. */
  lemma SomeStep(w: Setup, l: Link) returns (e: Event)
    requires S.Valid(w.SP(), l.s) && R.Valid(l.r) && !(l.s.phase.Done? && l.r.phase.Done?) && !Hung(l)
    ensures Enabled(w, l, e) && !IsLoss(e)
  {
    if Transmitting(w, l.s) {
      e := SenderSends(S.Delivered);
    } else if !l.s.phase.Done? {
      e := SenderWaitFails(Timeout);
    } else if l.r.phase.AwaitingOffer? {
      e := if l.listening then ReceiverGetsOffer else ReceiverListens;
    } else if l.r.phase.AwaitingChunk? {
      e := ReceiverWaitFails;
    } else {
      e := ReceiverActs(R.StoreOk, true);
    }
  }

  /** A run stops exactly when both ends have returned, or when the sender has and the receiver still listens
      for an offer with none on the way: its wait for the offer has no timeout. */
  lemma StoppedIff(w: Setup, l: Link)
    requires S.Valid(w.SP(), l.s) && R.Valid(l.r)
    ensures Stopped(w, l) <==> (l.s.phase.Done? && l.r.phase.Done?) || Hung(l)
  {
    if !(l.s.phase.Done? && l.r.phase.Done?) && !Hung(l) {
      var e := SomeStep(w, l);
    }
  }

  lemma ExtendRun(w: Setup, run: seq<Link>, events: seq<Event>, e: Event)
    requires IsRun(w, run, events)
    requires var l := run[|events|]; S.Valid(w.SP(), l.s) && R.Valid(l.r) && Enabled(w, l, e)
    ensures IsRun(w, run + [Next(w, run[|events|], e)], events + [e])
  {
    var run', events' := run + [Next(w, run[|events|], e)], events + [e];
    forall i | 0 <= i < |events'|
      ensures S.Valid(w.SP(), run'[i].s) && R.Valid(run'[i].r) && Enabled(w, run'[i], events'[i])
      ensures run'[i + 1] == Next(w, run'[i], events'[i])
    {
      if i < |events| {
        assert run'[i] == run[i] && run'[i + 1] == run[i + 1] && events'[i] == events[i];
      }
    }
  }

  /** The sender after `n` offers that were lost and waited for in vain. */
  function InVain(w: Setup, n: nat): S.State
    requires S.Runnable(w.SP())
  {
    S.Init(w.SP()).(offerRetries := n, sent := seq(n, _ => S.OfferMsg(S.TheOffer(w.SP()))))
  }

  lemma OneOfferInVain(w: Setup, run: seq<Link>, events: seq<Event>, n: nat)
      returns (run': seq<Link>, events': seq<Event>)
    requires S.Runnable(w.SP()) && IsRun(w, run, events) && n <= w.config.maxRetries
    requires run[|events|] == Link(InVain(w, n), R.Init(), true, [], [], [])
    ensures IsRun(w, run', events')
    ensures if n < w.config.maxRetries
      then run'[|events'|] == Link(InVain(w, n + 1), R.Init(), true, [], [], [])
      else Hung(run'[|events'|]) && run'[|events'|].r == R.Init()
  {
    var l0 := run[|events|];
    ExtendRun(w, run, events, SenderSends(S.Delivered));
    var l1 := Next(w, l0, SenderSends(S.Delivered));
    ExtendRun(w, run + [l1], events + [SenderSends(S.Delivered)], LoseOffer(0));
    var l2 := Next(w, l1, LoseOffer(0));
    run', events' := run + [l1] + [l2], events + [SenderSends(S.Delivered)] + [LoseOffer(0)];
    ExtendRun(w, run', events', SenderWaitFails(Timeout));
    run', events' := run' + [Next(w, l2, SenderWaitFails(Timeout))], events' + [SenderWaitFails(Timeout)];
    assert InVain(w, n).sent + [S.OfferMsg(S.TheOffer(w.SP()))] == InVain(w, n + 1).sent;
  }

  lemma {:induction false} OffersInVain(w: Setup, n: nat) returns (run: seq<Link>, events: seq<Event>)
    requires S.Runnable(w.SP()) && n <= w.config.maxRetries
    ensures IsRun(w, run, events) && run[|events|] == Link(InVain(w, n), R.Init(), true, [], [], [])
  {
    if n == 0 {
      run, events := OnlyListens(w);
    } else {
      run, events := OffersInVain(w, n - 1);
      run, events := OneOfferInVain(w, run, events, n - 1);
    }
  }

  lemma OnlyListens(w: Setup) returns (run: seq<Link>, events: seq<Event>)
    ensures IsRun(w, run, events) && run[|events|] == Init(w).(listening := true)
  {
    ExtendRun(w, [Init(w)], [], ReceiverListens);
    run, events := [Init(w)] + [Next(w, Init(w), ReceiverListens)], [] + [ReceiverListens];
  }

  /** That hang is real for every transfer: if every offer is lost, the sender gives up after its retries and the
      receiver waits forever; with a configuration that the sender refuses, it does so at once. */
  lemma ReceiverCanHang(w: Setup) returns (run: seq<Link>, events: seq<Event>)
    ensures IsRun(w, run, events) && Hung(run[|events|])
    ensures var l := run[|events|]; S.Valid(w.SP(), l.s) && R.Valid(l.r) && Stopped(w, l)
  {
    if S.Runnable(w.SP()) {
      run, events := OffersInVain(w, w.config.maxRetries);
      run, events := OneOfferInVain(w, run, events, w.config.maxRetries);
    } else {
      run, events := OnlyListens(w);
    }
    StoppedIff(w, run[|events|]);
  }
}
