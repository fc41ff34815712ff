/** End-to-end agreement over channels that may lose, duplicate, reorder and delay messages, and carry
    messages of other transfers: at every delivery any message sent so far may arrive. */
module Agreement {
  import opened Basics
  import opened TransferTypes
  import opened TransferPair
  import S = Sender
  import R = Receiver
  import M = ReceiverSafety

  datatype Pair = Pair(s: S.State, r: R.State)

  /** One await of either end is answered. Timeouts and transport or store errors are ordinary answers. */
  datatype Event = SenderEvent(a: S.Answer) | ReceiverEvent(b: R.Answer)

  function Init(w: Setup): Pair { Pair(S.Init(w.SP()), R.Init()) }

  predicate Allowed(w: Setup, st: Pair, e: Event) {
    match e
    case SenderEvent(a) => TrueAck(w, st.r, a.wait)
    case ReceiverEvent(b) => TrueMessage(w, st.s, b)
  }

  function Next(w: Setup, st: Pair, e: Event): Pair
    requires S.Valid(w.SP(), st.s) && R.Valid(st.r)
  {
    match e
    case SenderEvent(a) => st.(s := S.Step(w.SP(), st.s, a))
    case ReceiverEvent(b) => st.(r := R.Step(w.RP(), st.r, b))
  }

  /** `st` can be reached by the events, each allowed when it happens. */
  ghost predicate Reaches(w: Setup, events: seq<Event>, st: Pair)
    decreases |events|
  {
    if events == [] then st == Init(w)
    else
      var last := |events| - 1;
      exists pre ::
        && Reaches(w, events[..last], pre)
        && S.Valid(w.SP(), pre.s) && R.Valid(pre.r)
        && Allowed(w, pre, events[last]) && st == Next(w, pre, events[last])
  }

  lemma {:induction false} ReachableInv(w: Setup, events: seq<Event>, st: Pair)
    requires Reaches(w, events, st)
    ensures PairInv(w, st.s, st.r)
    decreases |events|
  {
    if events != [] {
      var last := |events| - 1;
      var pre :|
        && Reaches(w, events[..last], pre)
        && S.Valid(w.SP(), pre.s) && R.Valid(pre.r)
        && Allowed(w, pre, events[last]) && st == Next(w, pre, events[last]);
      ReachableInv(w, events[..last], pre);
      match events[last]
      case SenderEvent(a) => SenderStepKeeps(w, pre.s, pre.r, a);
      case ReceiverEvent(b) => ReceiverStepKeeps(w, pre.s, pre.r, b);
    }
  }

  /** The receiver has committed, and the store holds exactly the sender's bytes. */
  predicate StoreHolds(w: Setup, r: R.State) {
    Verdict(w, r).Committed? && Verdict(w, r).image == w.bytes
  }

  /** Whenever the sender of a non-empty file returns Ok, the receiver has already committed exactly
      that file, whatever was lost, duplicated, reordered or timed out on the way. */
  lemma SenderOkMeansStored(w: Setup, events: seq<Event>, st: Pair)
    requires Reaches(w, events, st) && Succeeded(st.s) && |w.bytes| > 0
    ensures StoreHolds(w, st.r) && S.Runnable(w.SP()) && st.r.offer == S.TheOffer(w.SP())
  {
    ReachableInv(w, events, st);
    CommittedBytes(w, st.r);
  }

  /** A receiver that returns Ok for this transfer's offer has stored exactly the sender's bytes. */
  lemma ReceiverOkMeansStored(w: Setup, events: seq<Event>, st: Pair)
    requires Reaches(w, events, st) && st.r.phase.Done? && st.r.phase.outcome.Received?
    requires st.r.offer.transferId == w.id
    ensures StoreHolds(w, st.r)
  {
    ReachableInv(w, events, st);
    CommittedBytes(w, st.r);
  }

  /** Agreement holds on every run of this transfer. */
  ghost predicate Guaranteed(w: Setup) {
    forall events, st :: Reaches(w, events, st) && Succeeded(st.s) ==> StoreHolds(w, st.r)
  }

  lemma Extend(w: Setup, events: seq<Event>, st: Pair, e: Event)
    requires Reaches(w, events, st) && Allowed(w, st, e)
    ensures PairInv(w, st.s, st.r) && Reaches(w, events + [e], Next(w, st, e))
  {
    ReachableInv(w, events, st);
    assert (events + [e])[..|events|] == events;
  }

  // One event each of the run in which an empty file is reported as sent too early.

  const SENDS := SenderEvent(S.Answer(S.Delivered, S.WaitErr(Timeout)))
  const ACTS := ReceiverEvent(R.Answer(R.OfferErr, R.ChunkErr, R.StoreOk, true))

  lemma OfferSent(w: Setup)
    requires S.Runnable(w.SP())
    ensures Reaches(w, [] + [SENDS], Next(w, Init(w), SENDS))
    ensures var st := Next(w, Init(w), SENDS);
      st.r == R.Init() && st.s.phase.AwaitingAccept? && st.s.sent == [S.OfferMsg(S.TheOffer(w.SP()))]
  {
    assert Reaches(w, [], Init(w));
    Extend(w, [], Init(w), SENDS);
  }

  /** The offer is sent and taken up. */
  lemma OfferTaken(w: Setup) returns (events: seq<Event>, st: Pair)
    requires S.Runnable(w.SP()) && R.RejectReason(w.RP(), S.TheOffer(w.SP())).None?
    ensures Reaches(w, events, st) && st.s.phase.AwaitingAccept?
    ensures st.r == R.State(R.Beginning, S.TheOffer(w.SP()), 0, 0, [], [])
  {
    var take := ReceiverEvent(R.Answer(R.GotOffer(S.TheOffer(w.SP())), R.ChunkErr, R.StoreOk, true));
    OfferSent(w);
    Extend(w, [] + [SENDS], Next(w, Init(w), SENDS), take);
    events, st := [] + [SENDS] + [take], Next(w, Next(w, Init(w), SENDS), take);
  }

  lemma Acts(w: Setup, events: seq<Event>, st: Pair) returns (t: Pair)
    requires Reaches(w, events, st)
    ensures R.Valid(st.r) && t == st.(r := R.Step(w.RP(), st.r, ACTS.b)) && Reaches(w, events + [ACTS], t)
  {
    Extend(w, events, st, ACTS);
    t := Next(w, st, ACTS);
  }

  /** The receiver has opened the write and accepted, and not yet committed. */
  lemma Accepted(w: Setup) returns (events: seq<Event>, st: Pair)
    requires S.Runnable(w.SP()) && |w.bytes| == 0
    requires R.RejectReason(w.RP(), S.TheOffer(w.SP())).None?
    ensures Reaches(w, events, st) && st.s.phase.AwaitingAccept?
    ensures R.SendAck(AcceptAck(w.id, w.Size())) in st.r.calls && R.Commit(true) !in st.r.calls
      && st.r.offer == S.TheOffer(w.SP())
  {
    events, st := OfferTaken(w);
    st := Acts(w, events, st);
    events := events + [ACTS];
    assert st.r == R.State(R.Accepting, S.TheOffer(w.SP()), 0, 0, [], [R.Begin(w.id, 0, true)]);
    st := Acts(w, events, st);
    events := events + [ACTS];
    assert st.r.calls[1] == R.SendAck(AcceptAck(w.id, w.Size()));
  }

  lemma {:induction false} NoCommitNoVerdict(p: R.Params, o: Offer, m: M.Monitor, calls: seq<R.Call>)
    requires !m.Committed? && R.Commit(true) !in calls
    ensures !M.WatchFrom(p, o, m, calls).Committed?
    decreases |calls|
  {
    if calls != [] {
      assert calls[0] != R.Commit(true);
      NoCommitNoVerdict(p, o, M.Observe(p, o, m, calls[0]), calls[1..]);
    }
  }

  /** For an empty file the sender is done at the accept, before the receiver commits. */
  lemma EmptyFileOkTooEarly(w: Setup) returns (events: seq<Event>, st: Pair)
    requires S.Runnable(w.SP()) && |w.bytes| == 0
    requires R.RejectReason(w.RP(), S.TheOffer(w.SP())).None?
    ensures Reaches(w, events, st) && Succeeded(st.s) && !StoreHolds(w, st.r)
  {
    var pre;
    events, pre := Accepted(w);
    var ack := SenderEvent(S.Answer(S.Delivered, S.GotAck(AcceptAck(w.id, w.Size()))));
    Extend(w, events, pre, ack);
    events, st := events + [ack], Next(w, pre, ack);
    NoCommitNoVerdict(w.RP(), st.r.offer, M.Idle, st.r.calls);
  }

  /** Without an acceptable offer the sender can never return Ok. */
  lemma NoSuccessWithoutAccept(w: Setup, events: seq<Event>, st: Pair)
    requires Reaches(w, events, st) && Succeeded(st.s)
    ensures S.Runnable(w.SP()) && R.RejectReason(w.RP(), S.TheOffer(w.SP())).None?
  {
    ReachableInv(w, events, st);
  }

  /** Exactly when agreement is guaranteed: the file is non-empty, or the transfer can never be accepted. */
  lemma GuaranteedIff(w: Setup)
    ensures Guaranteed(w) <==>
      |w.bytes| > 0 || !S.Runnable(w.SP()) || R.RejectReason(w.RP(), S.TheOffer(w.SP())).Some?
  {
    if |w.bytes| == 0 && S.Runnable(w.SP()) && R.RejectReason(w.RP(), S.TheOffer(w.SP())).None? {
      var events, st := EmptyFileOkTooEarly(w);
    } else {
      forall events, st | Reaches(w, events, st) && Succeeded(st.s)
        ensures StoreHolds(w, st.r)
      {
        NoSuccessWithoutAccept(w, events, st);
        SenderOkMeansStored(w, events, st);
      }
    }
  }
}
