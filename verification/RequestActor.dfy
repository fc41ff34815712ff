/** The request/response actor in front of an ISO-TP node: callers share two queues under one lock, the actor
    alternates between bursts of sends and single receive polls. */
module RequestActor {
  import opened Basics

  type CallerId = nat
  type Address = Byte

  datatype NodeResult<E> = Sent | TimedOut | Failed(error: E)
  datatype NodeRecv<E> =
    | NothingYet
    | Delivered(from: Address, bytes: seq<Byte>)
    | TooSmall(needed: nat, got: nat)
    | RecvFailed(error: E)

  datatype Config = Config(maxPayload: nat, reqDepth: nat, respDepth: nat, evtDepth: nat, burst: nat,
                           fixedReplyTo: Option<Address>, allowedFrom: Option<Address>)

  /** `normalized_tx_burst_limit`. */
  function Limit(cfg: Config): (n: nat)
    ensures n >= 1
  {
    if cfg.burst == 0 then 1 else cfg.burst
  }

  /** A call of `send_to` or `send_functional_to`. */
  datatype Call = Call(to: Address, functional: bool, bytes: seq<Byte>)

  /** A queued request: a payload buffer of fixed size and its used length. `from` names the caller for the
      statements below; nothing reads it. */
  datatype Request = Request(from: CallerId, to: Address, functional: bool, len: nat, payload: seq<Byte>)

  function MakeRequest(cfg: Config, from: CallerId, c: Call): (r: Request)
    requires |c.bytes| <= cfg.maxPayload
    ensures |r.payload| == cfg.maxPayload && r.len <= |r.payload|
  {
    Request(from, c.to, c.functional, |c.bytes|, InBuffer(cfg, c.bytes))
  }

  datatype Response<E> = RespOk | RespTimeout | RespBackend(error: E)

  /** How the actor reports the node's result, and how the caller reads the report. */
  function Report<E>(r: NodeResult<E>): Response<E> {
    match r
    case Sent => RespOk
    case TimedOut => RespTimeout
    case Failed(e) => RespBackend(e)
  }

  datatype SendResult<E> = SendOk | SendTimeout | SendTransport(error: E) | SendTooLarge(needed: nat, capacity: nat)

  /** `map_tx_response`. */
  function MapResponse<E>(r: Response<E>): SendResult<E> {
    match r
    case RespOk => SendOk
    case RespTimeout => SendTimeout
    case RespBackend(e) => SendTransport(e)
  }

  /** What a call is to be told about the node's result. */
  function Told<E>(r: NodeResult<E>): SendResult<E> {
    match r
    case Sent => SendOk
    case TimedOut => SendTimeout
    case Failed(e) => SendTransport(e)
  }

  datatype Phase = Idle | WantsLock(call: Call) | Draining(call: Call) | Pushing(call: Call) | Awaiting(call: Call)

  datatype RxEvent<E> = EvtDelivered(from: Address, len: nat, payload: seq<Byte>) | EvtTooSmall(needed: nat, got: nat)
    | EvtBackend(error: E)

  /** Where the actor is: about to take a request after `done` sends, in the node, or blocked on a queue. */
  datatype Pc<E> =
    | Taking(done: nat)
    | InNode(req: Request, done: nat)
    | Replying(resp: Response<E>, done: nat)
    | Polling
    | Publishing(evt: RxEvent<E>)

  /** What the node was asked to do for whom, and what came of it; also what a call was told. */
  datatype Exchange<E> = Exchange(from: CallerId, call: Call, result: SendResult<E>)

  datatype Act = DidSend | DidPoll

  datatype State<E> = State(
    callers: map<CallerId, Phase>, lock: Option<CallerId>,
    txReq: seq<Request>, txResp: seq<Response<E>>, rxEvt: seq<RxEvent<E>>, actor: Pc<E>,
    served: seq<Exchange<E>>,    // by the node, in order
    returned: seq<Exchange<E>>,  // to callers, in order
    refused: seq<Exchange<E>>,   // calls turned away for their size
    dropped: nat,                // responses thrown away by draining
    polled: seq<NodeRecv<E>>,    // what the node's receive calls gave
    consumed: seq<RxEvent<E>>,   // taken by receivers
    acts: seq<Act>)

  function PhaseOf<E>(s: State<E>, c: CallerId): Phase { if c in s.callers then s.callers[c] else Idle }

  // ---------- Steps ----------

  datatype Event<E> =
    | Begin(c: CallerId, call: Call) | Lock(c: CallerId) | Drain(c: CallerId) | Push(c: CallerId) | Take(c: CallerId)
    | Receive
    | Next | NodeSent(result: NodeResult<E>) | PushResponse | NodeGave(what: NodeRecv<E>) | Publish

  function At<E>(s: State<E>, c: CallerId, p: Phase): State<E> { s.(callers := s.callers[c := p]) }

  /** One step of a caller; a step that cannot be taken changes nothing. */
  function CallerStep<E>(cfg: Config, s: State<E>, e: Event<E>): State<E>
    requires e.Begin? || e.Lock? || e.Drain? || e.Push? || e.Take?
  {
    match (PhaseOf(s, e.c), e)
    case (Idle, Begin(c, call)) =>
      if |call.bytes| > cfg.maxPayload
      then s.(refused := s.refused + [Exchange(c, call, SendTooLarge(|call.bytes|, cfg.maxPayload))])
      else At(s, c, WantsLock(call))
    case (WantsLock(call), Lock(c)) => if s.lock.None? then At(s, c, Draining(call)).(lock := Some(c)) else s
    case (Draining(call), Drain(c)) =>
      if s.txResp != [] then s.(txResp := s.txResp[1..], dropped := s.dropped + 1) else At(s, c, Pushing(call))
    case (Pushing(call), Push(c)) =>
      if |s.txReq| < cfg.reqDepth && |call.bytes| <= cfg.maxPayload
      then At(s, c, Awaiting(call)).(txReq := s.txReq + [MakeRequest(cfg, c, call)]) else s
    case (Awaiting(call), Take(c)) =>
      if s.txResp == [] then s
      else At(s, c, Idle).(lock := None, txResp := s.txResp[1..],
                           returned := s.returned + [Exchange(c, call, MapResponse(s.txResp[0]))])
    case _ => s
  }

  /** Bytes at the front of a zeroed buffer of the configured size. */
  function InBuffer(cfg: Config, bytes: seq<Byte>): seq<Byte> {
    bytes + Zeros(if |bytes| <= cfg.maxPayload then cfg.maxPayload - |bytes| else 0)
  }

  /** The event, if any, that a delivery becomes. */
  function EventFor<E>(cfg: Config, r: NodeRecv<E>): Option<RxEvent<E>> {
    match r
    case NothingYet => None
    case Delivered(from, bytes) =>
      if cfg.allowedFrom.Some? && cfg.allowedFrom.value != from then None
      else Some(EvtDelivered(if cfg.fixedReplyTo.Some? then cfg.fixedReplyTo.value else from, |bytes|,
                             InBuffer(cfg, bytes)))
    case TooSmall(needed, got) => Some(EvtTooSmall(needed, got))
    case RecvFailed(e) => Some(EvtBackend(e))
  }

  function AfterSends(cfg: Config, done: nat): Pc { if done < Limit(cfg) then Taking(done) else Polling }

  /** What the node is asked to send: the used part of the buffer. */
  function AskedOf(r: Request): Call { Call(r.to, r.functional, r.payload[..Min(r.len, |r.payload|)]) }

  /** One step of the actor. */
  function ActorStep<E>(cfg: Config, s: State<E>, e: Event<E>): State<E> {
    match (s.actor, e)
    case (Taking(done), Next) =>
      if s.txReq == [] then s.(actor := Polling)
      else s.(txReq := s.txReq[1..], actor := InNode(s.txReq[0], done + 1), acts := s.acts + [DidSend])
    case (InNode(req, done), NodeSent(r)) =>
      s.(actor := Replying(Report(r), done), served := s.served + [Exchange(req.from, AskedOf(req), Told(r))])
    case (Replying(resp, done), PushResponse) =>
      if |s.txResp| < cfg.respDepth then s.(txResp := s.txResp + [resp], actor := AfterSends(cfg, done)) else s
    case (Polling, NodeGave(r)) =>
      var evt := EventFor(cfg, r);
      if r.Delivered? && |r.bytes| > cfg.maxPayload then s  // the node only fills the buffer it is given
      else s.(polled := s.polled + [r], acts := s.acts + [DidPoll],
              actor := if evt.Some? then Publishing(evt.value) else Taking(0))
    case (Publishing(evt), Publish) =>
      if |s.rxEvt| < cfg.evtDepth then s.(rxEvt := s.rxEvt + [evt], actor := Taking(0)) else s
    case _ => s
  }

  predicate ByActor<E>(e: Event<E>) { e.Next? || e.NodeSent? || e.PushResponse? || e.NodeGave? || e.Publish? }

  function Step<E>(cfg: Config, s: State<E>, e: Event<E>): State<E> {
    if ByActor(e) then ActorStep(cfg, s, e)
    else if e.Receive? then
      if s.rxEvt == [] then s else s.(rxEvt := s.rxEvt[1..], consumed := s.consumed + [s.rxEvt[0]])
    else CallerStep(cfg, s, e)
  }

  function Start<E>(): State<E> { State(map[], None, [], [], [], Taking(0), [], [], [], 0, [], [], []) }

  /** Any interleaving of any number of callers, receivers and the actor. */
  function Run<E>(cfg: Config, es: seq<Event<E>>): State<E> {
    if es == [] then Start() else Step(cfg, Run(cfg, es[..|es| - 1]), es[|es| - 1])
  }

  // ---------- Pairing ----------

  /** Where the one exchange that may be under way is. */
  ghost predicate Owner<E>(cfg: Config, s: State<E>) {
    && (forall c :: c in s.callers ==>
         match s.callers[c]
         case Idle => s.lock != Some(c)
         case WantsLock(call) => s.lock != Some(c) && |call.bytes| <= cfg.maxPayload
         case _ => s.lock == Some(c) && |s.callers[c].call.bytes| <= cfg.maxPayload)
    && (s.lock.Some? ==> s.lock.value in s.callers)
  }

  predicate ActorBusy<E>(pc: Pc<E>) { pc.InNode? || pc.Replying? }

  /** The last exchange the node served is the one under way. */
  ghost predicate Answering<E>(s: State<E>, c: CallerId, call: Call, resp: Response<E>) {
    s.served == s.returned + [Exchange(c, call, MapResponse(resp))]
  }

  ghost predicate UnderWay<E>(cfg: Config, s: State<E>, c: CallerId, call: Call)
    requires |call.bytes| <= cfg.maxPayload
  {
    if s.txReq != [] then
      s.txReq == [MakeRequest(cfg, c, call)] && s.txResp == [] && !ActorBusy(s.actor) && s.served == s.returned
    else if s.actor.InNode? then
      s.actor.req == MakeRequest(cfg, c, call) && s.txResp == [] && s.served == s.returned
    else if s.actor.Replying? then s.txResp == [] && Answering(s, c, call, s.actor.resp)
    else |s.txResp| == 1 && Answering(s, c, call, s.txResp[0])
  }

  ghost predicate Quiet<E>(s: State<E>) {
    s.txReq == [] && s.txResp == [] && !ActorBusy(s.actor) && s.served == s.returned
  }

  ghost predicate Pairing<E>(cfg: Config, s: State<E>) {
    && Owner(cfg, s)
    && s.dropped == 0
    && if s.lock.Some? && s.callers[s.lock.value].Awaiting?
       then UnderWay(cfg, s, s.lock.value, s.callers[s.lock.value].call)
       else Quiet(s)
  }

  lemma RequestCarriesCall(cfg: Config, c: CallerId, call: Call)
    requires |call.bytes| <= cfg.maxPayload
    ensures AskedOf(MakeRequest(cfg, c, call)) == call && MakeRequest(cfg, c, call).from == c
  {
    assert MakeRequest(cfg, c, call).payload[..|call.bytes|] == call.bytes;
  }

  lemma CallerKeepsPairing<E>(cfg: Config, s: State<E>, e: Event<E>)
    requires Pairing(cfg, s) && (e.Begin? || e.Lock? || e.Drain? || e.Push? || e.Take?)
    ensures Pairing(cfg, CallerStep(cfg, s, e))
  {
  }

  lemma ActorKeepsPairing<E>(cfg: Config, s: State<E>, e: Event<E>)
    requires Pairing(cfg, s)
    ensures Pairing(cfg, ActorStep(cfg, s, e))
  {
    if s.lock.Some? && s.callers[s.lock.value].Awaiting? {
      RequestCarriesCall(cfg, s.lock.value, s.callers[s.lock.value].call);
    }
  }

  lemma {:induction false} PairingAlways<E>(cfg: Config, es: seq<Event<E>>)
    ensures Pairing(cfg, Run(cfg, es))
  {
    if es != [] {
      var s, e := Run(cfg, es[..|es| - 1]), es[|es| - 1];
      PairingAlways(cfg, es[..|es| - 1]);
      if ByActor(e) {
        ActorKeepsPairing(cfg, s, e);
      } else if !e.Receive? {
        CallerKeepsPairing(cfg, s, e);
      }
    }
  }

  /** Every call was told what the node said about that very call: caller, address, kind and bytes; at most one
      request or response is in flight, and draining never finds anything. */
  lemma {:induction false} EachCallerGetsItsOwnResult<E>(cfg: Config, es: seq<Event<E>>)
    ensures var s := Run(cfg, es);
      && s.returned <= s.served && |s.served| <= |s.returned| + 1
      && |s.txReq| + |s.txResp| + (if ActorBusy(s.actor) then 1 else 0) <= 1
      && s.dropped == 0
  {
    PairingAlways(cfg, es);
  }

  // ---------- Bursts ----------

  function SinceLastPoll(acts: seq<Act>): nat {
    if acts == [] || acts[|acts| - 1] == DidPoll then 0 else 1 + SinceLastPoll(acts[..|acts| - 1])
  }

  predicate BurstsBounded(acts: seq<Act>, limit: nat) {
    forall k :: 0 <= k <= |acts| ==> SinceLastPoll(acts[..k]) <= limit
  }

  predicate BurstInv<E>(cfg: Config, s: State<E>) {
    && BurstsBounded(s.acts, Limit(cfg))
    && match s.actor
       case Taking(done) => done < Limit(cfg) && SinceLastPoll(s.acts) == done
       case InNode(_, done) => 1 <= done <= Limit(cfg) && SinceLastPoll(s.acts) == done
       case Replying(_, done) => 1 <= done <= Limit(cfg) && SinceLastPoll(s.acts) == done
       case Publishing(_) => SinceLastPoll(s.acts) == 0
       case Polling => true
  }

  lemma {:induction false} ActSnoc(acts: seq<Act>, a: Act, limit: nat)
    requires BurstsBounded(acts, limit)
    ensures SinceLastPoll(acts + [a]) == if a.DidPoll? then 0 else 1 + SinceLastPoll(acts)
    ensures SinceLastPoll(acts + [a]) <= limit ==> BurstsBounded(acts + [a], limit)
  {
    var all := acts + [a];
    assert all[..|acts|] == acts && all[..|all|] == all;
    assert forall k :: 0 <= k <= |acts| ==> all[..k] == acts[..k];
  }

  lemma {:induction false} BurstStep<E>(cfg: Config, s: State<E>, e: Event<E>)
    requires BurstInv(cfg, s)
    ensures BurstInv(cfg, ActorStep(cfg, s, e))
  {
    if s.actor.Taking? {
      ActSnoc(s.acts, DidSend, Limit(cfg));
    } else if s.actor.Polling? {
      ActSnoc(s.acts, DidPoll, Limit(cfg));
    }
  }

  /** No more sends than the burst limit between two receive polls. */
  lemma {:induction false} BurstsAreBounded<E>(cfg: Config, es: seq<Event<E>>)
    ensures BurstInv(cfg, Run(cfg, es))
  {
    if es != [] {
      BurstsAreBounded(cfg, es[..|es| - 1]);
      if ByActor(es[|es| - 1]) {
        BurstStep(cfg, Run(cfg, es[..|es| - 1]), es[|es| - 1]);
      }
    }
  }

  // ---------- Receive events ----------

  /** Deliveries from the wrong source left out, the others relabelled, in order. */
  function Events<E>(cfg: Config, polled: seq<NodeRecv<E>>): seq<RxEvent<E>> {
    if polled == [] then []
    else
      var evt := EventFor(cfg, polled[|polled| - 1]);
      Events(cfg, polled[..|polled| - 1]) + if evt.Some? then [evt.value] else []
  }

  lemma {:induction false} EventsSnoc<E>(cfg: Config, polled: seq<NodeRecv<E>>, r: NodeRecv<E>)
    ensures Events(cfg, polled + [r])
         == Events(cfg, polled) + if EventFor(cfg, r).Some? then [EventFor(cfg, r).value] else []
  {
    assert (polled + [r])[..|polled|] == polled;
  }

  function InHand<E>(pc: Pc<E>): seq<RxEvent<E>> { if pc.Publishing? then [pc.evt] else [] }

  ghost predicate Conserved<E>(cfg: Config, s: State<E>) {
    s.consumed + (s.rxEvt + InHand(s.actor)) == Events(cfg, s.polled)
  }

  lemma {:induction false} ActorConserves<E>(cfg: Config, s: State<E>, e: Event<E>)
    requires Conserved(cfg, s)
    ensures Conserved(cfg, ActorStep(cfg, s, e))
  {
    if s.actor.Polling? && e.NodeGave? {
      EventsSnoc(cfg, s.polled, e.what);
      assert s.rxEvt + [] == s.rxEvt;
      var evt := EventFor(cfg, e.what);
      Associative(s.consumed, s.rxEvt, if evt.Some? then [evt.value] else []);
    } else if s.actor.Publishing? {
      assert (s.rxEvt + [s.actor.evt]) + [] == s.rxEvt + [s.actor.evt];
    }
  }

  lemma {:induction false} ReceiverConserves<E>(cfg: Config, s: State<E>)
    requires Conserved(cfg, s)
    ensures Conserved(cfg, Step(cfg, s, Receive))
  {
    if s.rxEvt != [] {
      var first, rest, hand := [s.rxEvt[0]], s.rxEvt[1..], InHand(s.actor);
      assert s.rxEvt == first + rest;
      Associative(first, rest, hand);
      Associative(s.consumed, first, rest + hand);
    }
  }

  /** Nothing is lost, repeated or reordered between the node and the receivers. */
  lemma {:induction false} EventsAreDeliveries<E>(cfg: Config, es: seq<Event<E>>)
    ensures Conserved(cfg, Run(cfg, es))
  {
    if es != [] {
      var s, e := Run(cfg, es[..|es| - 1]), es[|es| - 1];
      EventsAreDeliveries(cfg, es[..|es| - 1]);
      if ByActor(e) {
        ActorConserves(cfg, s, e);
      } else if e.Receive? {
        ReceiverConserves(cfg, s);
      }
    }
  }

  datatype RecvResult<E> = NothingReceived | DeliveredOne(replyTo: Address, len: nat)
    | OutTooSmall(needed: nat, got: nat) | RecvTransport(error: E)

  /** `out[..len].copy_from_slice(&payload[..len])`. */
  method CopyFront(payload: seq<Byte>, len: nat, out: array<Byte>)
    requires len <= |payload| && len <= out.Length
    modifies out
    ensures out[..] == payload[..len] + old(out[len..])
  {
    for i := 0 to len
      invariant forall k :: 0 <= k < i ==> out[k] == payload[k]
      invariant forall k :: i <= k < out.Length ==> out[k] == old(out[k])
    {
      out[i] := payload[i];
    }
  }

  /** `recv_one_into` with the event it took, if one came in time: the payload lands at the front of `out`, or
      `out` is left alone (and the event is gone). */
  method RecvOneInto<E>(evt: Option<RxEvent<E>>, out: array<Byte>) returns (r: RecvResult<E>)
    requires evt.Some? && evt.value.EvtDelivered? ==> evt.value.len <= |evt.value.payload|
    modifies out
    ensures r == match evt
      case None => NothingReceived
      case Some(EvtDelivered(from, len, _)) =>
        if len <= out.Length then DeliveredOne(from, len) else OutTooSmall(len, out.Length)
      case Some(EvtTooSmall(needed, got)) => OutTooSmall(needed, got)
      case Some(EvtBackend(e)) => RecvTransport(e)
    ensures out[..] == (if r.DeliveredOne? then evt.value.payload[..r.len] + old(out[r.len..]) else old(out[..]))
  {
    if evt.None? {
      return NothingReceived;
    }
    match evt.value {
      case EvtDelivered(from, len, payload) =>
        if out.Length < len {
          return OutTooSmall(len, out.Length);
        }
        CopyFront(payload, len, out);
        return DeliveredOne(from, len);
      case EvtTooSmall(needed, got) => return OutTooSmall(needed, got);
      case EvtBackend(e) => return RecvTransport(e);
    }
  }

  /** What each result of a poll becomes. A delivery is an event exactly if its source is allowed, byte for byte and
      under the configured label; a message that does not fit and an error of the node are passed on as they are; an
      empty poll is no event. */
  lemma DeliveryIsExact<E>(cfg: Config, r: NodeRecv<E>)
    requires r.Delivered? ==> |r.bytes| <= cfg.maxPayload
    ensures var evt := EventFor(cfg, r);
      && (evt.Some? <==> !r.NothingYet? && (r.Delivered? ==> cfg.allowedFrom in {None, Some(r.from)}))
      && (evt.Some? ==>
            match r
            case Delivered(from, bytes) =>
              && evt.value.EvtDelivered? && |evt.value.payload| == cfg.maxPayload
              && evt.value.len == |bytes| && evt.value.payload[..evt.value.len] == bytes
              && evt.value.from == (if cfg.fixedReplyTo.Some? then cfg.fixedReplyTo.value else from)
            case TooSmall(needed, got) => evt.value == EvtTooSmall(needed, got)
            case RecvFailed(e) => evt.value == EvtBackend(e)
            case NothingYet => false)
  {
    if r.Delivered? {
      assert InBuffer(cfg, r.bytes)[..|r.bytes|] == r.bytes;
    }
  }

  // ---------- The actor's loop ----------

  /** The actor is waiting for exactly this, and the queue it may need has room. */
  predicate Ready<E>(cfg: Config, s: State<E>, e: Event<E>) {
    match s.actor
    case Taking(_) => e.Next?
    case InNode(_, _) => e.NodeSent?
    case Replying(_, _) => e.PushResponse? && |s.txResp| < cfg.respDepth
    case Polling => e.NodeGave? && (e.what.Delivered? ==> |e.what.bytes| <= cfg.maxPayload)
    case Publishing(_) => e.Publish? && |s.rxEvt| < cfg.evtDepth
  }

  /** Steps of the actor until its next poll. */
  function UntilPoll<E>(cfg: Config, pc: Pc<E>): int {
    match pc
    case Taking(done) => 3 * (Limit(cfg) - done)
    case InNode(_, done) => 3 * (Limit(cfg) - done) + 2
    case Replying(_, done) => 3 * (Limit(cfg) - done) + 1
    case _ => 0
  }

  lemma StepNearsPoll<E>(cfg: Config, s: State<E>, e: Event<E>)
    requires BurstInv(cfg, s) && Ready(cfg, s, e) && !s.actor.Polling? && !s.actor.Publishing?
    ensures var t := ActorStep(cfg, s, e);
      && 0 <= UntilPoll(cfg, t.actor) < UntilPoll(cfg, s.actor) <= 3 * Limit(cfg) + 2
      && (s.actor.Taking? && s.txReq == [] ==> t.actor.Polling?)
  {
  }

  /** Requests do not starve the receiver: each step that the actor takes brings its next poll nearer, however many
      requests wait, so that the steps between two polls are bounded by the burst; without a request the poll comes
      next. */
  lemma {:induction false} PollComesNear<E>(cfg: Config, es: seq<Event<E>>, e: Event<E>)
    requires var s := Run(cfg, es); Ready(cfg, s, e) && !s.actor.Polling? && !s.actor.Publishing?
    ensures var s, t := Run(cfg, es), Run(cfg, es + [e]);
      && 0 <= UntilPoll(cfg, t.actor) < UntilPoll(cfg, s.actor) <= 3 * Limit(cfg) + 2
      && (s.actor.Taking? && s.txReq == [] ==> t.actor.Polling?)
  {
    BurstsAreBounded(cfg, es);
    StepNearsPoll(cfg, Run(cfg, es), e);
    assert (es + [e])[..|es|] == es;
  }

  /** The burst goes on as long as requests wait, up to the configured number of sends, of which there is at least one;
      then comes a poll. */
  lemma {:induction false} BurstGoesOn<E>(cfg: Config, es: seq<Event<E>>, e: Event<E>)
    requires Ready(cfg, Run(cfg, es), e)
    ensures var s, t := Run(cfg, es), Run(cfg, es + [e]);
      && (s.actor.Taking? && s.txReq != [] ==> t.actor.InNode? && t.actor.req == s.txReq[0])
      && (s.actor.Replying? ==>
            t.actor == if s.actor.done < cfg.burst then Taking(s.actor.done) else Polling)
  {
    BurstsAreBounded(cfg, es);
    assert (es + [e])[..|es|] == es;
  }

  /** A call is turned away exactly if its bytes exceed the payload, and is told so. */
  lemma TooLargeIff<E>(cfg: Config, es: seq<Event<E>>, c: CallerId, call: Call)
    requires PhaseOf(Run<E>(cfg, es), c).Idle?
    ensures var s, t := Run(cfg, es), Run(cfg, es + [Begin(c, call)]);
      if |call.bytes| > cfg.maxPayload
      then t == s.(refused := s.refused + [Exchange(c, call, SendTooLarge(|call.bytes|, cfg.maxPayload))])
      else t.refused == s.refused && PhaseOf(t, c) == WantsLock(call)
  {
    assert (es + [Begin(c, call)])[..|es|] == es;
  }

  /** The states a schedule goes through, one per event. */
  ghost predicate IsTrace<E>(cfg: Config, es: seq<Event<E>>, at: seq<State<E>>) {
    var n := |es|;
    && |at| == n + 1
    && if n == 0 then at == [Start()]
       else at[n] == Step(cfg, at[n - 1], es[n - 1]) && IsTrace(cfg, es[..n - 1], at[..n])
  }

  lemma {:induction false} TraceStep<E>(cfg: Config, es: seq<Event<E>>, at: seq<State<E>>, n: nat)
    requires IsTrace(cfg, es, at) && n < |es|
    ensures |at| == |es| + 1 && at[n + 1] == Step(cfg, at[n], es[n])
  {
    if n < |es| - 1 {
      TraceStep(cfg, es[..|es| - 1], at[..|es|], n);
    }
  }

  lemma {:induction false} TraceExists<E>(cfg: Config, es: seq<Event<E>>) returns (at: seq<State<E>>)
    ensures IsTrace(cfg, es, at) && at[|es|] == Run(cfg, es) && at[0] == Start()
  {
    if es == [] {
      at := [Start()];
    } else {
      var init := TraceExists(cfg, es[..|es| - 1]);
      at := init + [Run(cfg, es)];
      assert at[..|es|] == init;
    }
  }

  lemma OthersLeaveTheActor<E>(cfg: Config, s: State<E>, e: Event<E>)
    requires !Ready(cfg, s, e)
    ensures Step(cfg, s, e).actor == s.actor
  {
  }

  /** An await point of the actor: the other tasks run until it can go on, or the schedule ends. */
  method AwaitTurn<E>(cfg: Config, es: seq<Event<E>>, n0: nat, s0: State<E>, ghost at: seq<State<E>>)
      returns (n: nat, s: State<E>)
    requires n0 <= |es| && IsTrace(cfg, es, at) && s0 == at[n0]
    ensures n0 <= n <= |es| && s == at[n] && s.actor == s0.actor
    ensures n < |es| ==> Ready(cfg, s, es[n])
  {
    n, s := n0, s0;
    while n < |es| && !Ready(cfg, s, es[n])
      invariant n0 <= n <= |es| && s == at[n] && s.actor == s0.actor
    {
      TraceStep(cfg, es, at, n);
      OthersLeaveTheActor(cfg, s, es[n]);
      s, n := Step(cfg, s, es[n]), n + 1;
    }
  }

  /** One request, from the queue to its response. */
  method ServeOne<E>(cfg: Config, es: seq<Event<E>>, n0: nat, s0: State<E>, txProcessed: nat, ghost at: seq<State<E>>)
      returns (n: nat, s: State<E>)
    requires n0 < |es| && IsTrace(cfg, es, at) && s0 == at[n0] && s0.actor == Taking(txProcessed) && es[n0].Next?
      && s0.txReq != []
    ensures n0 < n <= |es| && s == at[n]
    ensures n == |es| || s.actor == AfterSends(cfg, txProcessed + 1)
  {
    var req := s0.txReq[0];
    TraceStep(cfg, es, at, n0);
    s := s0.(txReq := s0.txReq[1..], actor := InNode(req, txProcessed + 1), acts := s0.acts + [DidSend]);
    n, s := AwaitTurn(cfg, es, n0 + 1, s, at);
    if n == |es| {
      return;
    }
    TraceStep(cfg, es, at, n);
    var resp := Report(es[n].result);
    s := s.(actor := Replying(resp, txProcessed + 1),
            served := s.served + [Exchange(req.from, AskedOf(req), Told(es[n].result))]);
    n, s := AwaitTurn(cfg, es, n + 1, s, at);
    if n == |es| {
      return;
    }
    TraceStep(cfg, es, at, n);
    s, n := s.(txResp := s.txResp + [resp], actor := AfterSends(cfg, txProcessed + 1)), n + 1;
  }

  /** Up to the limit of sends, or until no request is waiting. */
  method Burst<E>(cfg: Config, es: seq<Event<E>>, n0: nat, s0: State<E>, ghost at: seq<State<E>>)
      returns (n: nat, s: State<E>)
    requires n0 <= |es| && IsTrace(cfg, es, at) && s0 == at[n0] && s0.actor == Taking(0)
    ensures n0 <= n <= |es| && s == at[n]
    ensures n == |es| || (n0 < n && s.actor == Polling)
  {
    n, s := n0, s0;
    var txProcessed := 0;
    while txProcessed < Limit(cfg)
      invariant n0 <= n <= |es| && s == at[n]
      invariant n == |es| || s.actor == AfterSends(cfg, txProcessed)
      invariant txProcessed > 0 ==> n0 < n
      decreases Limit(cfg) - txProcessed
    {
      if n == |es| {
        return;
      }
      n, s := AwaitTurn(cfg, es, n, s, at);
      if n == |es| {
        return;
      }
      if s.txReq == [] {
        TraceStep(cfg, es, at, n);
        s, n := s.(actor := Polling), n + 1;
        return;
      }
      n, s := ServeOne(cfg, es, n, s, txProcessed, at);
      txProcessed := txProcessed + 1;
    }
  }

  /** Hand an event to the receivers, as soon as the queue has room. */
  method PublishEvent<E>(
      cfg: Config, es: seq<Event<E>>, n0: nat, s0: State<E>, evt: RxEvent<E>, ghost at: seq<State<E>>)
      returns (n: nat, s: State<E>)
    requires n0 <= |es| && IsTrace(cfg, es, at) && s0 == at[n0] && s0.actor == Publishing(evt)
    ensures n0 <= n <= |es| && s == at[n]
    ensures n == |es| || (n0 < n && s.actor == Taking(0))
  {
    n, s := AwaitTurn(cfg, es, n0, s0, at);
    if n == |es| {
      return;
    }
    TraceStep(cfg, es, at, n);
    s, n := s.(rxEvt := s.rxEvt + [evt], actor := Taking(0)), n + 1;
  }

  /** One receive poll and the event it may become. */
  method PollOnce<E>(cfg: Config, es: seq<Event<E>>, n0: nat, s0: State<E>, ghost at: seq<State<E>>)
      returns (n: nat, s: State<E>)
    requires n0 <= |es| && IsTrace(cfg, es, at) && s0 == at[n0] && s0.actor == Polling
    ensures n0 <= n <= |es| && s == at[n]
    ensures n == |es| || (n0 < n && s.actor == Taking(0))
  {
    n, s := AwaitTurn(cfg, es, n0, s0, at);
    if n == |es| {
      return;
    }
    TraceStep(cfg, es, at, n);
    var r := es[n].what;
    s := s.(polled := s.polled + [r], acts := s.acts + [DidPoll]);
    var evt := EventFor(cfg, r);
    if evt.None? {
      s, n := s.(actor := Taking(0)), n + 1;
      return;
    }
    s := s.(actor := Publishing(evt.value));
    n, s := PublishEvent(cfg, es, n + 1, s, evt.value, at);
  }

  /** `run_actor` under any schedule is a run of the machine. */
  method RunActor<E>(cfg: Config, es: seq<Event<E>>) returns (s: State<E>)
    ensures s == Run(cfg, es)
  {
    ghost var at := TraceExists(cfg, es);
    var n := 0;
    s := Start();
    while n < |es|
      invariant n <= |es| && s == at[n] && (n == |es| || s.actor == Taking(0))
      decreases |es| - n
    {
      n, s := Burst(cfg, es, n, s, at);
      if n < |es| {
        n, s := PollOnce(cfg, es, n, s, at);
      }
    }
  }
}
