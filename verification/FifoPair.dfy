/** The honest pair over order-preserving channels that may drop but not duplicate messages. Main result:
    neither end ever fails because of what the other one sent; only timeouts, transport errors and store
    errors make it fail. */
module FifoPair {
  import opened Basics
  import opened TransferTypes
  import opened TransferPair
  import S = Sender
  import R = Receiver
  import M = ReceiverSafety

  /** `listening`: the receiver has subscribed for offers. The wait for an offer has no timeout: it can fail
      only before it begins to listen. */
  datatype Link = Link(s: S.State, r: R.State, listening: bool, offers: seq<Offer>, chunks: seq<Chunk>, acks: seq<Ack>)

  datatype Event =
    | SenderSends(res: S.SendAnswer)
    | SenderGetsAck
    | SenderWaitFails(kind: ErrorKind)
    | ReceiverListens
    | ReceiverGetsOffer
    | ReceiverGetsChunk
    | ReceiverWaitFails
    | ReceiverActs(store: R.StoreAnswer, sendOk: bool)
    | LoseOffer(i: nat)
    | LoseChunk(i: nat)
    | LoseAck(i: nat)

  /** A transfer that SHA-256 and a valid configuration allow: the digest has its 32 bytes. */
  predicate Honest(w: Setup) {
    S.Runnable(w.SP()) && |w.digest(w.bytes)| == SHA256_HASH_LEN
  }

  function Init(w: Setup): Link { Link(S.Init(w.SP()), R.Init(), false, [], [], []) }

  predicate Transmitting(w: Setup, s: S.State)
    requires S.Valid(w.SP(), s)
  {
    s.phase.Offering? || (s.phase.Streaming? && S.CanSend(w.SP(), s))
  }

  predicate Enabled(w: Setup, l: Link, e: Event)
    requires S.Valid(w.SP(), l.s) && R.Valid(l.r)
  {
    match e
    case SenderSends(_) => Transmitting(w, l.s)
    case SenderGetsAck => S.Waiting(w.SP(), l.s) && l.acks != []
    case SenderWaitFails(_) => S.Waiting(w.SP(), l.s)
    case ReceiverListens => l.r.phase.AwaitingOffer? && !l.listening
    case ReceiverGetsOffer => l.r.phase.AwaitingOffer? && l.listening && l.offers != []
    case ReceiverGetsChunk => l.r.phase.AwaitingChunk? && l.chunks != []
    case ReceiverWaitFails => (l.r.phase.AwaitingOffer? && !l.listening) || l.r.phase.AwaitingChunk?
    case ReceiverActs(_, _) => !l.r.phase.AwaitingOffer? && !l.r.phase.AwaitingChunk? && !l.r.phase.Done?
    case LoseOffer(i) => i < |l.offers|
    case LoseChunk(i) => i < |l.chunks|
    case LoseAck(i) => i < |l.acks|
  }

  function SAnswer(e: Event, l: Link): S.Answer {
    match e
    case SenderSends(res) => S.Answer(res, S.WaitErr(Other))
    case SenderWaitFails(kind) => S.Answer(S.Delivered, S.WaitErr(kind))
    case _ => S.Answer(S.Delivered, if l.acks == [] then S.WaitErr(Other) else S.GotAck(l.acks[0]))
  }

  function RAnswer(e: Event, l: Link): R.Answer {
    match e
    case ReceiverActs(store, sendOk) => R.Answer(R.OfferErr, R.ChunkErr, store, sendOk)
    case ReceiverWaitFails => R.Answer(R.OfferErr, R.ChunkErr, R.StoreOk, true)
    case _ => R.Answer(if l.offers == [] then R.OfferErr else R.GotOffer(l.offers[0]),
                       if l.chunks == [] then R.ChunkErr else R.GotChunk(l.chunks[0]), R.StoreOk, true)
  }

  function AcksOf(calls: seq<R.Call>): seq<Ack> {
    if calls == [] then []
    else (if calls[0].SendAck? then [calls[0].ack] else []) + AcksOf(calls[1..])
  }

  /** The acks that `t` has sent beyond those of `r`. */
  function NewAcks(r: R.State, t: R.State): seq<Ack>
    requires r.calls <= t.calls
  {
    AcksOf(t.calls[|r.calls|..])
  }

  function Drop<T>(q: seq<T>, i: nat): seq<T>
    requires i < |q|
  {
    q[..i] + q[i + 1..]
  }

  function AfterSend(w: Setup, l: Link, a: S.Answer): Link
    requires S.Valid(w.SP(), l.s) && Transmitting(w, l.s)
  {
    var l1 := l.(s := S.Step(w.SP(), l.s, a));
    if l.s.phase.Offering? then l1.(offers := l.offers + [S.TheOffer(w.SP())])
    else l1.(chunks := l.chunks + [S.NextChunk(w.SP(), l.s)])
  }

  function AfterReceiver(w: Setup, l: Link, b: R.Answer): Link
    requires R.Valid(l.r)
  {
    var t := R.Step(w.RP(), l.r, b);
    l.(r := t, acks := l.acks + NewAcks(l.r, t))
  }

  function Next(w: Setup, l: Link, e: Event): (t: Link)
    requires S.Valid(w.SP(), l.s) && R.Valid(l.r) && Enabled(w, l, e)
    ensures S.Valid(w.SP(), t.s) && R.Valid(t.r)
  {
    match e
    case SenderSends(_) => AfterSend(w, l, SAnswer(e, l))
    case SenderGetsAck => l.(s := S.Step(w.SP(), l.s, SAnswer(e, l)), acks := l.acks[1..])
    case SenderWaitFails(_) => l.(s := S.Step(w.SP(), l.s, SAnswer(e, l)))
    case ReceiverListens => l.(listening := true)
    case ReceiverGetsOffer => AfterReceiver(w, l, RAnswer(e, l)).(offers := l.offers[1..])
    case ReceiverGetsChunk => AfterReceiver(w, l, RAnswer(e, l)).(chunks := l.chunks[1..])
    case ReceiverWaitFails => AfterReceiver(w, l, RAnswer(e, l))
    case ReceiverActs(_, _) => AfterReceiver(w, l, RAnswer(e, l))
    case LoseOffer(i) => l.(offers := Drop(l.offers, i))
    case LoseChunk(i) => l.(chunks := Drop(l.chunks, i))
    case LoseAck(i) => l.(acks := Drop(l.acks, i))
  }

  // ---------- The invariant ----------

  /** A chunk boundary of the file: a whole number of chunks, or the end. */
  predicate OnGrid(w: Setup, n: nat)
    requires S.Runnable(w.SP()) && w.Size() > 0
  {
    Multiple(n, w.Size()) || n == |w.bytes|
  }

  /** How far the sender may have transmitted: one window beyond what was acknowledged. */
  function Horizon(w: Setup, l: Link): nat
    requires S.Runnable(w.SP())
  {
    l.s.lastAcked + w.config.windowChunks * w.Size()
  }

  predicate GoodChunk(w: Setup, l: Link, c: Chunk)
    requires S.Runnable(w.SP()) && w.Size() > 0
  {
    && S.GoodChunk(w.SP(), w.Size(), c)
    && Multiple(c.offset, w.Size())
    && c.offset + |c.data| <= Horizon(w, l)
  }

  predicate GoodAck(w: Setup, l: Link, a: Ack)
    requires S.Runnable(w.SP()) && w.Size() > 0
  {
    && a.transferId == w.id
    && match a.kind
       case Accept => a == AcceptAck(w.id, w.Size())
       case Progress => l.s.lastAcked <= a.nextOffset <= l.r.nextOffset && OnGrid(w, a.nextOffset)
       case Complete => a.nextOffset == l.r.nextOffset == |w.bytes|
       case _ => false
  }

  /** Cumulative offsets never decrease along the ack queue. */
  predicate AcksOrdered(acks: seq<Ack>) {
    forall i, j :: 0 <= i < j < |acks| && !acks[i].kind.Accept? && !acks[j].kind.Accept? ==>
      acks[i].nextOffset <= acks[j].nextOffset
  }

  /** Everything in the channels was sent by the other end. */
  ghost predicate QueuesTrue(l: Link) {
    && (forall i :: 0 <= i < |l.offers| ==> S.OfferMsg(l.offers[i]) in l.s.sent)
    && (forall i :: 0 <= i < |l.chunks| ==> S.ChunkMsg(l.chunks[i]) in l.s.sent)
    && (forall i :: 0 <= i < |l.acks| ==> R.SendAck(l.acks[i]) in l.r.calls)
  }

  ghost predicate QueuesGood(w: Setup, l: Link)
    requires S.Runnable(w.SP()) && w.Size() > 0
  {
    && (forall i :: 0 <= i < |l.offers| ==> l.offers[i] == S.TheOffer(w.SP()))
    && (forall i :: 0 <= i < |l.chunks| ==> GoodChunk(w, l, l.chunks[i]))
    && (forall i :: 0 <= i < |l.acks| ==> GoodAck(w, l, l.acks[i]))
    && AcksOrdered(l.acks)
  }

  /** Before the accept arrives no chunk exists, and the receiver has not moved. */
  ghost predicate Quiet(w: Setup, l: Link)
    requires S.Runnable(w.SP()) && w.Size() > 0
  {
    && l.chunks == [] && l.r.nextOffset == 0
    && !l.r.phase.Writing? && !l.r.phase.Reporting? && !l.r.phase.Committing? && !l.r.phase.Completing?
    && forall i :: 0 <= i < |l.acks| ==> l.acks[i].kind.Accept?
  }

  ghost predicate Offsets(w: Setup, l: Link)
    requires S.Runnable(w.SP()) && w.Size() > 0
  {
    && OnGrid(w, l.s.lastAcked) && OnGrid(w, l.s.nextToSend)
    && OnGrid(w, l.r.nextOffset) && OnGrid(w, l.r.lastProgress) && l.s.lastAcked <= l.r.nextOffset <= |w.bytes|
    && l.r.nextOffset <= Horizon(w, l)
    && (l.r.phase.Writing? ==>
          && l.r.nextOffset + |l.r.phase.data| <= Horizon(w, l)
          && OnGrid(w, l.r.nextOffset + |l.r.phase.data|))
  }

  /** No refusal was ever sent. */
  predicate NoAlarm(calls: seq<R.Call>) {
    forall i :: 0 <= i < |calls| && calls[i].SendAck? ==> !calls[i].ack.kind.Reject? && !calls[i].ack.kind.Abort?
  }

  /** What the rest needs to know of the sender, all of it part of `S.Inv` and `PairInv`. */
  predicate SenderFit(w: Setup, s: S.State) {
    && Honest(w) && 0 < w.Size() <= w.config.senderMaxChunk
    && S.Valid(w.SP(), s)
    && (s.phase.Offering? || s.phase.AwaitingAccept? ==> s.offerRetries <= w.config.maxRetries)
    && (s.phase.Streaming? ==>
          && s.chunkSize == w.Size() && s.retries <= w.config.maxRetries
          && s.nextToSend - s.lastAcked <= w.config.windowChunks * w.Size())
    && (Succeeded(s) ==> s.lastAcked == s.nextToSend == |w.bytes|)
  }

  /** What the rest needs to know of the receiver. */
  predicate ReceiverFit(w: Setup, r: R.State) {
    && Honest(w) && w.Size() > 0
    && R.Valid(r)
    && (!r.phase.AwaitingOffer? && !r.phase.Done? ==> r.offer == S.TheOffer(w.SP()))
    && (r.phase.Writing? ==> r.hashed + r.phase.data <= w.bytes && |r.hashed| == r.nextOffset)
    && (r.phase.Completing? || r.phase.CommittingEmpty? ==> r.nextOffset == |w.bytes|)
  }

  /** The channels, the offsets and what they say of each other. */
  ghost predicate Net(w: Setup, l: Link)
    requires S.Runnable(w.SP()) && w.Size() > 0
  {
    && (!l.r.phase.AwaitingOffer? && !l.r.phase.Done? ==> Ours(w, l.r))
    && QueuesTrue(l)
    && QueuesGood(w, l)
    && Offsets(w, l)
    && NoAlarm(l.r.calls)
    && (l.s.phase.Offering? || l.s.phase.AwaitingAccept? ==> Quiet(w, l))
  }

  /** Everything but the full invariants of the two ends, which the lemmas about the channels do not need. */
  ghost predicate Fit(w: Setup, l: Link) {
    SenderFit(w, l.s) && ReceiverFit(w, l.r) && Net(w, l)
  }

  ghost predicate LinkInv(w: Setup, l: Link) {
    && Honest(w) && 0 < w.Size() <= w.config.senderMaxChunk
    && PairInv(w, l.s, l.r)
    && Net(w, l)
  }

  lemma ReceiverIsFit(w: Setup, r: R.State)
    requires Honest(w) && w.Size() > 0 && M.Inv(w.RP(), r) && TrueContent(w, r)
    requires !r.phase.AwaitingOffer? && !r.phase.Done? ==> Ours(w, r)
    ensures ReceiverFit(w, r)
  {
  }

  lemma SenderIsFit(w: Setup, s: S.State, r: R.State)
    requires Honest(w) && 0 < w.Size() <= w.config.senderMaxChunk && S.Inv(w.SP(), s) && TrueContent(w, r)
    requires PastAccept(s) ==> Ours(w, r) && s.chunkSize == R.Negotiated(w.RP(), r)
    ensures SenderFit(w, s)
  {
  }

  lemma LinkIsFit(w: Setup, l: Link)
    requires LinkInv(w, l)
    ensures Fit(w, l)
  {
    ReceiverIsFit(w, l.r);
    SenderIsFit(w, l.s, l.r);
  }
}
