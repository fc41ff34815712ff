/** The windowed go-back-N sender (`send_file_with_id_impl`).

    The sender is a state machine over its await points: `Step` consumes the environment's
    answer to the current await (a send result, or what the wait for an ack produced).
    `SendFileImpl` is the source's nested loops, proved to run exactly that machine. */
module Sender {
  import opened Basics
  import opened TransferTypes

  datatype SendConfig = SendConfig(senderMaxChunk: nat, windowChunks: nat, maxRetries: nat)

  datatype Params = Params(transferId: U32, bytes: seq<Byte>, config: SendConfig,
                           digest: seq<Byte> -> seq<Byte>)

  datatype SendFileResult = SendFileResult(transferId: U32, totalLen: nat, chunkSize: nat,
                                           chunksSent: nat, retries: nat)

  datatype Outcome = Sent(result: SendFileResult) | Failed(kind: ErrorKind)

  datatype Msg = OfferMsg(offer: Offer) | ChunkMsg(chunk: Chunk)

  datatype Phase = Offering | AwaitingAccept | Streaming | Done(outcome: Outcome)

  /** `sent` is the log of every message handed to the transport, delivered or not. */
  datatype State = State(phase: Phase, offerRetries: nat, chunkSize: nat,
                         lastAcked: U32, nextToSend: U32,
                         chunksSent: nat, retries: nat, sent: seq<Msg>)

  datatype SendAnswer = Delivered | SendErr(kind: ErrorKind)
  datatype WaitAnswer = GotAck(ack: Ack) | WaitErr(kind: ErrorKind)

  /** What the environment answers at one await; the await reads the field it needs. */
  datatype Answer = Answer(send: SendAnswer, wait: WaitAnswer)

  /** `SendConfig::validate` together with the two `u32::try_from` checks. */
  predicate Runnable(p: Params) {
    && p.config.senderMaxChunk > 0
    && p.config.windowChunks > 0
    && |p.bytes| < U32_LIMIT
    && p.config.senderMaxChunk < U32_LIMIT
  }

  function TheOffer(p: Params): Offer
    requires Runnable(p)
  {
    Offer(p.transferId, |p.bytes|, p.config.senderMaxChunk, [], Sha256, p.digest(p.bytes))
  }

  function Init(p: Params): State {
    State(if Runnable(p) then Offering else Done(Failed(Other)), 0, 0, 0, 0, 0, 0, [])
  }

  function Fail(s: State, kind: ErrorKind): State {
    s.(phase := Done(Failed(kind)))
  }

  /** `inflight_chunk_count`. */
  function InflightChunks(lastAcked: U32, nextToSend: U32, chunkSize: nat): nat
    requires chunkSize > 0
  {
    if nextToSend <= lastAcked then 0 else DivCeil(nextToSend - lastAcked, chunkSize)
  }

  /** The inner loop's guard: the window has room and bytes remain. */
  predicate CanSend(p: Params, s: State)
    requires s.chunkSize > 0
  {
    && InflightChunks(s.lastAcked, s.nextToSend, s.chunkSize) < p.config.windowChunks
    && s.nextToSend < |p.bytes|
  }

  /** What indexing into `bytes` and dividing by the chunk size rely on. */
  predicate Valid(p: Params, s: State) {
    && (s.phase.Offering? || s.phase.AwaitingAccept? ==>
          Runnable(p) && s.lastAcked == s.nextToSend == 0 && s.chunksSent == s.retries == 0)
    && (s.phase.Streaming? ==>
          && Runnable(p)
          && 0 < s.chunkSize <= p.config.senderMaxChunk
          && s.lastAcked < |p.bytes|
          && s.lastAcked <= s.nextToSend <= |p.bytes|)
  }

  /** The outer loop's guard: stop with success once everything is acknowledged. */
  function LoopHead(p: Params, s: State): State {
    if s.lastAcked < |p.bytes| then s
    else s.(phase := Done(Sent(SendFileResult(p.transferId, |p.bytes|, s.chunkSize, s.chunksSent, s.retries))))
  }

  /** The chunk transmitted from state `s`. */
  function NextChunk(p: Params, s: State): Chunk
    requires s.nextToSend <= |p.bytes|
  {
    var end := Min(s.nextToSend + s.chunkSize, |p.bytes|);
    Chunk(p.transferId, s.nextToSend, p.bytes[s.nextToSend..end])
  }

  function StepOffer(p: Params, s: State, a: SendAnswer): (t: State)
    requires Runnable(p)
  {
    var t := s.(sent := s.sent + [OfferMsg(TheOffer(p))]);
    if a.SendErr? && a.kind != Timeout then Fail(t, a.kind) else t.(phase := AwaitingAccept)
  }

  function StepAccept(p: Params, s: State, a: WaitAnswer): (t: State)
    requires Runnable(p)
  {
    match a
    case WaitErr(k) =>
      if k == Timeout && s.offerRetries + 1 <= p.config.maxRetries
      then s.(phase := Offering, offerRetries := s.offerRetries + 1)
      else Fail(s, k)
    case GotAck(ack) =>
      if ack.transferId != p.transferId then s
      else match ack.kind
        case Accept =>
          if ack.chunkSize == 0 || ack.chunkSize > p.config.senderMaxChunk then Fail(s, Other)
          else LoopHead(p, s.(phase := Streaming, chunkSize := ack.chunkSize))
        case Reject => Fail(s, Other)
        case Abort => Fail(s, Other)
        case Progress => s.(phase := Offering)
        case Complete => s.(phase := Offering)
  }

  function StepChunk(p: Params, s: State, a: SendAnswer): (t: State)
    requires s.phase.Streaming? && Valid(p, s)
  {
    var chunk := NextChunk(p, s);
    var t := s.(sent := s.sent + [ChunkMsg(chunk)]);
    if a.SendErr? then Fail(t, a.kind)
    else if s.nextToSend + |chunk.data| >= U32_LIMIT then Fail(t, Other)  // checked_add
    else t.(nextToSend := s.nextToSend + |chunk.data|, chunksSent := s.chunksSent + 1)
  }

  /** The range test on a progress or completion ack. */
  predicate AckInRange(p: Params, s: State, next: U32) {
    s.lastAcked <= next <= |p.bytes| && next <= s.nextToSend
  }

  function StepAck(p: Params, s: State, a: WaitAnswer): (t: State)
    requires s.phase.Streaming? && Valid(p, s)
  {
    match a
    case WaitErr(k) =>
      if k == Timeout then
        var t := s.(retries := s.retries + 1);
        if t.retries > p.config.maxRetries then Fail(t, k) else t.(nextToSend := s.lastAcked)
      else Fail(s, k)
    case GotAck(ack) =>
      if ack.transferId != p.transferId then s
      else match ack.kind
        case Accept => s
        case Reject => Fail(s, Other)
        case Abort => Fail(s, Other)
        case _ =>
          if !AckInRange(p, s, ack.nextOffset) then Fail(s, Other)
          else
            var t := s.(lastAcked := ack.nextOffset);
            if ack.kind == Complete && t.lastAcked != |p.bytes| then Fail(t, Other)
            else LoopHead(p, t)
  }

  /** One await point of the sender. */
  function Step(p: Params, s: State, a: Answer): (t: State)
    requires Valid(p, s)
    ensures Valid(p, t)
    ensures s.sent <= t.sent
  {
    match s.phase
    case Done(_) => s
    case Offering => StepOffer(p, s, a.send)
    case AwaitingAccept => StepAccept(p, s, a.wait)
    case Streaming => if CanSend(p, s) then StepChunk(p, s, a.send) else StepAck(p, s, a.wait)
  }

  /** Consume the answers from index `i` on. */
  function RunFrom(p: Params, s: State, answers: seq<Answer>, i: nat): (t: State)
    requires Valid(p, s) && i <= |answers|
    ensures Valid(p, t)
    decreases |answers| - i
  {
    if i == |answers| then s else RunFrom(p, Step(p, s, answers[i]), answers, i + 1)
  }

  /** The state a sender reaches on a whole sequence of answers. */
  function Run(p: Params, answers: seq<Answer>): (t: State)
    ensures Valid(p, t)
  {
    RunFrom(p, Init(p), answers, 0)
  }

  function OutcomeOf(s: State): Option<Outcome> {
    if s.phase.Done? then Some(s.phase.outcome) else None
  }

  // ---------- The source's loops, proved to run the machine ----------

  lemma {:induction false} DoneIsFinal(p: Params, s: State, answers: seq<Answer>, i: nat)
    requires Valid(p, s) && s.phase.Done? && i <= |answers|
    ensures RunFrom(p, s, answers, i) == s
    decreases |answers| - i
  {
    if i < |answers| {
      DoneIsFinal(p, s, answers, i + 1);
    }
  }

  predicate Foreign(p: Params, a: WaitAnswer) {
    a.GotAck? && a.ack.transferId != p.transferId
  }

  predicate Waiting(p: Params, s: State)
    requires Valid(p, s)
  {
    s.phase.AwaitingAccept? || (s.phase.Streaming? && !CanSend(p, s))
  }

  /** `wait_for_transfer_ack`: acks of other transfers are discarded. `None` when the answers run out. */
  method WaitForTransferAck(p: Params, ghost s: State, answers: seq<Answer>, start: nat)
    returns (res: Option<WaitAnswer>, i: nat)
    requires Valid(p, s) && Waiting(p, s) && start <= |answers|
    ensures start <= i <= |answers|
    ensures res.None? ==> RunFrom(p, s, answers, start) == s
    ensures res.Some? ==>
      && start < i && res.value == answers[i - 1].wait && !Foreign(p, res.value)
      && RunFrom(p, s, answers, start) == RunFrom(p, Step(p, s, answers[i - 1]), answers, i)
  {
    i := start;
    while i < |answers|
      invariant start <= i <= |answers|
      invariant RunFrom(p, s, answers, start) == RunFrom(p, s, answers, i)
    {
      i := i + 1;
      if !Foreign(p, answers[i - 1].wait) {
        return Some(answers[i - 1].wait), i;
      }
    }
    return None, i;
  }

  /** The state of the offer loop. */
  function OfferState(offerRetries: nat, sent: seq<Msg>): State { State(Offering, offerRetries, 0, 0, 0, 0, 0, sent) }

  /** One round of the offer loop: send the offer and wait. `stop` with an accept if it came; otherwise `stop` says that
      `out` and `sent` are final. */
  method OfferRound(p: Params, answers: seq<Answer>, start: nat, offerRetries0: nat, sent0: seq<Msg>)
      returns (stop: bool, accept: Option<Ack>, out: Option<Outcome>, sent: seq<Msg>, i: nat, offerRetries: nat,
               ghost s: State)
    requires Runnable(p) && start < |answers|
    ensures stop && accept.None? ==>
      var fin := RunFrom(p, OfferState(offerRetries0, sent0), answers, start); OutcomeOf(fin) == out && fin.sent == sent
    ensures accept.Some? ==>
      && stop && start < i <= |answers| && answers[i - 1].wait == GotAck(accept.value)
      && accept.value.transferId == p.transferId && accept.value.kind.Accept?
      && Valid(p, s) && s.phase.AwaitingAccept? && s.sent == sent
      && RunFrom(p, OfferState(offerRetries0, sent0), answers, start)
           == RunFrom(p, Step(p, s, answers[i - 1]), answers, i)
    ensures !stop ==>
      && accept == None && out == None && start < i <= |answers|
      && RunFrom(p, OfferState(offerRetries0, sent0), answers, start)
           == RunFrom(p, OfferState(offerRetries, sent), answers, i)
  {
    s := Step(p, OfferState(offerRetries0, sent0), answers[start]);
    stop, accept, out, offerRetries := true, None, None, offerRetries0;
    sent := sent0 + [OfferMsg(TheOffer(p))];
    var r := answers[start].send;
    i := start + 1;
    if r.SendErr? && r.kind != Timeout {
      DoneIsFinal(p, s, answers, i);
      out := Some(Failed(r.kind));
      return;
    }
    var w;
    w, i := WaitForTransferAck(p, s, answers, i);
    if w.None? {
      return;
    }
    var fatal;
    fatal, accept, offerRetries := HandleOfferWait(p, s, w.value, offerRetries);
    if accept.Some? {
      return;
    }
    s := Step(p, s, answers[i - 1]);
    if fatal.Some? {
      DoneIsFinal(p, s, answers, i);
      out := Some(Failed(fatal.value));
      return;
    }
    stop := false;
  }

  /** The offer loop: resend until an accept, a refusal or exhausted retries. Without an accept, `out`
      and `sent` are final; otherwise the accept answers the await of state `s`. */
  method OfferLoop(p: Params, answers: seq<Answer>)
    returns (accept: Option<Ack>, out: Option<Outcome>, sent: seq<Msg>, i: nat, ghost s: State)
    requires Runnable(p)
    ensures accept.None? ==> var fin := Run(p, answers); OutcomeOf(fin) == out && fin.sent == sent
    ensures accept.Some? ==>
      && 0 < i <= |answers| && answers[i - 1].wait == GotAck(accept.value)
      && accept.value.transferId == p.transferId && accept.value.kind.Accept?
      && Valid(p, s) && s.phase.AwaitingAccept? && s.sent == sent
      && Run(p, answers) == RunFrom(p, Step(p, s, answers[i - 1]), answers, i)
  {
    s, sent, i, accept, out := Init(p), [], 0, None, None;
    var offerRetries := 0;
    while i < |answers|
      invariant i <= |answers| && accept == None && out == None
      invariant Run(p, answers) == RunFrom(p, OfferState(offerRetries, sent), answers, i)
    {
      var stop;
      stop, accept, out, sent, i, offerRetries, s := OfferRound(p, answers, i, offerRetries, sent);
      if stop {
        return;
      }
    }
  }

  /** What an answered wait for the accept leads to: an error, the accept, or another offer. */
  method HandleOfferWait(p: Params, ghost s: State, w: WaitAnswer, offerRetries0: nat)
    returns (fatal: Option<ErrorKind>, accept: Option<Ack>, offerRetries: nat)
    requires Runnable(p) && s.phase.AwaitingAccept? && !Foreign(p, w) && s.offerRetries == offerRetries0
    ensures accept.Some? ==>
      w == GotAck(accept.value) && accept.value.transferId == p.transferId && accept.value.kind.Accept?
    ensures accept.None? && fatal.Some? ==> StepAccept(p, s, w) == Fail(s, fatal.value)
    ensures accept.None? && fatal.None? ==> StepAccept(p, s, w) == s.(phase := Offering, offerRetries := offerRetries)
  {
    fatal, accept, offerRetries := None, None, offerRetries0;
    match w {
      case WaitErr(k) =>
        if k != Timeout || offerRetries + 1 > p.config.maxRetries {
          fatal := Some(k);
        } else {
          offerRetries := offerRetries + 1;
        }
      case GotAck(ack) =>
        if ack.kind == Accept {
          accept := Some(ack);
        } else if ack.kind == Reject || ack.kind == Abort {
          fatal := Some(Other);
        }
    }
  }

  lemma ChunkStep(p: Params, s: State, a: Answer)
    requires Valid(p, s) && s.phase.Streaming? && CanSend(p, s)
    ensures var c := NextChunk(p, s);
      var t := s.(sent := s.sent + [ChunkMsg(c)]);
      Step(p, s, a) == if a.send.SendErr? then Fail(t, a.send.kind)
        else t.(nextToSend := s.nextToSend + |c.data|, chunksSent := s.chunksSent + 1)
  {
  }

  /** One transmission of the inner loop; `stop` if it failed. */
  method SendOne(
      p: Params, ghost s0: State, answers: seq<Answer>, start: nat, next0: U32, chunkSize: nat, sent0: seq<Msg>)
    returns (stop: bool, out: Option<Outcome>, nextToSend: U32, sent: seq<Msg>)
    requires Valid(p, s0) && s0.phase.Streaming? && CanSend(p, s0) && start < |answers|
    requires s0.nextToSend == next0 && s0.chunkSize == chunkSize && s0.sent == sent0
    ensures stop ==> var fin := RunFrom(p, s0, answers, start); OutcomeOf(fin) == out && fin.sent == sent
    ensures !stop ==>
      && out == None && next0 <= nextToSend <= |p.bytes|
      && Step(p, s0, answers[start]) == s0.(nextToSend := nextToSend, chunksSent := s0.chunksSent + 1, sent := sent)
  {
    ChunkStep(p, s0, answers[start]);
    var end := Min(next0 + chunkSize, |p.bytes|);
    var data := p.bytes[next0..end];
    sent := sent0 + [ChunkMsg(Chunk(p.transferId, next0, data))];
    var r := answers[start].send;
    if r.SendErr? {
      DoneIsFinal(p, Step(p, s0, answers[start]), answers, start + 1);
      return true, Some(Failed(r.kind)), next0, sent;
    }
    return false, None, next0 + |data|, sent;
  }

  /** The inner loop: transmit chunks until the window is full or the file is exhausted. When `stop`,
      the transfer ended (or the answers ran out) during a transmission, with outcome `out`. */
  method FillWindow(p: Params, ghost s0: State, answers: seq<Answer>, start: nat, lastAcked: U32,
                    chunkSize: nat, next0: U32, chunksSent0: nat, sent0: seq<Msg>)
    returns (stop: bool, out: Option<Outcome>, i: nat, nextToSend: U32, chunksSent: nat, sent: seq<Msg>, ghost s: State)
    requires Valid(p, s0) && start <= |answers| && s0.phase.Streaming?
    requires s0.lastAcked == lastAcked && s0.chunkSize == chunkSize
    requires s0.nextToSend == next0 && s0.chunksSent == chunksSent0 && s0.sent == sent0
    ensures stop ==> var fin := RunFrom(p, s0, answers, start); OutcomeOf(fin) == out && fin.sent == sent
    ensures !stop ==>
      && start <= i <= |answers| && Valid(p, s)
      && s == s0.(nextToSend := nextToSend, chunksSent := chunksSent, sent := sent) && !CanSend(p, s)
      && RunFrom(p, s0, answers, start) == RunFrom(p, s, answers, i)
  {
    s, i, nextToSend, chunksSent, sent, stop, out := s0, start, next0, chunksSent0, sent0, false, None;
    while InflightChunks(lastAcked, nextToSend, chunkSize) < p.config.windowChunks && nextToSend < |p.bytes|
      invariant start <= i <= |answers| && lastAcked <= nextToSend <= |p.bytes| && !stop && out == None
      invariant s == s0.(nextToSend := nextToSend, chunksSent := chunksSent, sent := sent)
      invariant RunFrom(p, s0, answers, start) == RunFrom(p, s, answers, i)
      decreases |answers| - i
    {
      if i == |answers| {
        stop := true;
        return;
      }
      stop, out, nextToSend, sent := SendOne(p, s, answers, i, nextToSend, chunkSize, sent);
      if stop {
        return;
      }
      s, i, chunksSent := Step(p, s, answers[i]), i + 1, chunksSent + 1;
    }
  }

  /** The body's last part: what an answered wait does to the loop variables, or the error it returns. */
  method HandleWait(p: Params, ghost s: State, w: WaitAnswer, lastAcked0: U32, nextToSend0: U32, retries0: nat)
    returns (fatal: Option<ErrorKind>, lastAcked: U32, nextToSend: U32, retries: nat)
    requires Valid(p, s) && s.phase.Streaming? && !Foreign(p, w)
    requires s.lastAcked == lastAcked0 && s.nextToSend == nextToSend0 && s.retries == retries0
    ensures fatal.Some? ==> OutcomeOf(StepAck(p, s, w)) == Some(Failed(fatal.value)) && StepAck(p, s, w).sent == s.sent
    ensures fatal.None? ==>
      && lastAcked <= nextToSend <= |p.bytes|
      && StepAck(p, s, w) == LoopHead(p, s.(lastAcked := lastAcked, nextToSend := nextToSend, retries := retries))
  {
    fatal, lastAcked, nextToSend, retries := None, lastAcked0, nextToSend0, retries0;
    match w {
      case WaitErr(k) =>
        if k != Timeout {
          return Some(k), lastAcked, nextToSend, retries;
        }
        retries := retries + 1;
        if retries > p.config.maxRetries {
          return Some(k), lastAcked, nextToSend, retries;
        }
        nextToSend := lastAcked;
      case GotAck(ack) =>
        if ack.kind == Reject || ack.kind == Abort {
          return Some(Other), lastAcked, nextToSend, retries;
        }
        if ack.kind != Accept {
          var next := ack.nextOffset;
          if next < lastAcked || next > |p.bytes| || next > nextToSend {
            return Some(Other), lastAcked, nextToSend, retries;
          }
          lastAcked := next;
          if ack.kind == Complete && lastAcked != |p.bytes| {
            return Some(Other), lastAcked, nextToSend, retries;
          }
        }
    }
  }

  /** The outer loop: fill the window, wait, handle the answer, until everything is acknowledged. */
  method StreamLoop(p: Params, ghost s0: State, answers: seq<Answer>, start: nat, chunkSize: nat, sent0: seq<Msg>)
    returns (out: Option<Outcome>, sent: seq<Msg>)
    requires start <= |answers| && Runnable(p) && 0 < chunkSize <= p.config.senderMaxChunk
    requires s0 == LoopHead(p, State(Streaming, s0.offerRetries, chunkSize, 0, 0, 0, 0, sent0))
    ensures var fin := RunFrom(p, s0, answers, start); out == OutcomeOf(fin) && sent == fin.sent
  {
    var i := start;
    var chunksSent, retries := 0, 0;
    var lastAcked: U32, nextToSend: U32 := 0, 0;
    ghost var s := s0;
    sent := sent0;
    while lastAcked < |p.bytes|
      invariant i <= |answers|
      invariant lastAcked <= nextToSend <= |p.bytes|
      invariant s == LoopHead(
        p, State(Streaming, s0.offerRetries, chunkSize, lastAcked, nextToSend, chunksSent, retries, sent))
      invariant RunFrom(p, s0, answers, start) == RunFrom(p, s, answers, i)
      decreases |answers| - i
    {
      var stop;
      stop, out, i, nextToSend, chunksSent, sent, s :=
        FillWindow(p, s, answers, i, lastAcked, chunkSize, nextToSend, chunksSent, sent);
      if stop {
        return;
      }
      var w;
      w, i := WaitForTransferAck(p, s, answers, i);
      if w.None? {
        return None, sent;
      }
      var fatal;
      fatal, lastAcked, nextToSend, retries := HandleWait(p, s, w.value, lastAcked, nextToSend, retries);
      s := Step(p, s, answers[i - 1]);
      if fatal.Some? {
        DoneIsFinal(p, s, answers, i);
        return Some(Failed(fatal.value)), sent;
      }
    }
    DoneIsFinal(p, s, answers, i);
    out := Some(Sent(SendFileResult(p.transferId, |p.bytes|, chunkSize, chunksSent, retries)));
  }

  /** `send_file_with_id_impl`: the outcome (`None` while still waiting when the answers run out)
      and the transmitted messages are those of the state machine, for every environment. */
  method SendFileImpl(p: Params, answers: seq<Answer>) returns (out: Option<Outcome>, sent: seq<Msg>)
    ensures out == OutcomeOf(Run(p, answers))
    ensures sent == Run(p, answers).sent
  {
    if !Runnable(p) {
      DoneIsFinal(p, Init(p), answers, 0);
      return Some(Failed(Other)), [];
    }
    var accept, i;
    ghost var s;
    accept, out, sent, i, s := OfferLoop(p, answers);
    if accept.None? {
      return;
    }
    s := Step(p, s, answers[i - 1]);
    var chunkSize: nat := accept.value.chunkSize;
    if chunkSize == 0 || chunkSize > p.config.senderMaxChunk {
      DoneIsFinal(p, s, answers, i);
      return Some(Failed(Other)), sent;
    }
    out, sent := StreamLoop(p, s, answers, i, chunkSize, sent);
  }

  // ---------- What the sender keeps against any environment ----------

  function CountChunks(log: seq<Msg>): nat {
    if log == [] then 0
    else CountChunks(log[..|log| - 1]) + if log[|log| - 1].ChunkMsg? then 1 else 0
  }

  /** A chunk that carries exactly the file's bytes at its offset. */
  predicate GoodChunk(p: Params, chunkSize: nat, c: Chunk) {
    && c.transferId == p.transferId
    && c.offset < |p.bytes|
    && c.data == p.bytes[c.offset..Min(c.offset + chunkSize, |p.bytes|)]
  }

  predicate GoodMsg(p: Params, chunkSize: nat, m: Msg) {
    match m
    case OfferMsg(o) => Runnable(p) && o == TheOffer(p)
    case ChunkMsg(c) => GoodChunk(p, chunkSize, c)
  }

  predicate GoodLog(p: Params, chunkSize: nat, log: seq<Msg>) {
    forall k :: 0 <= k < |log| ==> GoodMsg(p, chunkSize, log[k])
  }

  /** Chunks sent plus chunks still to send lies between the minimum and that plus the retransmissions. */
  predicate Accounted(p: Params, s: State)
    requires s.chunkSize > 0 && s.nextToSend <= |p.bytes|
  {
    var need := DivCeil(|p.bytes|, s.chunkSize);
    need <= s.chunksSent + DivCeil(|p.bytes| - s.nextToSend, s.chunkSize)
         <= need + s.retries * p.config.windowChunks
  }

  ghost predicate Inv(p: Params, s: State) {
    && Valid(p, s)
    && GoodLog(p, s.chunkSize, s.sent)
    && (s.phase.Offering? || s.phase.AwaitingAccept? ==>
          s.offerRetries <= p.config.maxRetries && s.chunkSize == 0 && CountChunks(s.sent) == 0)
    && (s.phase.Streaming? ==>
          && s.chunksSent == CountChunks(s.sent)
          && s.retries <= p.config.maxRetries
          && s.nextToSend - s.lastAcked <= p.config.windowChunks * s.chunkSize
          && Accounted(p, s))
    && (s.phase.Done? && s.phase.outcome.Sent? ==>
          && var r := s.phase.outcome.result;
          && r == SendFileResult(p.transferId, |p.bytes|, s.chunkSize, s.chunksSent, s.retries)
          && 0 < s.chunkSize <= p.config.senderMaxChunk
          && s.lastAcked == s.nextToSend == |p.bytes|
          && s.chunksSent == CountChunks(s.sent)
          && s.retries <= p.config.maxRetries
          && Accounted(p, s))
  }

  lemma CountAppend(log: seq<Msg>, m: Msg)
    ensures CountChunks(log + [m]) == CountChunks(log) + if m.ChunkMsg? then 1 else 0
  {
    assert (log + [m])[..|log|] == log;
  }

  /** A log without chunks is good for any chunk size. */
  lemma {:induction false} NoChunksYet(p: Params, log: seq<Msg>, c: nat, d: nat)
    requires GoodLog(p, c, log) && CountChunks(log) == 0
    ensures GoodLog(p, d, log)
  {
    if log != [] {
      NoChunksYet(p, log[..|log| - 1], c, d);
    }
  }

  lemma AcceptKeepsInv(p: Params, s: State, a: WaitAnswer)
    requires Inv(p, s) && s.phase.AwaitingAccept?
    ensures Inv(p, StepAccept(p, s, a))
  {
    NoChunksYet(p, s.sent, s.chunkSize, StepAccept(p, s, a).chunkSize);
  }

  /** Filling a window that has room keeps it within `w` chunks. */
  lemma RoomForOne(last: U32, next: U32, c: nat, w: nat)
    requires c > 0 && last <= next && InflightChunks(last, next, c) < w
    ensures next + c - last <= w * c
  {
    if next > last {
      DivCeilRoom(next - last, c, w);
    } else {
      MulMonotone(1, w, c);
    }
  }

  lemma ChunkKeepsLog(p: Params, s: State, a: SendAnswer)
    requires s.phase.Streaming? && Valid(p, s) && s.nextToSend < |p.bytes| && GoodLog(p, s.chunkSize, s.sent)
    ensures GoodLog(p, s.chunkSize, StepChunk(p, s, a).sent)
    ensures CountChunks(StepChunk(p, s, a).sent) == CountChunks(s.sent) + 1
  {
    var c := ChunkMsg(NextChunk(p, s));
    CountAppend(s.sent, c);
    assert GoodMsg(p, s.chunkSize, c);
    assert (s.sent + [c])[..|s.sent|] == s.sent;
  }

  lemma ChunkKeepsCount(p: Params, s: State, a: SendAnswer)
    requires s.phase.Streaming? && Valid(p, s) && CanSend(p, s) && Accounted(p, s)
    ensures var t := StepChunk(p, s, a);
      t.phase.Streaming? ==> t.nextToSend - t.lastAcked <= p.config.windowChunks * t.chunkSize && Accounted(p, t)
  {
    RoomForOne(s.lastAcked, s.nextToSend, s.chunkSize, p.config.windowChunks);
  }

  /** One transmission: the count of chunks sent plus still needed is unchanged, and the window holds. */
  lemma ChunkKeepsInv(p: Params, s: State, a: SendAnswer)
    requires Inv(p, s) && s.phase.Streaming? && CanSend(p, s)
    ensures Inv(p, StepChunk(p, s, a))
  {
    ChunkKeepsLog(p, s, a);
    ChunkKeepsCount(p, s, a);
  }

  /** A timeout falls back at most one window, so it costs at most one window of chunks. */
  lemma AckKeepsInv(p: Params, s: State, a: WaitAnswer)
    requires Inv(p, s) && s.phase.Streaming? && !CanSend(p, s)
    ensures Inv(p, StepAck(p, s, a))
  {
    var w := p.config.windowChunks;
    if a == WaitErr(Timeout) {
      DivCeilGrowth(|p.bytes| - s.nextToSend, |p.bytes| - s.lastAcked, s.chunkSize, w);
      MulAdd(s.retries, 1, w);
    }
  }

  lemma StepKeepsInv(p: Params, s: State, a: Answer)
    requires Inv(p, s)
    ensures Inv(p, Step(p, s, a))
  {
    match s.phase
    case Done(_) =>
    case Offering => CountAppend(s.sent, OfferMsg(TheOffer(p)));
    case AwaitingAccept => AcceptKeepsInv(p, s, a.wait);
    case Streaming =>
      if CanSend(p, s) {
        ChunkKeepsInv(p, s, a.send);
      } else {
        AckKeepsInv(p, s, a.wait);
      }
  }

  lemma {:induction false} RunKeepsInv(p: Params, s: State, answers: seq<Answer>, i: nat)
    requires Inv(p, s) && i <= |answers|
    ensures Inv(p, RunFrom(p, s, answers, i))
    decreases |answers| - i
  {
    if i < |answers| {
      StepKeepsInv(p, s, answers[i]);
      RunKeepsInv(p, Step(p, s, answers[i]), answers, i + 1);
    }
  }

  /** Against every environment, honest or not, at every await: acknowledged <= sent <= total, no more
      than a window outstanding, the offset addition fits in 32 bits, and every message on the wire is
      the offer or a true slice of the file. */
  lemma SenderSafety(p: Params, answers: seq<Answer>)
    ensures var s := Run(p, answers);
      && GoodLog(p, s.chunkSize, s.sent)
      && (s.phase.Streaming? ==>
            && s.lastAcked <= s.nextToSend <= |p.bytes|
            && s.nextToSend - s.lastAcked <= p.config.windowChunks * s.chunkSize
            && s.nextToSend + |NextChunk(p, s).data| < U32_LIMIT
            && s.retries <= p.config.maxRetries)
  {
    RunKeepsInv(p, Init(p), answers, 0);
  }

  /** On success the number of chunks sent is the minimum, plus at most one window per retry. */
  lemma SuccessAccounting(p: Params, answers: seq<Answer>)
    requires OutcomeOf(Run(p, answers)).Some?
    requires OutcomeOf(Run(p, answers)).value.Sent?
    ensures var s := Run(p, answers);
      var r := s.phase.outcome.result;
      && r.chunkSize > 0 && r.totalLen == |p.bytes| && s.lastAcked == |p.bytes|
      && r.chunksSent == CountChunks(s.sent)
      && DivCeil(|p.bytes|, r.chunkSize) <= r.chunksSent
      && r.chunksSent <= DivCeil(|p.bytes|, r.chunkSize) + r.retries * p.config.windowChunks
      && (r.retries == 0 ==> r.chunksSent == DivCeil(|p.bytes|, r.chunkSize))
      && r.retries <= p.config.maxRetries
  {
    RunKeepsInv(p, Init(p), answers, 0);
    var s := Run(p, answers);
  }
}
