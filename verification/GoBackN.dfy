/** What the sender puts on the wire, against any environment: the window it sends, the window it sends again after a
    timeout, the offers it repeats, and when it gives up. */
module GoBackN {
  import opened Basics
  import opened TransferTypes
  import opened Sender

  lemma {:induction false} RunFromConcat(p: Params, s: State, a: seq<Answer>, b: seq<Answer>, i: nat)
    requires Valid(p, s) && i <= |a|
    ensures RunFrom(p, s, a + b, i) == RunFrom(p, RunFrom(p, s, a, i), b, 0)
    decreases |a| - i
  {
    if i < |a| {
      RunFromConcat(p, Step(p, s, a[i]), a, b, i + 1);
    } else {
      SkipFront(p, s, a, b, 0);
    }
  }

  lemma {:induction false} SkipFront(p: Params, s: State, a: seq<Answer>, b: seq<Answer>, i: nat)
    requires Valid(p, s) && i <= |b|
    ensures RunFrom(p, s, a + b, |a| + i) == RunFrom(p, s, b, i)
    decreases |b| - i
  {
    if i < |b| {
      SkipFront(p, Step(p, s, b[i]), a, b, i + 1);
    }
  }

  lemma RunConcat(p: Params, a: seq<Answer>, b: seq<Answer>)
    ensures Run(p, a + b) == RunFrom(p, Run(p, a), b, 0)
  {
    RunFromConcat(p, Init(p), a, b, 0);
  }

  lemma RunShort(p: Params, s: State, answers: seq<Answer>)
    requires Valid(p, s) && 1 <= |answers| <= 2
    ensures var t := Step(p, s, answers[0]);
      RunFrom(p, s, answers, 0) == if |answers| == 1 then t else Step(p, t, answers[1])
  {
    var t := Step(p, s, answers[0]);
    if |answers| == 2 {
      assert RunFrom(p, t, answers, 1) == RunFrom(p, Step(p, t, answers[1]), answers, 2);
    }
  }

  // ---------- The window ----------

  /** The next `n` chunks of the file from an offset, fewer if it ends before. */
  function Slices(p: Params, from: nat, size: nat, n: nat): seq<Msg>
    requires Runnable(p)
    decreases n
  {
    if n == 0 || from >= |p.bytes| then []
    else
      var end := Min(from + size, |p.bytes|);
      [ChunkMsg(Chunk(p.transferId, from, p.bytes[from..end]))] + Slices(p, from + size, size, n - 1)
  }

  predicate AllDelivered(answers: seq<Answer>, i: nat) {
    forall k :: i <= k < |answers| ==> answers[k].send.Delivered?
  }

  /** One chunk out: one place less in the window. */
  lemma SendsOne(p: Params, s: State, a: Answer, room: nat)
    requires Valid(p, s) && s.phase.Streaming? && a.send.Delivered? && room > 0 && s.nextToSend < |p.bytes|
    requires InflightChunks(s.lastAcked, s.nextToSend, s.chunkSize) + room == p.config.windowChunks
    ensures var t := Step(p, s, a);
      var slice := Slices(p, s.nextToSend, s.chunkSize, 1);
      && t == s.(nextToSend := Min(s.nextToSend + s.chunkSize, |p.bytes|), chunksSent := s.chunksSent + 1,
                 sent := s.sent + slice)
      && (t.nextToSend < |p.bytes| ==>
            InflightChunks(t.lastAcked, t.nextToSend, t.chunkSize) + (room - 1) == p.config.windowChunks)
  {
    ChunkStep(p, s, a);
    var n := s.nextToSend - s.lastAcked;
    assert DivCeil(n + s.chunkSize, s.chunkSize) == 1 + DivCeil(n, s.chunkSize);
    assert Slices(p, s.nextToSend, s.chunkSize, 1) == [ChunkMsg(NextChunk(p, s))] + [];
  }

  /** With `room` places in the window the sender transmits that many chunks, in order and without gap, or up to the
      end of the file, and then waits. */
  lemma {:induction false} FillsWindow(p: Params, s: State, answers: seq<Answer>, i: nat, room: nat)
    requires Valid(p, s) && s.phase.Streaming? && i <= |answers| && AllDelivered(answers, i)
    requires s.nextToSend < |p.bytes| ==>
      InflightChunks(s.lastAcked, s.nextToSend, s.chunkSize) + room == p.config.windowChunks
    requires |answers| - i == |Slices(p, s.nextToSend, s.chunkSize, room)|
    ensures var t := RunFrom(p, s, answers, i);
      && t == s.(nextToSend := t.nextToSend, chunksSent := s.chunksSent + (|answers| - i),
                 sent := s.sent + Slices(p, s.nextToSend, s.chunkSize, room))
      && !CanSend(p, t)
    decreases room
  {
    if room > 0 && s.nextToSend < |p.bytes| {
      var t := Step(p, s, answers[i]);
      SendsOne(p, s, answers[i], room);
      var first := Slices(p, s.nextToSend, s.chunkSize, 1);
      var rest := Slices(p, s.nextToSend + s.chunkSize, s.chunkSize, room - 1);
      assert Slices(p, s.nextToSend, s.chunkSize, room) == first + rest;
      assert t.nextToSend == |p.bytes| ==> rest == [];
      FillsWindow(p, t, answers, i + 1, room - 1);
      Associative(s.sent, first, rest);
    } else {
      assert s.sent + [] == s.sent;
    }
  }

  /** Go back N: after a timeout within the retry limit the sender transmits again, from the first byte that is not
      acknowledged, a whole window of chunks (or up to the end of the file), and waits. */
  lemma {:induction false} TimeoutResends(p: Params, before: seq<Answer>, more: seq<Answer>)
    requires var s := Run(p, before);
      && s.phase.Streaming? && !CanSend(p, s) && s.retries < p.config.maxRetries
      && |more| == 1 + |Slices(p, s.lastAcked, s.chunkSize, p.config.windowChunks)|
    requires more[0].wait == WaitErr(Timeout) && AllDelivered(more, 1)
    ensures var s, t := Run(p, before), Run(p, before + more);
      && t.sent == s.sent + Slices(p, s.lastAcked, s.chunkSize, p.config.windowChunks)
      && t.sent[|s.sent|].ChunkMsg? && t.sent[|s.sent|].chunk.offset == s.lastAcked
      && t.phase.Streaming? && !CanSend(p, t) && t.lastAcked == s.lastAcked && t.retries == s.retries + 1
  {
    var s := Run(p, before);
    RunConcat(p, before, more);
    FillsWindow(p, Step(p, s, more[0]), more, 1, p.config.windowChunks);
  }

  // ---------- The offers ----------

  function Offers(p: Params, n: nat): seq<Msg>
    requires Runnable(p)
  {
    seq(n, _ => OfferMsg(TheOffer(p)))
  }

  /** A round of the offer loop: the offer went out or timed out on the way, and no ack came. */
  predicate InVain(round: seq<Answer>) {
    && |round| == 2 && (round[0].send.Delivered? || round[0].send == SendErr(Timeout))
    && round[1].wait == WaitErr(Timeout)
  }

  function Rounds(n: nat, round: seq<Answer>): seq<Answer> { if n == 0 then [] else Rounds(n - 1, round) + round }

  /** Without an ack the sender makes one offer more than it has retries and then reports the timeout. */
  lemma {:induction false} OffersRepeated(p: Params, n: nat, round: seq<Answer>)
    requires Runnable(p) && InVain(round) && n <= p.config.maxRetries + 1
    ensures var s := Run(p, Rounds(n, round));
      && s.sent == Offers(p, n)
      && s == Init(p).(offerRetries := Min(n, p.config.maxRetries), sent := Offers(p, n),
                       phase := if n <= p.config.maxRetries then Offering else Done(Failed(Timeout)))
  {
    if n > 0 {
      OffersRepeated(p, n - 1, round);
      var was := Run(p, Rounds(n - 1, round));
      RunConcat(p, Rounds(n - 1, round), round);
      RunShort(p, was, round);
      assert Offers(p, n) == Offers(p, n - 1) + [OfferMsg(TheOffer(p))];
    }
  }

  /** An accept after any number of such rounds starts the transfer with the accepted chunk size, or ends it at once
      if there is nothing to send; a size outside 1..max is refused. */
  lemma {:induction false} AcceptStarts(p: Params, n: nat, round: seq<Answer>, last: seq<Answer>, ack: Ack)
    requires Runnable(p) && InVain(round) && n <= p.config.maxRetries
    requires |last| == 2 && (last[0].send.Delivered? || last[0].send == SendErr(Timeout)) && last[1].wait == GotAck(ack)
    requires ack.transferId == p.transferId && ack.kind == Accept
    ensures var s := Run(p, Rounds(n, round) + last);
      && s.sent == Offers(p, n + 1)
      && (ack.chunkSize == 0 || ack.chunkSize > p.config.senderMaxChunk ==> s.phase == Done(Failed(Other)))
      && (0 < ack.chunkSize <= p.config.senderMaxChunk ==>
            && s.chunkSize == ack.chunkSize && s.lastAcked == s.nextToSend == 0
            && (if |p.bytes| > 0 then s.phase == Streaming
                else s.phase == Done(Sent(SendFileResult(p.transferId, 0, ack.chunkSize, 0, 0)))))
  {
    OffersRepeated(p, n, round);
    var was := Run(p, Rounds(n, round));
    RunConcat(p, Rounds(n, round), last);
    RunShort(p, was, last);
    assert Offers(p, n + 1) == Offers(p, n) + [OfferMsg(TheOffer(p))];
  }

  // ---------- Giving up ----------

  /** A configuration or a file that the sender refuses before it says anything. */
  lemma RefusedAtOnce(p: Params, answers: seq<Answer>)
    requires p.config.senderMaxChunk == 0 || p.config.windowChunks == 0 || |p.bytes| >= U32_LIMIT
      || p.config.senderMaxChunk >= U32_LIMIT
    ensures var s := Run(p, answers); s.phase == Done(Failed(Other)) && s.sent == []
  {
    DoneIsFinal(p, Init(p), answers, 0);
  }

  /** Every other one is offered. */
  lemma OffersFirst(p: Params, a: Answer)
    requires 0 < p.config.senderMaxChunk < U32_LIMIT && p.config.windowChunks > 0 && |p.bytes| < U32_LIMIT
    ensures var o := Offer(p.transferId, |p.bytes|, p.config.senderMaxChunk, [], Sha256, p.digest(p.bytes));
      Run(p, [a]).sent == [OfferMsg(o)]
  {
    RunShort(p, Init(p), [a]);
  }

  /** What ends a wait in failure: an error other than a timeout, a timeout beyond the limit, a refusal or an abort, an
      accept with a size that was not offered, an ack below what is acknowledged or above what was sent, and a
      completion that is not of the whole file. */
  predicate Fatal(p: Params, s: State, a: WaitAnswer) {
    match a
    case WaitErr(k) => k != Timeout || p.config.maxRetries <= if s.phase.Streaming? then s.retries else s.offerRetries
    case GotAck(ack) =>
      && ack.transferId == p.transferId
      && match ack.kind
         case Reject => true
         case Abort => true
         case Accept => s.phase.AwaitingAccept? && !(1 <= ack.chunkSize <= p.config.senderMaxChunk)
         case Progress => s.phase.Streaming? && !(s.lastAcked <= ack.nextOffset <= s.nextToSend)
         case Complete =>
           s.phase.Streaming? && !(s.lastAcked <= ack.nextOffset <= s.nextToSend && ack.nextOffset == |p.bytes|)
  }

  /** A wait ends in failure exactly at these answers, with the error of the wait or, for an ack, `Other`; nothing is
      sent at a wait, and a transfer that has failed sends nothing more. */
  lemma FailsIff(p: Params, before: seq<Answer>, a: Answer, more: seq<Answer>)
    requires Waiting(p, Run(p, before))
    ensures var s, t := Run(p, before), Run(p, before + [a]);
      && t.sent == s.sent
      && (t.phase.Done? && t.phase.outcome.Failed? <==> Fatal(p, s, a.wait))
      && (Fatal(p, s, a.wait) ==>
            && t.phase.outcome == Failed(if a.wait.WaitErr? then a.wait.kind else Other)
            && Run(p, before + [a] + more) == t)
  {
    RunConcat(p, before, [a]);
    RunConcat(p, before + [a], more);
    var t := Run(p, before + [a]);
    assert t == Step(p, Run(p, before), a);
    if t.phase.Done? {
      DoneIsFinal(p, t, more, 0);
    }
  }

  /** A transmission ends the transfer exactly if it fails, except that an offer may time out; the message counts as
      sent either way. */
  lemma SendFailsIff(p: Params, before: seq<Answer>, a: Answer)
    requires var s := Run(p, before); s.phase.Offering? || (s.phase.Streaming? && CanSend(p, s))
    ensures var s, t := Run(p, before), Run(p, before + [a]);
      && |t.sent| == |s.sent| + 1
      && (t.phase.Done? <==> a.send.SendErr? && (s.phase.Streaming? || a.send.kind != Timeout))
      && (t.phase.Done? ==> t.phase.outcome == Failed(a.send.kind))
  {
    RunConcat(p, before, [a]);
    RunShort(p, Run(p, before), [a]);
    if Run(p, before).phase.Streaming? {
      ChunkStep(p, Run(p, before), a);
    }
  }
}
