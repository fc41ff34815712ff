/** What the receiver promises against every environment: the sequence of store calls and acks it makes
    is accepted by a monitor that states the store and ack discipline without reference to the receiver. */
module ReceiverSafety {
  import opened Basics
  import opened TransferTypes
  import opened Receiver

  /** The monitor. `Open`: a write is open, `image` is what the store would hold, its first `written` bytes
      were written, `acked` is the last progress offset reported, and `broken` records a failed write. */
  datatype Monitor =
    | Idle
    | Refused
    | Open(image: seq<Byte>, written: nat, acked: nat, broken: bool)
    | Committed(image: seq<Byte>, announced: bool)
    | CommitFailed
    | Aborted
    | Bad

  /** `write_at` on a byte-addressable store. */
  function Overwrite(image: seq<Byte>, offset: nat, data: seq<Byte>): seq<Byte>
    requires offset + |data| <= |image|
  {
    image[..offset] + data + image[offset + |data|..]
  }

  /** A limit of zero is none. */
  predicate Within(n: nat, limit: nat) { limit == 0 || n <= limit }

  /** The chunk size that the two limits call for: the smaller one, where a limit of zero is none. */
  predicate Agreed(p: Params, o: Offer, n: nat) {
    && 0 < n && Within(n, p.maxChunkSize) && Within(n, o.senderMaxChunk)
    && (n == p.maxChunkSize || n == o.senderMaxChunk)
  }

  /** There is exactly one such size, unless neither end names a limit, and it is the one negotiated. */
  lemma NegotiatedIsAgreed(p: Params, o: Offer)
    ensures var n := Negotiate(p.maxChunkSize, o.senderMaxChunk);
      && (n == 0 <==> p.maxChunkSize == 0 && o.senderMaxChunk == 0)
      && forall m: nat :: Agreed(p, o, m) <==> m == n && n > 0
  {
  }

  function ObserveOpen(p: Params, o: Offer, m: Monitor, c: Call): Monitor
    requires m.Open?
  {
    match c
    case WriteAt(offset, data, ok) =>
      if m.broken || offset != m.written || |data| == 0 || offset + |data| > |m.image| then Bad
      else if !Within(|data|, p.maxChunkSize) || !Within(|data|, o.senderMaxChunk) then Bad
      else if ok then m.(image := Overwrite(m.image, offset, data), written := m.written + |data|)
      else m.(broken := true)
    case Commit(ok) =>
      if m.broken || m.written != |m.image| || p.digest(m.image) != o.hash then Bad
      else if ok then Committed(m.image, false) else CommitFailed
    case AbortWrite => Aborted
    case SendAck(a) =>
      if m.broken then Bad
      else if a == AcceptAck(o.transferId, a.chunkSize) && Agreed(p, o, a.chunkSize) && m.written == 0 then m
      else if a.kind == Progress && a == ProgressAck(o.transferId, a.nextOffset)
           && m.acked <= a.nextOffset == m.written < |m.image| then m.(acked := m.written)
      else Bad
    case Begin(_, _, _) => Bad
  }

  /** The discipline for a transfer with offer `o`: the accept names the agreed chunk size; writes tile the file in
      order, within its length, and are no longer than a chunk; progress acks tell exactly what has been written and
      never the whole file; commit only with the full length and the right digest; completion only after a successful
      commit; nothing after closing except the abort notice. */
  function Observe(p: Params, o: Offer, m: Monitor, c: Call): Monitor {
    match m
    case Idle =>
      if c.Begin? && c.id == o.transferId && c.total == o.totalLen then
        if c.ok then Open(Zeros(c.total), 0, 0, false) else Refused
      else if c.SendAck? && c.ack == RejectAck(o.transferId, c.ack.error) then Refused
      else Bad
    case Open(_, _, _, _) => ObserveOpen(p, o, m, c)
    case Committed(image, announced) =>
      if !announced && c == SendAck(CompleteAck(o.transferId, o.totalLen)) && |image| > 0 then m.(announced := true)
      else Bad
    case Aborted =>
      if c.SendAck? && c.ack == AbortAck(o.transferId, c.ack.nextOffset, c.ack.error) then Aborted else Bad
    case _ => Bad
  }

  function WatchFrom(p: Params, o: Offer, m: Monitor, calls: seq<Call>): Monitor
    decreases |calls|
  {
    if calls == [] then m else WatchFrom(p, o, Observe(p, o, m, calls[0]), calls[1..])
  }

  /** The monitor's verdict on a whole log. */
  function Watch(p: Params, o: Offer, calls: seq<Call>): Monitor { WatchFrom(p, o, Idle, calls) }

  lemma {:induction false} WatchConcat(p: Params, o: Offer, m: Monitor, calls: seq<Call>, more: seq<Call>)
    ensures WatchFrom(p, o, m, calls + more) == WatchFrom(p, o, WatchFrom(p, o, m, calls), more)
    decreases |calls|
  {
    if calls == [] {
      assert calls + more == more;
    } else {
      assert (calls + more)[1..] == calls[1..] + more;
      WatchConcat(p, o, Observe(p, o, m, calls[0]), calls[1..], more);
    }
  }

  predicate Closed(m: Monitor) { m.Committed? || m.CommitFailed? || m.Aborted? }

  predicate InTransfer(ph: Phase) {
    ph.Accepting? || ph.CommittingEmpty? || ph.AwaitingChunk? || ph.Writing? || ph.Reporting? || ph.Committing?
  }

  /** How a reachable state and the monitor's verdict on its log agree. */
  ghost predicate Agree(p: Params, s: State, m: Monitor) {
    && Valid(s)
    && (s.phase.AwaitingOffer? || s.phase.Beginning? ==> m.Idle? && s.calls == [])
    && (!s.phase.AwaitingOffer? && !s.phase.Done? ==> RejectReason(p, s.offer).None?)
    && (InTransfer(s.phase) ==>
          && m.Open? && !m.broken && m.written == s.nextOffset == |s.hashed|
          && |m.image| == s.offer.totalLen && s.hashed <= m.image
          && s.lastProgress == m.acked <= s.nextOffset)
    && (s.phase.AwaitingChunk? || s.phase.Writing? ==> s.nextOffset - s.lastProgress < Negotiated(p, s))
    && (s.phase.Writing? ==> |s.phase.data| <= Negotiated(p, s))
    && (s.phase.CommittingEmpty? || s.phase.Committing? ==>
          s.nextOffset == s.offer.totalLen && p.digest(s.hashed) == s.offer.hash)
    && (s.phase.Committing? ==> s.offer.totalLen > 0)
    && (s.phase.Completing? ==>
          && m == Committed(s.hashed, false) && |s.hashed| == s.nextOffset == s.offer.totalLen > 0
          && p.digest(s.hashed) == s.offer.hash)
    && (s.phase.Done? ==> !m.Bad? && !m.Open? && (m.Idle? ==> s.calls == []))
    && (s.phase.Done? && Closed(m) ==> RejectReason(p, s.offer).None?)
    && (s.phase.Done? && m.Committed? ==>
          && m.image == s.hashed && |s.hashed| == s.offer.totalLen && p.digest(s.hashed) == s.offer.hash
          && (s.phase.outcome.Failed? ==> s.offer.totalLen > 0))
    && (s.phase.Done? && s.phase.outcome.Received? ==>
          && m == Committed(s.hashed, s.offer.totalLen > 0)
          && |s.hashed| == s.offer.totalLen && p.digest(s.hashed) == s.offer.hash
          && s.phase.outcome.result == ResultOf(p, s, s.offer.totalLen))
  }

  ghost predicate Inv(p: Params, s: State) {
    Agree(p, s, Watch(p, s.offer, s.calls))
  }

  lemma Watch1(p: Params, o: Offer, m: Monitor, c: Call)
    ensures WatchFrom(p, o, m, [c]) == Observe(p, o, m, c)
  {
  }

  lemma Watch2(p: Params, o: Offer, m: Monitor, c: Call, d: Call)
    ensures WatchFrom(p, o, m, [c, d]) == Observe(p, o, Observe(p, o, m, c), d)
  {
    assert [c, d][1..] == [d];
    Watch1(p, o, Observe(p, o, m, c), d);
  }

  lemma Watch3(p: Params, o: Offer, m: Monitor, c: Call, d: Call, e: Call)
    ensures WatchFrom(p, o, m, [c, d, e]) == Observe(p, o, Observe(p, o, Observe(p, o, m, c), d), e)
  {
    assert [c, d, e][1..] == [d, e];
    Watch2(p, o, Observe(p, o, m, c), d, e);
  }

  /** When a step ends the transfer with a commit, the end is a failure exactly if the step was the sending of
      the completion ack and that failed. */
  predicate Ends(s: State, t: State, m: Monitor, sendOk: bool) {
    !s.phase.Done? && t.phase.Done? && m.Committed? ==> (t.phase.outcome.Failed? <==> s.phase.Completing? && !sendOk)
  }

  // Each lemma below names the calls `e` that one await makes and follows the monitor over them.

  lemma WriteAgrees(p: Params, s: State, m: Monitor, a: StoreAnswer) returns (e: seq<Call>)
    requires Agree(p, s, m) && s.phase.Writing?
    ensures var t := StepWrite(p, s, s.phase.data, a);
      t.offer == s.offer && t.calls == s.calls + e && Agree(p, t, WatchFrom(p, s.offer, m, e))
      && Ends(s, t, WatchFrom(p, s.offer, m, e), true)
  {
    var d := s.phase.data;
    var w := WriteAt(s.nextOffset, d, a.StoreOk?);
    var t := StepWrite(p, s, d, a);
    var image := Overwrite(m.image, s.nextOffset, d);
    assert s.hashed + d <= image;
    if a.StoreErr? {
      e := [w, AbortWrite];
      Watch2(p, s.offer, m, w, AbortWrite);
    } else if t.phase.Done? {
      var notice := SendAck(AbortAck(s.offer.transferId, s.offer.totalLen, HashMismatch));
      e := [w, AbortWrite, notice];
      Watch3(p, s.offer, m, w, AbortWrite, notice);
      assert t.calls == s.calls + e;
    } else {
      e := [w];
      Watch1(p, s.offer, m, w);
    }
  }

  lemma AcceptAgrees(p: Params, s: State, m: Monitor, sendOk: bool) returns (e: seq<Call>)
    requires Agree(p, s, m) && s.phase.Accepting?
    ensures var t := StepAccept(p, s, sendOk);
      t.offer == s.offer && t.calls == s.calls + e && Agree(p, t, WatchFrom(p, s.offer, m, e))
      && Ends(s, t, WatchFrom(p, s.offer, m, e), sendOk)
  {
    var c := SendAck(AcceptAck(s.offer.transferId, Negotiated(p, s)));
    var t := StepAccept(p, s, sendOk);
    if !sendOk {
      e := [c, AbortWrite];
      Watch2(p, s.offer, m, c, AbortWrite);
      assert t.calls == s.calls + e;
    } else if t.phase.Done? {
      var notice := SendAck(AbortAck(s.offer.transferId, 0, HashMismatch));
      e := [c, AbortWrite, notice];
      Watch3(p, s.offer, m, c, AbortWrite, notice);
      assert t.calls == s.calls + e;
    } else {
      e := [c];
      Watch1(p, s.offer, m, c);
    }
  }

  lemma ChunkAgrees(p: Params, s: State, m: Monitor, a: ChunkAnswer) returns (e: seq<Call>)
    requires Agree(p, s, m) && s.phase.AwaitingChunk?
    ensures var t := StepChunk(p, s, a);
      t.offer == s.offer && t.calls == s.calls + e && Agree(p, t, WatchFrom(p, s.offer, m, e))
      && Ends(s, t, WatchFrom(p, s.offer, m, e), true)
  {
    var t := StepChunk(p, s, a);
    if a.ChunkErr? {
      e := [AbortWrite];
      Watch1(p, s.offer, m, AbortWrite);
    } else if t.phase.Done? {
      var why := if a.ChunkMalformed? then InvalidRequest else ChunkSizeTooLarge;
      var notice := SendAck(AbortAck(s.offer.transferId, s.nextOffset, why));
      e := [AbortWrite, notice];
      Watch2(p, s.offer, m, AbortWrite, notice);
    } else {
      e := [];
    }
  }

  lemma ReportAgrees(p: Params, s: State, m: Monitor, sendOk: bool) returns (e: seq<Call>)
    requires Agree(p, s, m) && s.phase.Reporting?
    ensures var t := StepReport(s, sendOk);
      t.offer == s.offer && t.calls == s.calls + e && Agree(p, t, WatchFrom(p, s.offer, m, e))
      && Ends(s, t, WatchFrom(p, s.offer, m, e), sendOk)
  {
    var c := SendAck(ProgressAck(s.offer.transferId, s.nextOffset));
    if sendOk {
      e := [c];
      Watch1(p, s.offer, m, c);
      assert RejectReason(p, s.offer).None?;
    } else {
      e := [c, AbortWrite];
      Watch2(p, s.offer, m, c, AbortWrite);
      assert StepReport(s, sendOk).calls == s.calls + e;
    }
  }

  lemma OtherAgrees(p: Params, s: State, m: Monitor, a: Answer) returns (e: seq<Call>)
    requires Agree(p, s, m)
    requires s.phase.Beginning? || s.phase.CommittingEmpty? || s.phase.Committing? || s.phase.Completing?
    ensures var t := Step(p, s, a);
      t.offer == s.offer && t.calls == s.calls + e && Agree(p, t, WatchFrom(p, s.offer, m, e))
      && Ends(s, t, WatchFrom(p, s.offer, m, e), a.sendOk)
  {
    var c := match s.phase
      case Beginning => Begin(s.offer.transferId, s.offer.totalLen, a.store.StoreOk?)
      case Completing => SendAck(CompleteAck(s.offer.transferId, s.offer.totalLen))
      case _ => Commit(a.store.StoreOk?);
    e := [c];
    Watch1(p, s.offer, m, c);
    assert s.phase.CommittingEmpty? || s.phase.Committing? ==> m.image == s.hashed;
  }

  lemma OfferKeepsInv(p: Params, s: State, a: OfferAnswer)
    requires Inv(p, s) && s.phase.AwaitingOffer?
    ensures var t := StepOffer(p, s, a); Inv(p, t) && !Watch(p, t.offer, t.calls).Committed?
  {
    if a.GotOffer? && RejectReason(p, a.offer).Some? {
      var c := SendAck(RejectAck(a.offer.transferId, RejectReason(p, a.offer).value));
      Watch1(p, a.offer, Idle, c);
      assert s.calls + [c] == [c];
    } else {
      assert s.calls + [] == [];
    }
  }

  lemma StepKeepsInv(p: Params, s: State, a: Answer)
    requires Inv(p, s)
    ensures var t := Step(p, s, a); Inv(p, t) && Ends(s, t, Watch(p, t.offer, t.calls), a.sendOk)
  {
    var m := Watch(p, s.offer, s.calls);
    var e := [];
    match s.phase {
      case Done(_) =>
      case AwaitingOffer =>
        OfferKeepsInv(p, s, a.offer);
        return;
      case Accepting => e := AcceptAgrees(p, s, m, a.sendOk);
      case AwaitingChunk => e := ChunkAgrees(p, s, m, a.chunk);
      case Writing(_) => e := WriteAgrees(p, s, m, a.store);
      case Reporting => e := ReportAgrees(p, s, m, a.sendOk);
      case _ => e := OtherAgrees(p, s, m, a);
    }
    WatchConcat(p, s.offer, Idle, s.calls, e);
  }

  lemma {:induction false} RunKeepsInv(p: Params, s: State, answers: seq<Answer>, i: nat)
    requires Inv(p, s) && i <= |answers|
    ensures Inv(p, RunFrom(p, s, answers, i))
    decreases |answers| - i
  {
    if i < |answers| {
      StepKeepsInv(p, s, answers[i]);
      RunKeepsInv(p, Step(p, s, answers[i]), answers, i + 1);
    }
  }

  // ---------- Consequences, stated over the log alone ----------

  predicate IsOpen(c: Call) { c.Begin? && c.ok }
  predicate IsClose(c: Call) { c.Commit? || c.AbortWrite? }

  function CountOpens(calls: seq<Call>): nat {
    if calls == [] then 0 else (if IsOpen(calls[0]) then 1 else 0) + CountOpens(calls[1..])
  }

  function CountCloses(calls: seq<Call>): nat {
    if calls == [] then 0 else (if IsClose(calls[0]) then 1 else 0) + CountCloses(calls[1..])
  }

  /** A disciplined log opens and closes a write at most once each, as its verdict tells. */
  lemma {:induction false} CountsFollowVerdict(p: Params, o: Offer, m: Monitor, calls: seq<Call>)
    requires !WatchFrom(p, o, m, calls).Bad?
    ensures !m.Bad?
    ensures var v := WatchFrom(p, o, m, calls);
      && CountOpens(calls) == (if m.Idle? && (v.Open? || Closed(v)) then 1 else 0)
      && CountCloses(calls) == (if !Closed(m) && Closed(v) then 1 else 0)
      && (Closed(m) ==> Closed(v)) && (m.Open? ==> v.Open? || Closed(v)) && (m.Refused? ==> v.Refused?)
    decreases |calls|
  {
    if calls != [] {
      CountsFollowVerdict(p, o, Observe(p, o, m, calls[0]), calls[1..]);
    }
  }

  predicate IsProgress(c: Call) { c.SendAck? && c.ack.kind == Progress }

  /** In a disciplined log every progress ack reports at least what was acknowledged before. */
  lemma {:induction false} ProgressAtLeast(p: Params, o: Offer, m: Monitor, calls: seq<Call>, k: nat)
    requires !WatchFrom(p, o, m, calls).Bad? && k < |calls| && IsProgress(calls[k])
    ensures m.Open? ==> calls[k].ack.nextOffset >= m.acked
    ensures m.Idle? || m.Open?
    decreases |calls|
  {
    CountsFollowVerdict(p, o, Observe(p, o, m, calls[0]), calls[1..]);
    if k > 0 {
      ProgressAtLeast(p, o, Observe(p, o, m, calls[0]), calls[1..], k - 1);
    }
  }

  lemma {:induction false} ProgressOrdered(p: Params, o: Offer, m: Monitor, calls: seq<Call>, j: nat, k: nat)
    requires !WatchFrom(p, o, m, calls).Bad? && j < k < |calls|
    requires IsProgress(calls[j]) && IsProgress(calls[k])
    ensures calls[j].ack.nextOffset <= calls[k].ack.nextOffset
    decreases |calls|
  {
    var n := Observe(p, o, m, calls[0]);
    CountsFollowVerdict(p, o, n, calls[1..]);
    if j > 0 {
      ProgressOrdered(p, o, n, calls[1..], j - 1, k - 1);
    } else {
      ProgressAtLeast(p, o, n, calls[1..], k - 1);
    }
  }

  /** What an ack tells, in a disciplined log: progress never covers the whole file, completion comes after a
      successful commit, and an accept is sent only for an open write. */
  lemma {:induction false} AckMeaning(p: Params, o: Offer, m: Monitor, calls: seq<Call>, k: nat)
    requires !WatchFrom(p, o, m, calls).Bad? && k < |calls| && calls[k].SendAck?
    requires m.Open? || m.Committed? ==> |m.image| == o.totalLen
    ensures calls[k].ack.kind == Progress ==> calls[k].ack.nextOffset < o.totalLen
    ensures calls[k].ack.kind == Complete ==>
      WatchFrom(p, o, m, calls).Committed? && calls[k].ack.nextOffset == o.totalLen > 0
    ensures calls[k].ack.kind == Complete && !m.Committed? ==> Commit(true) in calls[..k]
    ensures calls[k].ack.kind == Accept ==>
      && (WatchFrom(p, o, m, calls).Open? || Closed(WatchFrom(p, o, m, calls)))
      && Agreed(p, o, calls[k].ack.chunkSize)
      && calls[k].ack.chunkSize == Negotiate(p.maxChunkSize, o.senderMaxChunk)
    ensures calls[k].ack.transferId == o.transferId
    decreases |calls|
  {
    var n := Observe(p, o, m, calls[0]);
    CountsFollowVerdict(p, o, n, calls[1..]);
    NegotiatedIsAgreed(p, o);
    if k > 0 {
      AckMeaning(p, o, n, calls[1..], k - 1);
      assert calls[..k] == [calls[0]] + calls[1..][..k - 1];
    } else if n.Committed? {
      CommittedStays(p, o, n, calls[1..]);
    }
  }

  lemma {:induction false} CommittedStays(p: Params, o: Offer, m: Monitor, calls: seq<Call>)
    requires !WatchFrom(p, o, m, calls).Bad? && m.Committed?
    ensures WatchFrom(p, o, m, calls).Committed?
    decreases |calls|
  {
    if calls != [] {
      CountsFollowVerdict(p, o, Observe(p, o, m, calls[0]), calls[1..]);
      CommittedStays(p, o, Observe(p, o, m, calls[0]), calls[1..]);
    }
  }

  // ---------- Main results ----------

  /** Against every environment, at every await: the log obeys the discipline; at every loop head fewer
      bytes than one negotiated chunk are unreported; the hasher has consumed exactly what was written. */
  lemma ReceiverDiscipline(p: Params, answers: seq<Answer>)
    ensures var s := Run(p, answers);
      var m := Watch(p, s.offer, s.calls);
      && !m.Bad?
      && (s.phase.AwaitingChunk? ==>
            && m.Open? && m.written - m.acked < Negotiated(p, s)
            && m.written == s.nextOffset < s.offer.totalLen == |m.image| && m.image[..m.written] == s.hashed)
  {
    RunKeepsInv(p, Init(), answers, 0);
  }

  /** Every exit after a successful `begin_write` has called exactly one of commit and abort, and every
      exit before it has called neither; while running, at most one. */
  lemma ClosedExactlyOnce(p: Params, answers: seq<Answer>)
    ensures var s := Run(p, answers);
      && CountCloses(s.calls) <= CountOpens(s.calls) <= 1
      && (s.phase.Done? ==> CountCloses(s.calls) == CountOpens(s.calls))
  {
    RunKeepsInv(p, Init(), answers, 0);
    var s := Run(p, answers);
    CountsFollowVerdict(p, s.offer, Idle, s.calls);
  }

  /** Progress acks never go backwards, for any chunk stream. */
  lemma ProgressNeverRetreats(p: Params, answers: seq<Answer>, j: nat, k: nat)
    requires j < k < |Run(p, answers).calls|
    requires IsProgress(Run(p, answers).calls[j]) && IsProgress(Run(p, answers).calls[k])
    ensures Run(p, answers).calls[j].ack.nextOffset <= Run(p, answers).calls[k].ack.nextOffset
  {
    RunKeepsInv(p, Init(), answers, 0);
    var s := Run(p, answers);
    ProgressOrdered(p, s.offer, Idle, s.calls, j, k);
  }

  lemma {:induction false} OfferStays(p: Params, s: State, answers: seq<Answer>, i: nat)
    requires Valid(s) && !s.phase.AwaitingOffer? && i <= |answers|
    ensures var t := RunFrom(p, s, answers, i); t.offer == s.offer && !t.phase.AwaitingOffer?
    decreases |answers| - i
  {
    if i < |answers| {
      OfferStays(p, Step(p, s, answers[i]), answers, i + 1);
    }
  }

  /** Success means: the store committed an image of the offered length whose digest is the offered one, and the result
      tells the offer that came first and the agreed chunk size. */
  lemma ReceivedMeansCommitted(p: Params, answers: seq<Answer>)
    requires OutcomeOf(Run(p, answers)).Some? && OutcomeOf(Run(p, answers)).value.Received?
    ensures var s := Run(p, answers);
      var m := Watch(p, s.offer, s.calls);
      && m.Committed? && |m.image| == s.offer.totalLen && p.digest(m.image) == s.offer.hash
      && (m.announced <==> s.offer.totalLen > 0)
    ensures var s := Run(p, answers);
      var r := s.phase.outcome.result;
      && |answers| > 0 && answers[0].offer == GotOffer(s.offer)
      && r.transferId == s.offer.transferId && r.totalLen == r.receivedLen == s.offer.totalLen
      && r.senderMaxChunk == s.offer.senderMaxChunk && Agreed(p, s.offer, r.negotiated)
      && r.metadata == s.offer.metadata && r.hash == s.offer.hash
  {
    RunKeepsInv(p, Init(), answers, 0);
    if |answers| > 0 {
      var s := Step(p, Init(), answers[0]);
      OfferStays(p, s, answers, 1);
      if s.phase.Done? {
        DoneIsFinal(p, s, answers, 1);
      }
    }
    ReceivedAgreed(p, Run(p, answers));
  }

  lemma ReceivedAgreed(p: Params, s: State)
    requires Inv(p, s) && s.phase.Done? && s.phase.outcome.Received?
    ensures Agreed(p, s.offer, s.phase.outcome.result.negotiated)
  {
    NegotiatedIsAgreed(p, s.offer);
  }

  /** In a disciplined log no write is longer than either limit allows. */
  lemma {:induction false} WritesWithin(p: Params, o: Offer, m: Monitor, calls: seq<Call>, k: nat)
    requires !WatchFrom(p, o, m, calls).Bad? && k < |calls| && calls[k].WriteAt?
    ensures Within(|calls[k].data|, p.maxChunkSize) && Within(|calls[k].data|, o.senderMaxChunk)
    decreases |calls|
  {
    CountsFollowVerdict(p, o, Observe(p, o, m, calls[0]), calls[1..]);
    if k > 0 {
      WritesWithin(p, o, Observe(p, o, m, calls[0]), calls[1..], k - 1);
    }
  }

  /** Against every environment: an accept names the agreed chunk size, and no write is longer than either limit. */
  lemma SizesRespected(p: Params, answers: seq<Answer>, k: nat)
    requires k < |Run(p, answers).calls|
    ensures var s := Run(p, answers);
      match s.calls[k]
      case WriteAt(_, data, _) => Within(|data|, p.maxChunkSize) && Within(|data|, s.offer.senderMaxChunk)
      case SendAck(a) =>
        a.kind == Accept ==> a == AcceptAck(s.offer.transferId, a.chunkSize) && Agreed(p, s.offer, a.chunkSize)
      case _ => true
  {
    RunKeepsInv(p, Init(), answers, 0);
    SizesInLog(p, Run(p, answers).offer, Run(p, answers).calls, k);
  }

  lemma SizesInLog(p: Params, o: Offer, calls: seq<Call>, k: nat)
    requires !Watch(p, o, calls).Bad? && k < |calls|
    ensures match calls[k]
      case WriteAt(_, data, _) => Within(|data|, p.maxChunkSize) && Within(|data|, o.senderMaxChunk)
      case SendAck(a) => a.kind == Accept ==> a == AcceptAck(o.transferId, a.chunkSize) && Agreed(p, o, a.chunkSize)
      case _ => true
  {
    if calls[k].WriteAt? {
      WritesWithin(p, o, Idle, calls, k);
    } else if calls[k].SendAck? && calls[k].ack.kind == Accept {
      AcksWellFormed(p, o, Idle, calls, k);
      AckMeaning(p, o, Idle, calls, k);
    }
  }

  lemma {:induction false} AcksWellFormed(p: Params, o: Offer, m: Monitor, calls: seq<Call>, k: nat)
    requires !WatchFrom(p, o, m, calls).Bad? && k < |calls| && calls[k].SendAck? && calls[k].ack.kind == Accept
    ensures calls[k].ack == AcceptAck(o.transferId, calls[k].ack.chunkSize)
    decreases |calls|
  {
    CountsFollowVerdict(p, o, Observe(p, o, m, calls[0]), calls[1..]);
    if k > 0 {
      AcksWellFormed(p, o, Observe(p, o, m, calls[0]), calls[1..], k - 1);
    }
  }

  // ---------- Committed, and yet an error ----------

  /** Some completion ack of this run could not be sent. */
  ghost predicate CompletionLost(p: Params, answers: seq<Answer>) {
    exists i :: 0 <= i < |answers| && LostAt(p, answers, i)
  }

  predicate LostAt(p: Params, answers: seq<Answer>, i: nat)
    requires i < |answers|
  {
    Run(p, answers[..i]).phase.Completing? && !answers[i].sendOk
  }

  lemma RunSnoc(p: Params, answers: seq<Answer>)
    requires answers != []
    ensures Run(p, answers) == Step(p, Run(p, answers[..|answers| - 1]), answers[|answers| - 1])
  {
    var n := |answers| - 1;
    RunAppend(p, answers[..n], answers[n]);
    assert answers[..n] + [answers[n]] == answers;
  }

  lemma {:induction false} LostSnoc(p: Params, answers: seq<Answer>)
    requires answers != []
    ensures var n := |answers| - 1;
      CompletionLost(p, answers) <==> CompletionLost(p, answers[..n]) || LostAt(p, answers, n)
  {
    var n := |answers| - 1;
    forall i | 0 <= i < n
      ensures LostAt(p, answers, i) <==> LostAt(p, answers[..n], i)
    {
      assert answers[..n][..i] == answers[..i];
    }
    if CompletionLost(p, answers[..n]) {
      var i :| 0 <= i < n && LostAt(p, answers[..n], i);
      assert LostAt(p, answers, i);
    }
  }

  lemma {:induction false} LostMeansFailed(p: Params, answers: seq<Answer>)
    ensures var s := Run(p, answers);
      && (!s.phase.Done? ==> !CompletionLost(p, answers))
      && (s.phase.Done? && Watch(p, s.offer, s.calls).Committed? ==>
            (s.phase.outcome.Failed? <==> CompletionLost(p, answers)))
  {
    if answers != [] {
      var n := |answers| - 1;
      var s := Run(p, answers[..n]);
      LostMeansFailed(p, answers[..n]);
      LostSnoc(p, answers);
      RunSnoc(p, answers);
      RunKeepsInv(p, Init(), answers[..n], 0);
      StepKeepsInv(p, s, answers[n]);
    }
  }

  /** Exactly when a transfer that was committed is reported as an error: its completion ack could not be sent. */
  lemma CommittedFailsIff(p: Params, answers: seq<Answer>)
    requires var s := Run(p, answers); s.phase.Done? && Watch(p, s.offer, s.calls).Committed?
    ensures Run(p, answers).phase.outcome.Failed? <==> CompletionLost(p, answers)
  {
    LostMeansFailed(p, answers);
  }

  /** For offers of this kind, a commit is always reported as success. */
  ghost predicate CommitMeansOk(p: Params, o: Offer) {
    forall answers :: CommittedWith(p, o, Run(p, answers)) ==> Run(p, answers).phase.outcome.Received?
  }

  predicate CommittedWith(p: Params, o: Offer, s: State) {
    s.offer == o && s.phase.Done? && Watch(p, o, s.calls).Committed?
  }

  /** `d` is a file that the offer could be for. */
  predicate Describes(p: Params, o: Offer, d: seq<Byte>) { |d| == o.totalLen && p.digest(d) == o.hash }

  /** In the middle of receiving `d`, everything reported. */
  predicate Midway(o: Offer, d: seq<Byte>, s: State) {
    && s.phase.AwaitingChunk? && s.offer == o && s.nextOffset == s.lastProgress < |d| == o.totalLen
    && s.hashed == d[..s.nextOffset]
  }

  /** The answers that deliver one more full chunk of `d`. */
  function Deliver(p: Params, o: Offer, d: seq<Byte>, at: U32): Answer
    requires at < |d|
  {
    var n := Min(Negotiate(p.maxChunkSize, o.senderMaxChunk), |d| - at);
    Answer(GotOffer(o), GotChunk(Chunk(o.transferId, at, d[at..at + n])), StoreOk, true)
  }

  lemma TakeChunk(p: Params, o: Offer, d: seq<Byte>, s: State)
    requires Midway(o, d, s) && RejectReason(p, o).None?
    ensures var a := Deliver(p, o, d, s.nextOffset);
      Step(p, s, a) == s.(phase := Writing(a.chunk.chunk.data)) && a.chunk.chunk.data != []
  {
    var c := Deliver(p, o, d, s.nextOffset).chunk.chunk;
    assert c.data[..|c.data|] == c.data;
  }

  lemma WriteChunk(p: Params, o: Offer, d: seq<Byte>, s: State, a: Answer)
    requires Describes(p, o, d) && RejectReason(p, o).None? && Valid(s) && a.store.StoreOk?
    requires Midway(o, d, s.(phase := AwaitingChunk)) && a == Deliver(p, o, d, s.nextOffset)
    requires s.phase == Writing(a.chunk.chunk.data)
    ensures var t := Step(p, s, a);
      && t.offer == o && t.nextOffset == s.nextOffset + |a.chunk.chunk.data| && t.hashed == d[..t.nextOffset]
      && t.phase == if t.nextOffset == |d| then Committing else Reporting
  {
    var n := s.nextOffset + |a.chunk.chunk.data|;
    assert d[..s.nextOffset] + d[s.nextOffset..n] == d[..n];
    assert n == |d| ==> d[..n] == d;
  }

  /** However many chunks are left, they can be delivered and committed, up to the completion ack. */
  lemma {:induction false} DeliverAll(p: Params, o: Offer, d: seq<Byte>, answers: seq<Answer>)
      returns (all: seq<Answer>)
    requires RejectReason(p, o).None? && Describes(p, o, d) && Midway(o, d, Run(p, answers))
    ensures Run(p, all).phase.Completing? && Run(p, all).offer == o
    decreases |d| - Run(p, answers).nextOffset
  {
    var s := Run(p, answers);
    var a := Deliver(p, o, d, s.nextOffset);
    RunAppend(p, answers, a);
    TakeChunk(p, o, d, s);
    all := answers + [a];
    RunAppend(p, all, a);
    WriteChunk(p, o, d, Run(p, all), a);
    all := all + [a];
    RunAppend(p, all, a);
    if Run(p, all).phase.Committing? {
      all := all + [a];
    } else {
      all := DeliverAll(p, o, d, all + [a]);
    }
  }

  lemma StartReceiving(p: Params, o: Offer, d: seq<Byte>) returns (answers: seq<Answer>)
    requires RejectReason(p, o).None? && Describes(p, o, d) && o.totalLen > 0
    ensures Midway(o, d, Run(p, answers))
  {
    var a := Deliver(p, o, d, 0);
    answers := [];
    RunAppend(p, answers, a);
    answers := answers + [a];
    RunAppend(p, answers, a);
    answers := answers + [a];
    RunAppend(p, answers, a);
    answers := answers + [a];
  }

  /** A file of any length: if sending the completion ack fails, the receiver reports an error although the
      store has committed. */
  lemma CommittedYetFailed(p: Params, o: Offer, d: seq<Byte>) returns (answers: seq<Answer>)
    requires RejectReason(p, o).None? && Describes(p, o, d) && o.totalLen > 0
    ensures CommittedWith(p, o, Run(p, answers)) && Run(p, answers).phase.outcome.Failed?
  {
    answers := StartReceiving(p, o, d);
    answers := DeliverAll(p, o, d, answers);
    var last := Answer(OfferErr, ChunkErr, StoreOk, false);
    RunKeepsInv(p, Init(), answers, 0);
    RunAppend(p, answers, last);
    FailedCompletion(p, o, Run(p, answers));
    answers := answers + [last];
  }

  lemma FailedCompletion(p: Params, o: Offer, s: State)
    requires Inv(p, s) && s.phase.Completing? && s.offer == o
    ensures CommittedWith(p, o, StepComplete(p, s, false)) && StepComplete(p, s, false).phase.outcome.Failed?
  {
    var c := SendAck(CompleteAck(o.transferId, o.totalLen));
    WatchConcat(p, o, Idle, s.calls, [c]);
    Watch1(p, o, Watch(p, o, s.calls), c);
    assert s.calls + [c] + [] == s.calls + [c];
  }

  /** Exactly the offers for which a commit is always reported as success: empty files, offers that are refused,
      and offers that describe no file at all. */
  lemma CommitMeansOkIff(p: Params, o: Offer)
    ensures CommitMeansOk(p, o) <==>
      o.totalLen == 0 || RejectReason(p, o).Some? || forall d :: !Describes(p, o, d)
  {
    if o.totalLen > 0 && RejectReason(p, o).None? && exists d :: Describes(p, o, d) {
      var d :| Describes(p, o, d);
      var answers := CommittedYetFailed(p, o, d);
    } else {
      forall answers | CommittedWith(p, o, Run(p, answers))
        ensures Run(p, answers).phase.outcome.Received?
      {
        RunKeepsInv(p, Init(), answers, 0);
        assert Run(p, answers).phase.outcome.Failed? ==> Describes(p, o, Run(p, answers).hashed);
      }
    }
  }
}
