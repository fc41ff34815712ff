/** Whole sessions on an interface: any sequence of arrivals and receives, and what they deliver. */
module BusSession {
  import opened Basics
  import opened Mailbox
  import opened Bus

  datatype Layout = Layout(ids: seq<U16>, depth: nat, maxBody: nat)

  /** A payload arrives, or a receive makes one pass. */
  datatype Call =
    | Arrives(from: Byte, payload: seq<Byte>)
    | Asks(id: U16, from: Byte, pred: seq<Byte> -> bool)

  datatype Result = Accepted | TurnedAway(error: IngestError) | Given(item: Received) | NothingYet | NoSuchId

  const EMPTY := Board([], {})

  /** Why a payload is turned away, if it is. */
  function Obstacle(x: Layout, b: Board, payload: seq<Byte>): Option<IngestError> {
    match DecodeWire(payload)
    case None => Some(MalformedPayload)
    case Some(w) =>
      if w.id !in x.ids then Some(UnknownId(w.id))
      else if |w.body| > x.maxBody then Some(BodyTooLarge(|w.body|, x.maxBody))
      else if |View(b, w.id)| == x.depth then Some(MailboxFull)
      else None
  }

  /** The message in a payload. */
  function MessageIn(from: Byte, payload: seq<Byte>): Message
    requires DecodeWire(payload).Some?
  {
    Message(DecodeWire(payload).value.id, from, DecodeWire(payload).value.body)
  }

  /** What one call returns and does to the board. */
  ghost predicate OneCall(x: Layout, b: Board, call: Call, res: Result, c: Board) {
    match call
    case Arrives(from, payload) =>
      var why := Obstacle(x, b, payload);
      if why.Some? then res == TurnedAway(why.value) && c == b
      else res == Accepted && c == b.(log := b.log + [MessageIn(from, payload)])
    case Asks(id, from, pred) =>
      if id !in x.ids then res == NoSuchId && c == b
      else if res.Given? then exists t: nat :: Gives(b, c, t, call, res.item)
      else res == NothingYet && c == b && forall t: nat :: !Wanted(b, t, id, from, pred)
  }

  ghost predicate Gives(b: Board, c: Board, t: nat, call: Call, item: Received) {
    && call.Asks? && Takes(b, c, t, call.id, call.from, call.pred)
    && item == Received(call.from, call.id, b.log[t].body)
  }

  /** The board before each call, and after the last one. */
  ghost predicate IsSession(x: Layout, calls: seq<Call>, results: seq<Result>, boards: seq<Board>) {
    && |results| == |calls| && |boards| == |calls| + 1 && boards[0] == EMPTY
    && forall k :: 0 <= k < |calls| ==> OneCall(x, boards[k], calls[k], results[k], boards[k + 1])
  }

  // ---------- The session as a program ----------

  method Perform(iface: Interface, x: Layout, call: Call, ghost b: Board) returns (res: Result, ghost c: Board)
    requires iface.Shows(b) && x == Layout(iface.ids, iface.depth, iface.maxBody)
    modifies iface.Stores()
    ensures iface.Shows(c) && OneCall(x, b, call, res, c)
  {
    match call {
      case Arrives(from, payload) =>
        var r;
        r, c := iface.Ingest(from, payload, b);
        res := if r.Ingested? then Accepted else TurnedAway(r.error);
      case Asks(id, from, pred) =>
        var known, item;
        known, item, c := iface.TryReceive(id, from, pred, b);
        res := if !known then NoSuchId else if item.Some? then Given(item.value) else NothingYet;
        if res.Given? {
          ghost var t: nat :| Takes(b, c, t, id, from, pred) && res.item == Received(from, id, b.log[t].body);
          assert Gives(b, c, t, call, res.item);
        }
    }
  }

  /** Any sequence of calls on a new interface is a session. */
  method Session(x: Layout, calls: seq<Call>) returns (results: seq<Result>, ghost boards: seq<Board>)
    ensures IsSession(x, calls, results, boards)
  {
    var iface := new Interface(x.ids, x.depth, x.maxBody);
    results, boards := [], [EMPTY];
    for n := 0 to |calls|
      invariant |results| == n && |boards| == n + 1 && boards[0] == EMPTY
      invariant iface.Shows(boards[n]) && fresh(iface.Stores())
      invariant forall k :: 0 <= k < n ==> OneCall(x, boards[k], calls[k], results[k], boards[k + 1])
    {
      var res;
      ghost var c;
      res, c := Perform(iface, x, calls[n], boards[n]);
      results, boards := results + [res], boards + [c];
    }
  }

  // ---------- What sessions deliver ----------

  lemma OneCallLater(x: Layout, b: Board, call: Call, res: Result, c: Board)
    requires OneCall(x, b, call, res, c)
    ensures Later(b, c) && |c.log| <= |b.log| + 1 && (|c.log| == |b.log| + 1 <==> res.Accepted?)
  {
  }

  lemma {:induction false} BoardsLater(
      x: Layout, calls: seq<Call>, results: seq<Result>, boards: seq<Board>, i: nat, j: nat)
    requires IsSession(x, calls, results, boards) && i <= j <= |calls|
    ensures Later(boards[i], boards[j])
  {
    if i < j {
      BoardsLater(x, calls, results, boards, i, j - 1);
      OneCallLater(x, boards[j - 1], calls[j - 1], results[j - 1], boards[j]);
    }
  }

  /** Call `a` is the arrival that got ticket `t`. */
  predicate BroughtBy(calls: seq<Call>, results: seq<Result>, boards: seq<Board>, a: nat, t: nat) {
    && a < |calls| == |results| < |boards| && calls[a].Arrives? && results[a].Accepted? && t == |boards[a].log|
  }

  /** Every message on a board was brought by one earlier arrival. */
  lemma {:induction false} ArrivalOf(
      x: Layout, calls: seq<Call>, results: seq<Result>, boards: seq<Board>, k: nat, t: nat)
      returns (a: nat)
    requires IsSession(x, calls, results, boards) && k <= |calls| && t < |boards[k].log|
    ensures a < k && BroughtBy(calls, results, boards, a, t) && DecodeWire(calls[a].payload).Some?
    ensures boards[k].log[t] == MessageIn(calls[a].from, calls[a].payload)
  {
    OneCallLater(x, boards[k - 1], calls[k - 1], results[k - 1], boards[k]);
    if t < |boards[k - 1].log| {
      a := ArrivalOf(x, calls, results, boards, k - 1, t);
    } else {
      a := k - 1;
      assert OneCall(x, boards[a], calls[a], results[a], boards[k]);
    }
  }

  /** Tickets are in the order of the arrivals, one each. */
  lemma ArrivalsInOrder(
      x: Layout, calls: seq<Call>, results: seq<Result>, boards: seq<Board>, a: nat, t: nat, b: nat, u: nat)
    requires IsSession(x, calls, results, boards)
    requires BroughtBy(calls, results, boards, a, t) && BroughtBy(calls, results, boards, b, u)
    ensures t < u <==> a < b
    ensures t == u <==> a == b
  {
    if a < b {
      BoardsLater(x, calls, results, boards, a + 1, b);
      OneCallLater(x, boards[a], calls[a], results[a], boards[a + 1]);
    } else if b < a {
      BoardsLater(x, calls, results, boards, b + 1, a);
      OneCallLater(x, boards[b], calls[b], results[b], boards[b + 1]);
    }
  }

  /** Call `k` was given what arrival `a` brought, and what it had asked for. */
  predicate Delivers(calls: seq<Call>, results: seq<Result>, a: nat, k: nat) {
    && a < k < |calls| == |results| && calls[a].Arrives? && results[a].Accepted? && DecodeWire(calls[a].payload).Some?
    && calls[k].Asks? && results[k].Given?
    && var m := MessageIn(calls[a].from, calls[a].payload);
       && results[k].item == Received(m.from, m.id, m.body)
       && m.id == calls[k].id && m.from == calls[k].from && calls[k].pred(m.body)
  }

  /** The arrival behind a delivery, by its ticket. */
  lemma {:induction false} SourceOf(x: Layout, calls: seq<Call>, results: seq<Result>, boards: seq<Board>, k: nat)
      returns (a: nat, t: nat)
    requires IsSession(x, calls, results, boards) && k < |calls| && results[k].Given?
    ensures Delivers(calls, results, a, k) && BroughtBy(calls, results, boards, a, t)
    ensures Gives(boards[k], boards[k + 1], t, calls[k], results[k].item)
  {
    assert OneCall(x, boards[k], calls[k], results[k], boards[k + 1]);
    t :| Gives(boards[k], boards[k + 1], t, calls[k], results[k].item);
    a := ArrivalOf(x, calls, results, boards, k, t);
  }

  /** No arrival is delivered twice, and equal receives get their messages in the order of arrival. */
  lemma {:induction false} DeliveredOnce(
      x: Layout, calls: seq<Call>, results: seq<Result>, boards: seq<Board>, i: nat, j: nat)
      returns (a: nat, b: nat)
    requires IsSession(x, calls, results, boards) && i < j < |calls| && results[i].Given? && results[j].Given?
    ensures Delivers(calls, results, a, i) && Delivers(calls, results, b, j)
    ensures a != b && (calls[i] == calls[j] ==> a < b)
  {
    var t, u;
    a, t := SourceOf(x, calls, results, boards, i);
    b, u := SourceOf(x, calls, results, boards, j);
    BoardsLater(x, calls, results, boards, i + 1, j);
    DeliveredOnceInOrder(
      boards[i], boards[i + 1], t, boards[j], boards[j + 1], u,
      calls[i].id, calls[i].from, calls[i].pred, calls[j].id, calls[j].from, calls[j].pred);
    ArrivalsInOrder(x, calls, results, boards, a, t, b, u);
  }

  lemma {:induction false} GoneWasGiven(
      x: Layout, calls: seq<Call>, results: seq<Result>, boards: seq<Board>, k: nat, t: nat)
      returns (j: nat)
    requires IsSession(x, calls, results, boards) && k <= |calls| && t in boards[k].gone
    ensures j < k && results[j].Given? && Gives(boards[j], boards[j + 1], t, calls[j], results[j].item)
  {
    if k > 0 {
      assert OneCall(x, boards[k - 1], calls[k - 1], results[k - 1], boards[k]);
    }
    if t in boards[k - 1].gone {
      j := GoneWasGiven(x, calls, results, boards, k - 1, t);
    } else {
      j := k - 1;
    }
  }

  /** A receive that gets nothing had nothing to get: every earlier arrival that it would take was delivered before. */
  lemma {:induction false} NothingLost(
      x: Layout, calls: seq<Call>, results: seq<Result>, boards: seq<Board>, a: nat, k: nat)
      returns (j: nat)
    requires IsSession(x, calls, results, boards) && a < k < |calls| && results[a].Accepted? && results[k].NothingYet?
    requires calls[a].Arrives? && DecodeWire(calls[a].payload).Some? && calls[k].Asks?
    requires var m := MessageIn(calls[a].from, calls[a].payload);
      m.id == calls[k].id && m.from == calls[k].from && calls[k].pred(m.body)
    ensures j < k && Delivers(calls, results, a, j)
  {
    var t := |boards[a].log|;
    assert OneCall(x, boards[a], calls[a], results[a], boards[a + 1]);
    assert OneCall(x, boards[k], calls[k], results[k], boards[k + 1]);
    BoardsLater(x, calls, results, boards, a + 1, k);
    assert boards[k].log[t] == MessageIn(calls[a].from, calls[a].payload);
    assert !Wanted(boards[k], t, calls[k].id, calls[k].from, calls[k].pred);
    j := GoneWasGiven(x, calls, results, boards, k, t);
    var b := ArrivalOf(x, calls, results, boards, j, t);
    ArrivalsInOrder(x, calls, results, boards, a, t, b, t);
  }

  /** An encoded message is delivered with the id and body it had before encoding. */
  lemma DeliveredAsEncoded(calls: seq<Call>, results: seq<Result>, a: nat, k: nat, w: Wire)
    requires Delivers(calls, results, a, k) && calls[a].payload == EncodeWire(w)
    ensures results[k].item == Received(calls[a].from, w.id, w.body)
  {
    WireRoundTrip(w);
  }
}
