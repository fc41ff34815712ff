/** Routing of messages through the bus: wire header, id table, and the mailboxes behind it. The
    interface is specified by a board of all messages ever accepted, from which each receive takes the
    oldest undelivered match. */
module Bus {
  import opened Basics
  import opened LittleEndian
  import opened Mailbox

  const HEADER_LEN: nat := 2

  type U16 = n: int | 0 <= n < 0x1_0000

  datatype Wire = Wire(id: U16, body: seq<Byte>)

  /** `decode_wire`. */
  function DecodeWire(payload: seq<Byte>): (w: Option<Wire>)
    ensures w.None? <==> |payload| < HEADER_LEN
  {
    if |payload| < HEADER_LEN then None
    else
      assert Span(2) == 0x1_0000 by { Spans(); }
      Some(Wire(FromLE(payload[..HEADER_LEN]), payload[HEADER_LEN..]))
  }

  function EncodeWire(w: Wire): seq<Byte> { ToLE(w.id, HEADER_LEN) + w.body }

  lemma WireRoundTrip(w: Wire)
    ensures DecodeWire(EncodeWire(w)) == Some(w)
  {
    Spans();
    RoundTrip(w.id, HEADER_LEN);
    assert EncodeWire(w)[..HEADER_LEN] == ToLE(w.id, HEADER_LEN);
  }

  datatype EncodeError = BufferTooSmall(needed: nat, got: nat) | EncodeFailed

  /** `encode_capnp_into_buf`. `body` is what the value's own encoder produces (`None` if it fails) and
      `maxLen` the bound it announced; an encoder that overruns its bound is refused. */
  method EncodeIntoBuf(buf: array<Byte>, id: U16, maxLen: nat, body: Option<seq<Byte>>)
    returns (err: Option<EncodeError>, used: nat)
    modifies buf
    ensures err == if buf.Length < HEADER_LEN + maxLen then Some(BufferTooSmall(HEADER_LEN + maxLen, buf.Length))
                   else if body.None? || |body.value| > maxLen then Some(EncodeFailed) else None
    ensures err.None? ==> used <= buf.Length && buf[..used] == EncodeWire(Wire(id, body.value))
    ensures err.None? ==> forall k :: used <= k < buf.Length ==> buf[k] == old(buf[k])
  {
    used := 0;
    if buf.Length < HEADER_LEN + maxLen {
      return Some(BufferTooSmall(HEADER_LEN + maxLen, buf.Length)), 0;
    }
    var header := ToLE(id, HEADER_LEN);
    buf[0], buf[1] := header[0], header[1];
    if body.None? || |body.value| > maxLen {
      return Some(EncodeFailed), 0;
    }
    for i := 0 to |body.value|
      invariant buf[0] == header[0] && buf[1] == header[1]
      invariant forall k :: 0 <= k < i ==> buf[HEADER_LEN + k] == body.value[k]
      invariant forall k :: HEADER_LEN + i <= k < buf.Length ==> buf[k] == old(buf[k])
    {
      buf[HEADER_LEN + i] := body.value[i];
    }
    used := HEADER_LEN + |body.value|;
    assert buf[..used] == header + body.value;
    return None, used;
  }

  // ---------- The id table ----------

  function SlotFor(ids: seq<U16>, id: U16): (s: Option<nat>)
    ensures s.Some? ==> s.value < |ids| && ids[s.value] == id && forall j :: 0 <= j < s.value ==> ids[j] != id
    ensures s.None? <==> id !in ids
  {
    if ids == [] then None
    else if ids[0] == id then Some(0)
    else
      var r := SlotFor(ids[1..], id);
      if r.None? then None else Some(r.value + 1)
  }

  /** `MapletSpec::slot_for_id`. */
  method SlotForId(ids: seq<U16>, id: U16) returns (s: Option<nat>)
    ensures s == SlotFor(ids, id)
  {
    var i := 0;
    while i < |ids|
      invariant i <= |ids| && id !in ids[..i]
    {
      if ids[i] == id {
        return Some(i);
      }
      i := i + 1;
    }
    return None;
  }

  function Flatten(bundles: seq<seq<U16>>): seq<U16> {
    if bundles == [] then [] else bundles[0] + Flatten(bundles[1..])
  }

  /** `maplet!`: the ids of all bundles, one after the other. */
  method ConcatIds(bundles: seq<seq<U16>>) returns (out: seq<U16>)
    ensures out == Flatten(bundles)
  {
    out := [];
    for b := 0 to |bundles|
      invariant Flatten(bundles) == out + Flatten(bundles[b..])
    {
      var ids := bundles[b];
      ghost var before := out;
      for i := 0 to |ids|
        invariant out == before + ids[..i]
      {
        out := out + [ids[i]];
      }
      assert bundles[b..][1..] == bundles[b + 1..];
      assert before + (ids + Flatten(bundles[b + 1..])) == out + Flatten(bundles[b + 1..]);
    }
  }

  /** `maplet!`: the compile-time refusal of duplicate ids. */
  method HasNoDuplicates(ids: seq<U16>) returns (ok: bool)
    ensures ok <==> forall i, j :: 0 <= i < j < |ids| ==> ids[i] != ids[j]
  {
    for i := 0 to |ids|
      invariant forall p, q :: 0 <= p < i && p < q < |ids| ==> ids[p] != ids[q]
    {
      for j := i + 1 to |ids|
        invariant forall q :: i < q < j ==> ids[i] != ids[q]
      {
        if ids[i] == ids[j] {
          return false;
        }
      }
    }
    return true;
  }

  // ---------- The board: what a receive may see ----------

  datatype Message = Message(id: U16, from: Byte, body: seq<Byte>)

  /** Every accepted message in order of acceptance, and which of them were delivered. */
  datatype Board = Board(log: seq<Message>, gone: set<nat>)

  /** A message still to be delivered that a receive for `id` from `from` with `pred` asks for. */
  predicate Wanted(b: Board, t: nat, id: U16, from: Byte, pred: seq<Byte> -> bool) {
    t < |b.log| && t !in b.gone && b.log[t].id == id && b.log[t].from == from && pred(b.log[t].body)
  }

  /** The undelivered messages of `id` among the first `n`, oldest first. */
  function Tickets(b: Board, id: U16, n: nat): (q: seq<nat>)
    requires n <= |b.log|
    ensures forall i :: 0 <= i < |q| ==> q[i] < n
  {
    if n == 0 then []
    else if n - 1 !in b.gone && b.log[n - 1].id == id then Tickets(b, id, n - 1) + [n - 1]
    else Tickets(b, id, n - 1)
  }

  function View(b: Board, id: U16): (q: seq<Entry>)
    ensures |q| == |Tickets(b, id, |b.log|)|
  {
    var ts := Tickets(b, id, |b.log|);
    seq(|ts|, i requires 0 <= i < |ts| => Entry(b.log[ts[i]].from, b.log[ts[i]].body))
  }

  lemma {:induction false} TicketsOfLonger(b: Board, m: Message, id: U16, n: nat)
    requires n <= |b.log| && forall t :: t in b.gone ==> t < |b.log|
    ensures Tickets(b.(log := b.log + [m]), id, n) == Tickets(b, id, n)
  {
    if n > 0 {
      TicketsOfLonger(b, m, id, n - 1);
    }
  }

  lemma ViewAppend(b: Board, m: Message, id: U16)
    requires forall t :: t in b.gone ==> t < |b.log|
    ensures View(b.(log := b.log + [m]), id) == View(b, id) + if m.id == id then [Entry(m.from, m.body)] else []
  {
    TicketsOfLonger(b, m, id, |b.log|);
  }

  /** The tickets are exactly the undelivered messages of the id, in increasing order. */
  lemma {:induction false} TicketsExact(b: Board, id: U16, n: nat)
    requires n <= |b.log|
    ensures var q := Tickets(b, id, n);
      && (forall i :: 0 <= i < |q| ==> q[i] !in b.gone && b.log[q[i]].id == id)
      && (forall i, j :: 0 <= i < j < |q| ==> q[i] < q[j])
      && (forall t :: 0 <= t < n && t !in b.gone && b.log[t].id == id ==> t in q)
  {
    if n > 0 {
      TicketsExact(b, id, n - 1);
    }
  }

  lemma {:induction false} TicketsUnaffected(b: Board, t: nat, id: U16, n: nat)
    requires n <= |b.log| && (t >= n || b.log[t].id != id)
    ensures Tickets(b.(gone := b.gone + {t}), id, n) == Tickets(b, id, n)
  {
    if n > 0 {
      TicketsUnaffected(b, t, id, n - 1);
    }
  }

  lemma {:induction false} TicketsWithout(b: Board, id: U16, n: nat, i: nat)
    requires n <= |b.log| && i < |Tickets(b, id, n)|
    ensures Tickets(b.(gone := b.gone + {Tickets(b, id, n)[i]}), id, n) == RemoveAt(Tickets(b, id, n), i)
  {
    var q, r := Tickets(b, id, n - 1), Tickets(b, id, n);
    if i == |q| {
      TicketsUnaffected(b, n - 1, id, n - 1);
      assert RemoveAt(r, i) == q;
    } else {
      TicketsWithout(b, id, n - 1, i);
      assert r == q || r == q + [n - 1];
      assert r[i] == q[i] < n - 1;
      assert r == q + [n - 1] ==> RemoveAt(r, i) == RemoveAt(q, i) + [n - 1];
    }
  }

  lemma ViewWithout(b: Board, id: U16, i: nat)
    requires i < |View(b, id)|
    ensures View(b.(gone := b.gone + {Tickets(b, id, |b.log|)[i]}), id) == RemoveAt(View(b, id), i)
  {
    TicketsWithout(b, id, |b.log|, i);
  }

  lemma ViewUnaffected(b: Board, t: nat, id: U16)
    requires t < |b.log| && b.log[t].id != id
    ensures View(b.(gone := b.gone + {t}), id) == View(b, id)
  {
    TicketsUnaffected(b, t, id, |b.log|);
  }

  /** Delivering ticket `i` of the view removes exactly that entry, and touches no other id. */
  lemma ViewRemove(b: Board, id: U16, i: nat, other: U16)
    requires i < |View(b, id)|
    ensures var t := Tickets(b, id, |b.log|)[i];
      View(b.(gone := b.gone + {t}), other) == if other == id then RemoveAt(View(b, id), i) else View(b, other)
  {
    if other == id {
      ViewWithout(b, id, i);
    } else {
      TicketsExact(b, id, |b.log|);
      ViewUnaffected(b, Tickets(b, id, |b.log|)[i], other);
    }
  }

  /** The first match in the view is the oldest wanted message; no match means nothing is wanted. */
  lemma FirstMatchIsOldest(b: Board, id: U16, from: Byte, pred: seq<Byte> -> bool)
    ensures var i := FirstMatch(View(b, id), from, pred);
      var ts := Tickets(b, id, |b.log|);
      && (i == |ts| ==> forall t :: !Wanted(b, t, id, from, pred))
      && (i < |ts| ==> Wanted(b, ts[i], id, from, pred) && forall t :: Wanted(b, t, id, from, pred) ==> ts[i] <= t)
  {
    var i := FirstMatch(View(b, id), from, pred);
    var ts := Tickets(b, id, |b.log|);
    TicketsExact(b, id, |b.log|);
    forall t | Wanted(b, t, id, from, pred)
      ensures i < |ts| && ts[i] <= t
    {
      var k :| 0 <= k < |ts| && ts[k] == t;
      assert Matches(View(b, id)[k], from, pred);
    }
  }

  // ---------- The interface ----------

  datatype IngestOutcome = IngestOutcome(from: Byte, id: U16, len: nat)
  datatype IngestResult = Ingested(outcome: IngestOutcome) | Refused(error: IngestError)
  datatype Received = Received(from: Byte, id: U16, body: seq<Byte>)

  /** What mailbox `i` must hold: the undelivered messages of its id. A repeated id never gets its own. */
  function Expected(ids: seq<U16>, b: Board, i: nat): seq<Entry>
    requires i < |ids|
  {
    if SlotFor(ids, ids[i]) == Some(i) then View(b, ids[i]) else []
  }

  function AllExpected(ids: seq<U16>, b: Board): (q: seq<seq<Entry>>)
    ensures |q| == |ids|
  {
    seq(|ids|, i requires 0 <= i < |ids| => Expected(ids, b, i))
  }

  predicate Proper(b: Board) { forall t :: t in b.gone ==> t < |b.log| }

  lemma AcceptedShows(ids: seq<U16>, b: Board, m: Message, slot: nat)
    requires Proper(b) && SlotFor(ids, m.id) == Some(slot)
    ensures AllExpected(ids, b.(log := b.log + [m])) ==
      AllExpected(ids, b)[slot := View(b, m.id) + [Entry(m.from, m.body)]]
  {
    forall i | 0 <= i < |ids|
      ensures Expected(ids, b.(log := b.log + [m]), i) ==
        AllExpected(ids, b)[slot := View(b, m.id) + [Entry(m.from, m.body)]][i]
    {
      ViewAppend(b, m, ids[i]);
    }
  }

  lemma DeliveredLeaves(ids: seq<U16>, b: Board, id: U16, slot: nat, k: nat)
    requires SlotFor(ids, id) == Some(slot) && k < |View(b, id)|
    ensures AllExpected(ids, b.(gone := b.gone + {Tickets(b, id, |b.log|)[k]})) ==
      AllExpected(ids, b)[slot := RemoveAt(View(b, id), k)]
  {
    var c := b.(gone := b.gone + {Tickets(b, id, |b.log|)[k]});
    forall i | 0 <= i < |ids|
      ensures Expected(ids, c, i) == AllExpected(ids, b)[slot := RemoveAt(View(b, id), k)][i]
    {
      ViewRemove(b, id, k, ids[i]);
    }
  }

  /** A receive that takes ticket `t`: the oldest wanted one. */
  ghost predicate Takes(b: Board, c: Board, t: nat, id: U16, from: Byte, pred: seq<Byte> -> bool) {
    && Wanted(b, t, id, from, pred)
    && (forall u: nat :: Wanted(b, u, id, from, pred) ==> t <= u)
    && c == b.(gone := b.gone + {t})
  }

  /** `c` is the board at some later time: more may be accepted and more delivered, nothing is undone. */
  predicate Later(b: Board, c: Board) { b.log <= c.log && b.gone <= c.gone }

  /** Of two receives, the second on a later board: they take different messages, and if they ask for the same
      thing, in the order of acceptance. */
  lemma DeliveredOnceInOrder(
      b1: Board, c1: Board, t1: nat, b2: Board, c2: Board, t2: nat, id: U16, from: Byte, pred: seq<Byte> -> bool,
      id': U16, from': Byte, pred': seq<Byte> -> bool)
    requires Takes(b1, c1, t1, id, from, pred) && Later(c1, b2) && Takes(b2, c2, t2, id', from', pred')
    ensures t1 != t2 && Later(b1, c1) && Later(c1, c2)
    ensures id == id' && from == from' && pred == pred' ==> t1 < t2
  {
    if id == id' && from == from' && pred == pred' && t2 < t1 {
      assert Wanted(b1, t2, id, from, pred);
    }
  }

  /** The receive side of an `Interface`: one mailbox per message id. */
  class Interface {
    const ids: seq<U16>
    const depth: nat
    const maxBody: nat
    const boxes: seq<TypeMailbox>
    ghost function Stores(): set<object>
      reads boxes
    {
      (set i | 0 <= i < |boxes| :: boxes[i] as object) + (set i | 0 <= i < |boxes| :: boxes[i].slots as object)
    }

    ghost predicate BoxesValid()
      reads Stores()
    {
      && |boxes| == |ids|
      && (forall i :: 0 <= i < |boxes| ==> boxes[i].depth == depth && boxes[i].maxBody == maxBody && boxes[i].Valid())
      && (forall i, j :: 0 <= i < j < |boxes| ==> boxes[i] != boxes[j] && boxes[i].slots != boxes[j].slots)
    }

    ghost function Queues(): (q: seq<seq<Entry>>)
      requires BoxesValid()
      reads Stores()
      ensures |q| == |boxes|
    {
      seq(|boxes|, i requires 0 <= i < |boxes| && BoxesValid() reads Stores() => boxes[i].Contents())
    }

    /** The mailboxes hold exactly the undelivered messages of board `b`. */
    ghost predicate Shows(b: Board)
      reads Stores()
    {
      BoxesValid() && Proper(b) && Queues() == AllExpected(ids, b)
    }

    constructor (ids: seq<U16>, depth: nat, maxBody: nat)
      ensures this.ids == ids && this.depth == depth && this.maxBody == maxBody
      ensures Shows(Board([], {})) && fresh(Stores())
    {
      var bs: seq<TypeMailbox> := [];
      while |bs| < |ids|
        invariant |bs| <= |ids|
        invariant forall i :: 0 <= i < |bs| ==>
          fresh(bs[i]) && fresh(bs[i].slots) && bs[i].depth == depth && bs[i].maxBody == maxBody && bs[i].Valid()
            && bs[i].Contents() == []
        invariant forall i, j :: 0 <= i < j < |bs| ==> bs[i] != bs[j] && bs[i].slots != bs[j].slots
      {
        var box := new TypeMailbox(depth, maxBody);
        bs := bs + [box];
      }
      this.ids, this.depth, this.maxBody, boxes := ids, depth, maxBody, bs;
    }

    /** `RxState::push`. */
    method PushTo(slot: nat, from: Byte, body: seq<Byte>) returns (err: Option<IngestError>)
      requires BoxesValid() && slot < |boxes|
      modifies boxes[slot], boxes[slot].slots
      ensures BoxesValid()
      ensures err == if |body| > maxBody then Some(BodyTooLarge(|body|, maxBody))
                     else if |old(Queues())[slot]| == depth then Some(MailboxFull) else None
      ensures Queues() ==
        if err.None? then old(Queues())[slot := old(Queues())[slot] + [Entry(from, body)]] else old(Queues())
    {
      err := boxes[slot].Push(from, body);
      assert forall i :: 0 <= i < |boxes| && i != slot ==> boxes[i].Contents() == old(boxes[i].Contents());
    }

    /** `RxState::pop_matching_where`. */
    method PopFrom(slot: nat, from: Byte, pred: seq<Byte> -> bool) returns (out: Option<Slot>)
      requires BoxesValid() && slot < |boxes|
      modifies boxes[slot], boxes[slot].slots
      ensures BoxesValid()
      ensures var q := old(Queues());
        var i := FirstMatch(q[slot], from, pred);
        if i == |q[slot]| then out == None && Queues() == q
        else out.Some? && GoodSlot(out.value, maxBody) && EntryOf(out.value) == q[slot][i]
             && Queues() == q[slot := RemoveAt(q[slot], i)]
    {
      out := boxes[slot].PopMatchingWhere(from, pred);
      assert forall i :: 0 <= i < |boxes| && i != slot ==> boxes[i].Contents() == old(boxes[i].Contents());
    }

    /** Push a message whose id has a slot, and record it on the board. */
    method Accept(slot: nat, from: Byte, w: Wire, ghost b: Board) returns (err: Option<IngestError>, ghost c: Board)
      requires Shows(b) && SlotFor(ids, w.id) == Some(slot)
      modifies Stores()
      ensures Shows(c)
      ensures err == if |w.body| > maxBody then Some(BodyTooLarge(|w.body|, maxBody))
                     else if |View(b, w.id)| == depth then Some(MailboxFull) else None
      ensures c == if err.None? then b.(log := b.log + [Message(w.id, from, w.body)]) else b
    {
      err := PushTo(slot, from, w.body);
      c := b;
      if err.None? {
        AcceptedShows(ids, b, Message(w.id, from, w.body), slot);
        c := b.(log := b.log + [Message(w.id, from, w.body)]);
      }
    }

    /** `ingest`: accept a payload into the mailbox of its id, or say why not and change nothing. */
    method Ingest(from: Byte, payload: seq<Byte>, ghost b: Board) returns (r: IngestResult, ghost c: Board)
      requires Shows(b)
      modifies Stores()
      ensures Shows(c)
      ensures match DecodeWire(payload)
        case None => r == Refused(MalformedPayload)
        case Some(w) =>
          r == if w.id !in ids then Refused(UnknownId(w.id))
               else if |w.body| > maxBody then Refused(BodyTooLarge(|w.body|, maxBody))
               else if |View(b, w.id)| == depth then Refused(MailboxFull)
               else Ingested(IngestOutcome(from, w.id, |w.body|))
      ensures c == if r.Ingested?
        then b.(log := b.log + [Message(r.outcome.id, from, DecodeWire(payload).value.body)]) else b
    {
      c := b;
      var raw := DecodeWire(payload);
      if raw.None? {
        return Refused(MalformedPayload), b;
      }
      var w := raw.value;
      var slot := SlotForId(ids, w.id);
      if slot.None? {
        return Refused(UnknownId(w.id)), b;
      }
      var err;
      err, c := Accept(slot.value, from, w, b);
      r := if err.Some? then Refused(err.value) else Ingested(IngestOutcome(from, w.id, |w.body|));
    }

    /** One pass of `__recv_next_capnp_from_where`: under the lock, take the oldest undelivered message of
        this id from this sender that satisfies the predicate, if there is one. */
    method TryReceive(id: U16, from: Byte, pred: seq<Byte> -> bool, ghost b: Board)
      returns (known: bool, r: Option<Received>, ghost c: Board)
      requires Shows(b)
      modifies Stores()
      ensures Shows(c)
      ensures known <==> id in ids
      ensures !known ==> r.None?
      ensures r.None? ==> c == b
      ensures known && r.None? ==> forall t: nat :: !Wanted(b, t, id, from, pred)
      ensures r.Some? ==>
        exists t: nat :: Takes(b, c, t, id, from, pred) && r.value == Received(from, id, b.log[t].body)
    {
      var slot := SlotForId(ids, id);
      if slot.None? {
        return false, None, b;
      }
      known, r, c := true, None, b;
      var out := PopFrom(slot.value, from, pred);
      FirstMatchIsOldest(b, id, from, pred);
      if out.Some? {
        ghost var k := FirstMatch(View(b, id), from, pred);
        ghost var t := Tickets(b, id, |b.log|)[k];
        DeliveredLeaves(ids, b, id, slot.value, k);
        c := b.(gone := b.gone + {t});
        r := Some(Received(from, id, out.value.body[..out.value.len]));
        assert Takes(b, c, t, id, from, pred);
      }
    }
  }
}
