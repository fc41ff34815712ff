/** The bus server: one thread that owns the connected clients and handles one command at a time, and one
    reader per client that turns bytes into commands. */
module Server {
  import opened Basics
  import opened CanTypes
  import opened Wire
  import opened Stream

  type ClientId = nat

  datatype Command =
    | AddClient(id: ClientId)
    | RemoveClient(id: ClientId)
    | Send(id: ClientId, send: SendFrame)
    | SetFilters(id: ClientId, seqNo: U64, filters: seq<Filter>)
    | Shutdown

  datatype PendingFilters = PendingFilters(seqNo: U64, filters: seq<Filter>)

  /** The bus thread's state, with everything queued so far for each client. */
  datatype Bus = Bus(
    clients: map<ClientId, seq<Filter>>,
    pending: map<ClientId, PendingFilters>,
    queues: map<ClientId, seq<Msg>>)

  const START := Bus(map[], map[], map[])

  function Queue(b: Bus, id: ClientId): seq<Msg> { if id in b.queues then b.queues[id] else [] }

  function Put(b: Bus, id: ClientId, msgs: seq<Msg>): (b': Bus)
    ensures Queue(b', id) == Queue(b, id) + msgs
    ensures forall c :: c != id ==> Queue(b', c) == Queue(b, c)
  {
    b.(queues := b.queues[id := Queue(b, id) + msgs])
  }

  /** Whether a client is queued a frame when it is broadcast. */
  predicate Hears(b: Bus, id: ClientId, f: Frame) { id in b.clients && FiltersMatch(b.clients[id], f.id) }

  function Broadcast(b: Bus, f: Frame): (b': Bus)
    ensures forall c :: Queue(b', c) == Queue(b, c) + if Hears(b, c, f) then [FrameMsg(f)] else []
  {
    b.(queues := map c | c in b.queues.Keys + b.clients.Keys && (c in b.queues || Hears(b, c, f)) ::
      Queue(b, c) + if Hears(b, c, f) then [FrameMsg(f)] else [])
  }

  function AckStatus(b: Bus, s: SendFrame): Byte {
    if s.expectAck && |b.clients| <= 1 then ACK_NO_ACK else ACK_OK
  }

  /** `handle_command`. */
  function Handle(b: Bus, cmd: Command): Bus {
    match cmd
    case AddClient(id) =>
      if id in b.pending then
        var p := b.pending[id];
        Put(Bus(b.clients[id := p.filters], b.pending - {id}, b.queues), id, [Hello, FiltersAckMsg(p.seqNo, ACK_OK)])
      else
        Put(b.(clients := b.clients[id := []]), id, [Hello])
    case RemoveClient(id) =>
      b.(clients := b.clients - {id}, pending := b.pending - {id})
    case Send(id, s) =>
      var b' := Broadcast(b, s.frame);
      if s.expectAck && id in b.clients then Put(b', id, [AckMsg(s.seqNo, AckStatus(b, s))]) else b'
    case SetFilters(id, seqNo, fs) =>
      if seqNo == 0 then
        if id in b.clients then Put(b, id, [FiltersAckMsg(0, ACK_SERVER_ERR)]) else b
      else if id in b.clients then
        Put(b.(clients := b.clients[id := fs]), id, [FiltersAckMsg(seqNo, ACK_OK)])
      else b.(pending := b.pending[id := PendingFilters(seqNo, fs)])
    case Shutdown => b
  }

  function Last<T>(s: seq<T>): T
    requires s != []
  {
    s[|s| - 1]
  }

  function Init<T>(s: seq<T>): seq<T>
    requires s != []
  {
    s[..|s| - 1]
  }

  /** The bus after a command sequence. */
  function After(cmds: seq<Command>): Bus {
    if cmds == [] then START else Handle(After(Init(cmds)), Last(cmds))
  }

  /** The commands before the first shutdown. */
  function Handled(cmds: seq<Command>): (h: seq<Command>)
    ensures h <= cmds && Shutdown !in h && (|h| < |cmds| ==> cmds[|h|] == Shutdown)
  {
    if cmds == [] || cmds[0] == Shutdown then [] else [cmds[0]] + Handled(cmds[1..])
  }

  // ---------- What the commands mean, without the bus ----------

  /** The last word on `id`'s membership is that it joined. */
  predicate Connected(cmds: seq<Command>, id: ClientId) {
    cmds != [] &&
    if Last(cmds) == AddClient(id) then true
    else if Last(cmds) == RemoveClient(id) then false
    else Connected(Init(cmds), id)
  }

  /** The filters `id` submitted last, whether before or after it joined; none once it has left. */
  function FiltersOf(cmds: seq<Command>, id: ClientId): seq<Filter> {
    if cmds == [] then []
    else
      match Last(cmds)
      case SetFilters(c, s, fs) => if c == id && s != 0 then fs else FiltersOf(Init(cmds), id)
      case RemoveClient(c) => if c == id then [] else FiltersOf(Init(cmds), id)
      case _ => FiltersOf(Init(cmds), id)
  }

  /** Ids are handed out once (`accept_loop` counts them up). */
  predicate FreshIds(cmds: seq<Command>) {
    forall i, j :: 0 <= i < j < |cmds| && cmds[i].AddClient? && cmds[j].AddClient? ==> cmds[i].id != cmds[j].id
  }

  /** The frames handled so far: the bus log. */
  function BusLog(cmds: seq<Command>): seq<Frame> {
    if cmds == [] then []
    else BusLog(Init(cmds)) + if Last(cmds).Send? then [Last(cmds).send.frame] else []
  }

  /** The part of the bus log that `id` is entitled to. */
  function Entitled(cmds: seq<Command>, id: ClientId): seq<Frame> {
    if cmds == [] then []
    else
      Entitled(Init(cmds), id) +
      if Last(cmds).Send? && Connected(Init(cmds), id)
        && FiltersMatch(FiltersOf(Init(cmds), id), Last(cmds).send.frame.id)
      then [Last(cmds).send.frame] else []
  }

  /** What the bus holds of one client, given its membership and its latest filters. */
  predicate Holds(b: Bus, id: ClientId, connected: bool, fs: seq<Filter>) {
    && (id in b.clients <==> connected)
    && (id in b.clients ==> id !in b.pending && b.clients[id] == fs)
    && (id in b.pending ==> b.pending[id].filters == fs)
    && (id !in b.clients && id !in b.pending ==> fs == [])
  }

  lemma {:induction false} ConnectedWasAdded(cmds: seq<Command>, id: ClientId)
    requires Connected(cmds, id)
    ensures AddClient(id) in cmds
  {
    if Last(cmds) != AddClient(id) {
      ConnectedWasAdded(Init(cmds), id);
    }
  }

  lemma {:induction false} FreshJoin(cmds: seq<Command>)
    requires cmds != [] && FreshIds(cmds) && Last(cmds).AddClient?
    ensures !Connected(Init(cmds), Last(cmds).id)
  {
    if Connected(Init(cmds), Last(cmds).id) {
      ConnectedWasAdded(Init(cmds), Last(cmds).id);
    }
  }

  lemma {:induction false} HoldsStep(b: Bus, cmds: seq<Command>, id: ClientId)
    requires cmds != [] && Holds(b, id, Connected(Init(cmds), id), FiltersOf(Init(cmds), id))
    requires Last(cmds) == AddClient(id) ==> id !in b.clients
    ensures Holds(Handle(b, Last(cmds)), id, Connected(cmds, id), FiltersOf(cmds, id))
  {
  }

  /** Membership and filters are what the commands say, whatever the interleaving; pending and connected
      ids never overlap. */
  lemma {:induction false} StateFollowsCommands(cmds: seq<Command>, id: ClientId)
    requires FreshIds(cmds)
    ensures Holds(After(cmds), id, Connected(cmds, id), FiltersOf(cmds, id))
  {
    if cmds != [] {
      StateFollowsCommands(Init(cmds), id);
      if Last(cmds) == AddClient(id) {
        FreshJoin(cmds);
      }
      HoldsStep(After(Init(cmds)), cmds, id);
    }
  }

  lemma {:induction false} PendingApartFromConnected(cmds: seq<Command>)
    requires FreshIds(cmds)
    ensures After(cmds).clients.Keys !! After(cmds).pending.Keys
  {
    forall id | id in After(cmds).clients
      ensures id !in After(cmds).pending
    {
      StateFollowsCommands(cmds, id);
    }
  }

  /** What one command adds to a client's queue. */
  function Added(b: Bus, cmd: Command, id: ClientId): seq<Msg> {
    match cmd
    case AddClient(c) =>
      if c != id then [] else if id in b.pending then [Hello, FiltersAckMsg(b.pending[id].seqNo, ACK_OK)] else [Hello]
    case RemoveClient(_) => []
    case Send(c, s) =>
      (if Hears(b, id, s.frame) then [FrameMsg(s.frame)] else []) +
      (if s.expectAck && c == id && id in b.clients then [AckMsg(s.seqNo, AckStatus(b, s))] else [])
    case SetFilters(c, n, fs) =>
      if c != id || id !in b.clients then []
      else [if n == 0 then FiltersAckMsg(0, ACK_SERVER_ERR) else FiltersAckMsg(n, ACK_OK)]
    case Shutdown => []
  }

  lemma SendGrows(b: Bus, cmd: Command, id: ClientId)
    requires cmd.Send?
    ensures Queue(Handle(b, cmd), id) == Queue(b, id) + Added(b, cmd, id)
  {
    var q, f, ack := Queue(b, id), Queue(Broadcast(b, cmd.send.frame), id),
      [AckMsg(cmd.send.seqNo, AckStatus(b, cmd.send))];
    Associative(q, if Hears(b, id, cmd.send.frame) then [FrameMsg(cmd.send.frame)] else [], ack);
    assert f + [] == f;
  }

  lemma QueueGrows(b: Bus, cmd: Command, id: ClientId)
    ensures Queue(Handle(b, cmd), id) == Queue(b, id) + Added(b, cmd, id)
  {
    if cmd.Send? {
      SendGrows(b, cmd, id);
    } else {
      assert Queue(b, id) + [] == Queue(b, id);
    }
  }

  lemma {:induction false} NoFrames(m: seq<Msg>)
    requires forall i :: 0 <= i < |m| ==> !m[i].FrameMsg?
    ensures FramesOf(m) == []
  {
    if m != [] {
      NoFrames(m[1..]);
    }
  }

  lemma {:induction false} FramesAdded(b: Bus, cmd: Command, id: ClientId)
    ensures FramesOf(Added(b, cmd, id)) == if cmd.Send? && Hears(b, id, cmd.send.frame) then [cmd.send.frame] else []
  {
    if cmd.Send? {
      var first := if Hears(b, id, cmd.send.frame) then [FrameMsg(cmd.send.frame)] else [];
      var ack := if cmd.send.expectAck && cmd.id == id && id in b.clients
        then [AckMsg(cmd.send.seqNo, AckStatus(b, cmd.send))] else [];
      FramesOfConcat(first, ack);
    } else {
      var m := Added(b, cmd, id);
      assert forall i :: 0 <= i < |m| ==> !m[i].FrameMsg?;
      NoFrames(m);
    }
  }

  /** One bus order: a client is queued exactly the frames it is entitled to, in the order of the bus log. */
  lemma {:induction false} QueuedIsEntitled(cmds: seq<Command>, id: ClientId)
    requires FreshIds(cmds)
    ensures FramesOf(Queue(After(cmds), id)) == Entitled(cmds, id)
  {
    if cmds != [] {
      var b, cmd := After(Init(cmds)), Last(cmds);
      QueuedIsEntitled(Init(cmds), id);
      StateFollowsCommands(Init(cmds), id);
      QueueGrows(b, cmd, id);
      FramesOfConcat(Queue(b, id), Added(b, cmd, id));
      FramesAdded(b, cmd, id);
    }
  }

  /** `a` can be had from `b` by leaving out elements. */
  predicate Subsequence<T(==)>(a: seq<T>, b: seq<T>) {
    a == [] || (b != [] && (Subsequence(a, Init(b)) || (Last(a) == Last(b) && Subsequence(Init(a), Init(b)))))
  }

  /** Any two clients' frames are subsequences of one and the same log. */
  lemma {:induction false} OneBusOrder(cmds: seq<Command>, id: ClientId)
    requires FreshIds(cmds)
    ensures Subsequence(FramesOf(Queue(After(cmds), id)), BusLog(cmds))
  {
    QueuedIsEntitled(cmds, id);
    EntitledFromLog(cmds, id);
  }

  lemma {:induction false} EntitledFromLog(cmds: seq<Command>, id: ClientId)
    ensures Subsequence(Entitled(cmds, id), BusLog(cmds))
  {
    if cmds != [] {
      var e, l := Entitled(Init(cmds), id), BusLog(Init(cmds));
      EntitledFromLog(Init(cmds), id);
      if Last(cmds).Send? {
        var f := Last(cmds).send.frame;
        assert Init(l + [f]) == l && Init(e + [f]) == e;
        assert Subsequence(e, l + [f]) && Subsequence(e + [f], l + [f]);
        assert Entitled(cmds, id) == e + [f] || Entitled(cmds, id) == e + [];
        assert e + [] == e;
      } else {
        assert e + [] == e && l + [] == l;
      }
    }
  }

  /** Whatever a client is ever queued starts with the greeting. */
  lemma {:induction false} GreetingFirst(cmds: seq<Command>, id: ClientId)
    ensures var q := Queue(After(cmds), id);
      (id in After(cmds).clients ==> q != []) && (q != [] ==> q[0] == Hello)
  {
    if cmds != [] {
      GreetingFirst(Init(cmds), id);
      QueueGrows(After(Init(cmds)), Last(cmds), id);
      JoinedBefore(After(Init(cmds)), Last(cmds), id);
    }
  }

  lemma JoinedBefore(b: Bus, cmd: Command, id: ClientId)
    ensures id in Handle(b, cmd).clients ==> id in b.clients || cmd == AddClient(id)
    ensures Added(b, cmd, id) != [] ==> id in b.clients || (cmd == AddClient(id) && Added(b, cmd, id)[0] == Hello)
    ensures cmd == AddClient(id) ==> Added(b, cmd, id) != [] && Added(b, cmd, id)[0] == Hello
  {
  }

  // ---------- Filter epochs ----------

  /** The position of the last ack in a queue that tells of a filter list taken over. */
  function LastOk(o: seq<Msg>): (i: Option<nat>)
    ensures i.Some? ==> i.value < |o| && o[i.value].FiltersAckMsg?
  {
    if o == [] then None
    else if Last(o).FiltersAckMsg? && Last(o).status == ACK_OK then Some(|o| - 1)
    else LastOk(Init(o))
  }

  /** The command that holds the latest filters of `id`, if it submitted any and has not left since. */
  function LastSet(cmds: seq<Command>, id: ClientId): (k: Option<nat>)
    ensures k.Some? ==> k.value < |cmds| && cmds[k.value].SetFilters? && cmds[k.value].id == id
  {
    if cmds == [] then None
    else if Last(cmds).SetFilters? && Last(cmds).id == id && Last(cmds).seqNo != 0 then Some(|cmds| - 1)
    else if Last(cmds) == RemoveClient(id) then None
    else LastSet(Init(cmds), id)
  }

  /** For each position of a client's queue, the command whose handling put it there. */
  function Origins(cmds: seq<Command>, id: ClientId): seq<nat> {
    if cmds == [] then []
    else Origins(Init(cmds), id) + seq(|Added(After(Init(cmds)), Last(cmds), id)|, _ => |cmds| - 1)
  }

  /** `fs` are the filters that the last successful ack in `o` is for: those of the latest list of `id` when the
      ack was queued. Without such an ack there are none. */
  predicate InForce(cmds: seq<Command>, id: ClientId, from: seq<nat>, o: seq<Msg>, fs: seq<Filter>)
    requires |o| <= |from|
  {
    match LastOk(o)
    case None => fs == []
    case Some(i) => from[i] < |cmds| && Holding(cmds[..from[i] + 1], id, o[i].seqNo, fs)
  }

  /** The latest list of `id` is `fs`, submitted under number `n`. */
  predicate Holding(cmds: seq<Command>, id: ClientId, n: U64, fs: seq<Filter>) {
    LastSet(cmds, id).Some? && cmds[LastSet(cmds, id).value] == SetFilters(id, n, fs)
  }

  /** Every frame in the queue passes the filters of the last successful ack before it. */
  ghost predicate Epochs(cmds: seq<Command>, id: ClientId, from: seq<nat>, o: seq<Msg>)
    requires |o| <= |from|
  {
    forall x {:trigger FrameInEpoch(cmds, id, from, o, x)} :: 0 <= x < |o| && o[x].FrameMsg? ==>
      FrameInEpoch(cmds, id, from, o, x)
  }

  ghost predicate FrameInEpoch(cmds: seq<Command>, id: ClientId, from: seq<nat>, o: seq<Msg>, x: nat)
    requires x < |o| <= |from| && o[x].FrameMsg?
  {
    exists fs :: InForce(cmds, id, from, o[..x], fs) && FiltersMatch(fs, o[x].frame.id)
  }

  ghost predicate EpochInv(b: Bus, cmds: seq<Command>, id: ClientId, from: seq<nat>) {
    && |from| == |Queue(b, id)|
    && Epochs(cmds, id, from, Queue(b, id))
    && (id in b.clients ==> InForce(cmds, id, from, Queue(b, id), b.clients[id]))
    && (id in b.pending ==> Holding(cmds, id, b.pending[id].seqNo, b.pending[id].filters))
    && (AddClient(id) !in cmds ==> Queue(b, id) == [] && id !in b.clients)
  }

  lemma {:induction false} InForceLater(
      cmds: seq<Command>, id: ClientId, from: seq<nat>, more: seq<nat>, o: seq<Msg>, fs: seq<Filter>)
    requires cmds != [] && |o| <= |from| && InForce(Init(cmds), id, from, o, fs)
    ensures InForce(cmds, id, from + more, o, fs)
  {
    if LastOk(o).Some? {
      var j := from[LastOk(o).value];
      assert Init(cmds)[..j + 1] == cmds[..j + 1];
    }
  }

  lemma {:induction false} EpochsLater(cmds: seq<Command>, id: ClientId, from: seq<nat>, more: seq<nat>, o: seq<Msg>)
    requires cmds != [] && |o| <= |from| && Epochs(Init(cmds), id, from, o)
    ensures Epochs(cmds, id, from + more, o)
  {
    forall x | 0 <= x < |o| && o[x].FrameMsg?
      ensures FrameInEpoch(cmds, id, from + more, o, x)
    {
      assert FrameInEpoch(Init(cmds), id, from, o, x);
      var fs :| InForce(Init(cmds), id, from, o[..x], fs) && FiltersMatch(fs, o[x].frame.id);
      InForceLater(cmds, id, from, more, o[..x], fs);
    }
  }

  predicate OpensEpoch(m: Msg) { m.FiltersAckMsg? && m.status == ACK_OK }

  /** Appending a message: acks open a new epoch, frames must pass the current one. */
  lemma {:induction false} EpochsPush(
      cmds: seq<Command>, id: ClientId, from: seq<nat>, o: seq<Msg>, m: Msg, fs: seq<Filter>)
    requires |o| < |from| && Epochs(cmds, id, from, o)
    requires m.FrameMsg? ==> InForce(cmds, id, from, o, fs) && FiltersMatch(fs, m.frame.id)
    ensures Epochs(cmds, id, from, o + [m])
    ensures LastOk(o + [m]) == if OpensEpoch(m) then Some(|o|) else LastOk(o)
    ensures !OpensEpoch(m) && InForce(cmds, id, from, o, fs) ==> InForce(cmds, id, from, o + [m], fs)
  {
    var q := o + [m];
    assert Init(q) == o;
    forall x | 0 <= x < |q| && q[x].FrameMsg?
      ensures FrameInEpoch(cmds, id, from, q, x)
    {
      if x < |o| {
        assert FrameInEpoch(cmds, id, from, o, x);
        assert q[..x] == o[..x];
      } else {
        assert q[..x] == o;
      }
    }
  }

  /** Frames, acks of frames and refusals, up to two at a time, leave the filters in force as they are. */
  lemma {:induction false} PlainPush(
      cmds: seq<Command>, id: ClientId, from: seq<nat>, o: seq<Msg>, add: seq<Msg>, fs: seq<Filter>)
    requires |o| + |add| <= |from| && Epochs(cmds, id, from, o) && InForce(cmds, id, from, o, fs)
    requires |add| <= 2 && forall i :: 0 <= i < |add| ==>
      !OpensEpoch(add[i]) && (add[i].FrameMsg? ==> FiltersMatch(fs, add[i].frame.id))
    ensures Epochs(cmds, id, from, o + add) && InForce(cmds, id, from, o + add, fs)
  {
    if |add| == 0 {
      assert o + add == o;
    } else {
      EpochsPush(cmds, id, from, o, add[0], fs);
      if |add| == 1 {
        assert add == [add[0]];
      } else {
        EpochsPush(cmds, id, from, o + [add[0]], add[1], fs);
        assert o + add == o + [add[0]] + [add[1]];
      }
    }
  }

  /** What an ack at the end of the queue opens. */
  lemma {:induction false} AckPush(
      cmds: seq<Command>, id: ClientId, from: seq<nat>, o: seq<Msg>, n: U64, fs: seq<Filter>)
    requires cmds != [] && |o| < |from| && from[|o|] == |cmds| - 1 && Epochs(cmds, id, from, o)
      && Holding(cmds, id, n, fs)
    ensures var q := o + [FiltersAckMsg(n, ACK_OK)]; Epochs(cmds, id, from, q) && InForce(cmds, id, from, q, fs)
  {
    EpochsPush(cmds, id, from, o, FiltersAckMsg(n, ACK_OK), []);
    assert cmds[..|cmds|] == cmds;
  }

  predicate Plain(b: Bus, cmd: Command, id: ClientId) {
    id in b.clients && (cmd.Send? || (cmd.SetFilters? && (cmd.id != id || cmd.seqNo == 0)))
  }

  lemma AddedPlain(b: Bus, cmd: Command, id: ClientId)
    requires Plain(b, cmd, id)
    ensures var add := Added(b, cmd, id);
      |add| <= 2 && forall i :: 0 <= i < |add| ==>
        !OpensEpoch(add[i]) && (add[i].FrameMsg? ==> FiltersMatch(b.clients[id], add[i].frame.id))
  {
  }

  /** The part of the invariant about the queue, after one more command; `from` are the origins after it. */
  ghost predicate QueueInEpochs(b: Bus, cmds: seq<Command>, id: ClientId, from: seq<nat>) {
    && |from| == |Queue(b, id)|
    && Epochs(cmds, id, from, Queue(b, id))
    && (id in b.clients ==> InForce(cmds, id, from, Queue(b, id), b.clients[id]))
  }

  lemma {:induction false} PlainStep(b: Bus, cmds: seq<Command>, id: ClientId, from: seq<nat>, more: seq<nat>)
    requires cmds != [] && EpochInv(b, Init(cmds), id, from) && Plain(b, Last(cmds), id)
    requires |more| == |Added(b, Last(cmds), id)|
    ensures QueueInEpochs(Handle(b, Last(cmds)), cmds, id, from + more)
  {
    var o, add, fs := Queue(b, id), Added(b, Last(cmds), id), b.clients[id];
    EpochsLater(cmds, id, from, more, o);
    InForceLater(cmds, id, from, more, o, fs);
    AddedPlain(b, Last(cmds), id);
    PlainPush(cmds, id, from + more, o, add, fs);
    QueueGrows(b, Last(cmds), id);
  }

  lemma {:induction false} HoldingLater(cmds: seq<Command>, id: ClientId, n: U64, fs: seq<Filter>)
    requires cmds != [] && Holding(Init(cmds), id, n, fs)
    requires Last(cmds) != RemoveClient(id) && !(Last(cmds).SetFilters? && Last(cmds).id == id && Last(cmds).seqNo != 0)
    ensures Holding(cmds, id, n, fs)
  {
  }

  /** A new client's queue: the greeting, and the ack of filters that were waiting. */
  lemma {:induction false} FirstEpoch(cmds: seq<Command>, id: ClientId, from: seq<nat>, held: Option<PendingFilters>)
    requires cmds != [] && |from| == (if held.Some? then 2 else 1)
    requires forall i :: 0 <= i < |from| ==> from[i] == |cmds| - 1
    requires held.Some? ==> Holding(cmds, id, held.value.seqNo, held.value.filters)
    ensures var q := [Hello] + if held.Some? then [FiltersAckMsg(held.value.seqNo, ACK_OK)] else [];
      Epochs(cmds, id, from, q) && InForce(cmds, id, from, q, if held.Some? then held.value.filters else [])
  {
    EpochsPush(cmds, id, from, [], Hello, []);
    assert [] + [Hello] == [Hello] && [Hello] + [] == [Hello];
    if held.Some? {
      AckPush(cmds, id, from, [Hello], held.value.seqNo, held.value.filters);
    }
  }

  lemma {:induction false} JoinStep(b: Bus, cmds: seq<Command>, id: ClientId, from: seq<nat>, more: seq<nat>)
    requires cmds != [] && EpochInv(b, Init(cmds), id, from) && Last(cmds) == AddClient(id)
      && AddClient(id) !in Init(cmds)
    requires more == seq(|Added(b, Last(cmds), id)|, _ => |cmds| - 1)
    ensures QueueInEpochs(Handle(b, Last(cmds)), cmds, id, from + more)
  {
    var held := if id in b.pending then Some(b.pending[id]) else None;
    QueueGrows(b, Last(cmds), id);
    assert from + more == more;
    if held.Some? {
      HoldingLater(cmds, id, held.value.seqNo, held.value.filters);
    }
    FirstEpoch(cmds, id, more, held);
    assert Queue(b, id) + Added(b, Last(cmds), id)
        == [Hello] + if held.Some? then [FiltersAckMsg(held.value.seqNo, ACK_OK)] else [];
  }

  lemma {:induction false} SetStep(b: Bus, cmds: seq<Command>, id: ClientId, from: seq<nat>, more: seq<nat>)
    requires cmds != [] && EpochInv(b, Init(cmds), id, from)
    requires Last(cmds).SetFilters? && Last(cmds).id == id && Last(cmds).seqNo != 0 && id in b.clients
    requires more == [|cmds| - 1]
    ensures QueueInEpochs(Handle(b, Last(cmds)), cmds, id, from + more)
  {
    var o := Queue(b, id);
    EpochsLater(cmds, id, from, more, o);
    assert (from + more)[|o|] == |cmds| - 1;
    AckPush(cmds, id, from + more, o, Last(cmds).seqNo, Last(cmds).filters);
  }

  /** Commands that leave the queue alone. */
  lemma {:induction false} SilentStep(b: Bus, cmds: seq<Command>, id: ClientId, from: seq<nat>)
    requires cmds != [] && EpochInv(b, Init(cmds), id, from) && Added(b, Last(cmds), id) == []
    requires id in Handle(b, Last(cmds)).clients ==>
      id in b.clients && Handle(b, Last(cmds)).clients[id] == b.clients[id]
    ensures QueueInEpochs(Handle(b, Last(cmds)), cmds, id, from + [])
  {
    var o := Queue(b, id);
    QueueGrows(b, Last(cmds), id);
    assert o + [] == o;
    EpochsLater(cmds, id, from, [], o);
    if id in b.clients {
      InForceLater(cmds, id, from, [], o, b.clients[id]);
    }
  }

  lemma {:induction false} EpochStep(b: Bus, cmds: seq<Command>, id: ClientId, from: seq<nat>, more: seq<nat>)
    requires cmds != [] && EpochInv(b, Init(cmds), id, from)
    requires Last(cmds) == AddClient(id) ==> AddClient(id) !in Init(cmds)
    requires more == seq(|Added(b, Last(cmds), id)|, _ => |cmds| - 1)
    ensures QueueInEpochs(Handle(b, Last(cmds)), cmds, id, from + more)
  {
    if Last(cmds) == AddClient(id) {
      JoinStep(b, cmds, id, from, more);
    } else if Plain(b, Last(cmds), id) {
      PlainStep(b, cmds, id, from, more);
    } else if Last(cmds).SetFilters? && Last(cmds).id == id && Last(cmds).seqNo != 0 && id in b.clients {
      SetStep(b, cmds, id, from, more);
    } else {
      SilentStep(b, cmds, id, from);
    }
  }

  lemma {:induction false} PendingStep(b: Bus, cmds: seq<Command>, id: ClientId)
    requires cmds != []
    requires id in b.pending ==>
      id !in b.clients && Holding(Init(cmds), id, b.pending[id].seqNo, b.pending[id].filters)
    ensures var c := Handle(b, Last(cmds));
      id in c.pending ==> Holding(cmds, id, c.pending[id].seqNo, c.pending[id].filters)
  {
    var last := Last(cmds);
    if id in Handle(b, last).pending && !(last.SetFilters? && last.id == id && last.seqNo != 0) {
      HoldingLater(cmds, id, b.pending[id].seqNo, b.pending[id].filters);
    }
  }

  lemma {:induction false} StrangerStep(b: Bus, cmds: seq<Command>, id: ClientId)
    requires cmds != [] && (AddClient(id) !in Init(cmds) ==> Queue(b, id) == [] && id !in b.clients)
    ensures var c := Handle(b, Last(cmds)); AddClient(id) !in cmds ==> Queue(c, id) == [] && id !in c.clients
  {
    QueueGrows(b, Last(cmds), id);
    JoinedBefore(b, Last(cmds), id);
    assert AddClient(id) !in cmds ==> AddClient(id) !in Init(cmds) && Last(cmds) != AddClient(id);
  }

  lemma FreshMeansNew(cmds: seq<Command>, id: ClientId)
    requires cmds != [] && FreshIds(cmds) && Last(cmds) == AddClient(id)
    ensures AddClient(id) !in Init(cmds)
  {
  }

  lemma {:induction false} EpochsHold(cmds: seq<Command>, id: ClientId)
    requires FreshIds(cmds)
    ensures EpochInv(After(cmds), cmds, id, Origins(cmds, id))
  {
    if cmds != [] {
      var b, from := After(Init(cmds)), Origins(Init(cmds), id);
      var more := seq(|Added(b, Last(cmds), id)|, _ => |cmds| - 1);
      EpochsHold(Init(cmds), id);
      if Last(cmds) == AddClient(id) {
        FreshMeansNew(cmds, id);
      }
      EpochStep(b, cmds, id, from, more);
      StateFollowsCommands(Init(cmds), id);
      PendingStep(b, cmds, id);
      StrangerStep(b, cmds, id);
    }
  }

  /** Filter epochs: for every command sequence with fresh ids, each frame queued to a client passes the very
      list that its latest successful filter ack was queued for. */
  lemma {:induction false} FilterEpochs(cmds: seq<Command>, id: ClientId)
    requires FreshIds(cmds)
    ensures |Origins(cmds, id)| == |Queue(After(cmds), id)|
    ensures Epochs(cmds, id, Origins(cmds, id), Queue(After(cmds), id))
  {
    EpochsHold(cmds, id);
  }

  // ---------- Acks ----------

  /** The step at which a command sequence queued a frame ack for `id`. */
  predicate AckedAt(cmds: seq<Command>, k: nat, id: ClientId, seqNo: U64, status: Byte) {
    && k < |cmds| && cmds[k].Send? && cmds[k].id == id && cmds[k].send.expectAck && cmds[k].send.seqNo == seqNo
    && id in After(cmds[..k]).clients
    && status == AckStatus(After(cmds[..k]), cmds[k].send)
  }

  lemma AckAdded(b: Bus, cmd: Command, id: ClientId, seqNo: U64, status: Byte)
    requires AckMsg(seqNo, status) in Added(b, cmd, id)
    ensures cmd.Send? && cmd.id == id && cmd.send.expectAck && cmd.send.seqNo == seqNo
    ensures id in b.clients && status == AckStatus(b, cmd.send)
  {
  }

  lemma {:induction false} AckedByLast(cmds: seq<Command>, id: ClientId, seqNo: U64, status: Byte)
    requires cmds != [] && AckMsg(seqNo, status) in Added(After(Init(cmds)), Last(cmds), id)
    ensures AckedAt(cmds, |cmds| - 1, id, seqNo, status)
  {
    AckAdded(After(Init(cmds)), Last(cmds), id, seqNo, status);
  }

  lemma {:induction false} AckedEarlier(cmds: seq<Command>, k: nat, id: ClientId, seqNo: U64, status: Byte)
    requires cmds != [] && AckedAt(Init(cmds), k, id, seqNo, status)
    ensures AckedAt(cmds, k, id, seqNo, status)
  {
    assert Init(cmds)[..k] == cmds[..k];
  }

  lemma {:induction false} AckHasCause(cmds: seq<Command>, id: ClientId, seqNo: U64, status: Byte) returns (k: nat)
    requires AckMsg(seqNo, status) in Queue(After(cmds), id)
    ensures AckedAt(cmds, k, id, seqNo, status)
  {
    QueueGrows(After(Init(cmds)), Last(cmds), id);
    if AckMsg(seqNo, status) in Queue(After(Init(cmds)), id) {
      k := AckHasCause(Init(cmds), id, seqNo, status);
      AckedEarlier(cmds, k, id, seqNo, status);
    } else {
      k := |cmds| - 1;
      AckedByLast(cmds, id, seqNo, status);
    }
  }

  lemma {:induction false} QueuesOnlyGrow(cmds: seq<Command>, k: nat, id: ClientId)
    requires k <= |cmds|
    ensures Queue(After(cmds[..k]), id) <= Queue(After(cmds), id)
  {
    if k == |cmds| {
      assert cmds[..k] == cmds;
    } else {
      QueuesOnlyGrow(Init(cmds), k, id);
      assert Init(cmds)[..k] == cmds[..k];
      QueueGrows(After(Init(cmds)), Last(cmds), id);
    }
  }

  // ---------- The bus thread ----------

  class BusThread {
    var clients: map<ClientId, seq<Filter>>
    var pending: map<ClientId, PendingFilters>
    var queues: map<ClientId, seq<Msg>>

    ghost function State(): Bus
      reads this
    {
      Bus(clients, pending, queues)
    }

    constructor ()
      ensures State() == START
    {
      clients, pending, queues := map[], map[], map[];
    }

    /** One message into one client's channel. */
    method Enqueue(id: ClientId, m: Msg)
      modifies this`queues
      ensures State() == Put(old(State()), id, [m])
    {
      queues := queues[id := (if id in queues then queues[id] else []) + [m]];
    }

    /** `broadcast_frame`: the clients come in any order. */
    method BroadcastFrame(f: Frame)
      modifies this`queues
      ensures State() == Broadcast(old(State()), f)
    {
      ghost var b := State();
      var todo := clients.Keys;
      while todo != {}
        invariant todo <= clients.Keys
        invariant forall c :: c in queues <==> c in b.queues || (c !in todo && Hears(b, c, f))
        invariant forall c :: c in queues ==>
          queues[c] == Queue(b, c) + if c !in todo && Hears(b, c, f) then [FrameMsg(f)] else []
      {
        var c :| c in todo;
        if FiltersMatch(clients[c], f.id) {
          queues := queues[c := (if c in queues then queues[c] else []) + [FrameMsg(f)]];
        }
        todo := todo - {c};
      }
      assert queues == Broadcast(b, f).queues;
    }

    /** A client joins with the filters it submitted before it was known, if any. */
    method Join(id: ClientId)
      modifies this
      ensures State() == Handle(old(State()), AddClient(id))
    {
      var held := if id in pending then Some(pending[id]) else None;
      ghost var q := Queue(State(), id);
      pending := pending - {id};
      clients := clients[id := if held.Some? then held.value.filters else []];
      Enqueue(id, Hello);
      if held.Some? {
        Enqueue(id, FiltersAckMsg(held.value.seqNo, ACK_OK));
        var ack := FiltersAckMsg(held.value.seqNo, ACK_OK);
        assert q + [Hello] + [ack] == q + [Hello, ack];
      }
    }

    /** `handle_command`. */
    method HandleCommand(cmd: Command)
      modifies this
      ensures State() == Handle(old(State()), cmd)
    {
      match cmd {
        case AddClient(id) =>
          Join(id);
        case RemoveClient(id) =>
          clients := clients - {id};
          pending := pending - {id};
        case Send(id, s) =>
          var status := if s.expectAck && |clients| <= 1 then ACK_NO_ACK else ACK_OK;
          BroadcastFrame(s.frame);
          if s.expectAck && id in clients {
            Enqueue(id, AckMsg(s.seqNo, status));
          }
        case SetFilters(id, seqNo, fs) =>
          if seqNo == 0 {
            if id in clients {
              Enqueue(id, FiltersAckMsg(0, ACK_SERVER_ERR));
            }
            return;
          }
          if id in clients {
            clients := clients[id := fs];
            Enqueue(id, FiltersAckMsg(seqNo, ACK_OK));
          } else {
            pending := pending[id := PendingFilters(seqNo, fs)];
          }
        case Shutdown =>
      }
    }

    /** `bus_loop`: everything before the first shutdown is handled, in order. */
    method Loop(cmds: seq<Command>)
      requires State() == START
      modifies this
      ensures State() == After(Handled(cmds))
    {
      var n := 0;
      ghost var all := Handled(cmds);
      while n < |cmds| && cmds[n] != Shutdown
        invariant n <= |all| && State() == After(all[..n])
      {
        assert Init(all[..n + 1]) == all[..n];
        HandleCommand(cmds[n]);
        n := n + 1;
      }
      assert all[..n] == all;
    }
  }
}
