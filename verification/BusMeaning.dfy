/** What a successful `send` means, across the client, the two byte streams and the server. */
module BusMeaning {
  import opened Basics
  import opened CanTypes
  import opened Wire
  import opened Stream
  import opened Requests
  import opened Server
  import opened ServerReader
  import C = ClientSpec
  import K = ClientSession

  predicate CleanCommands(cmds: seq<Command>) {
    forall k :: 0 <= k < |cmds| && cmds[k].Send? ==> Clean(cmds[k].send.frame)
  }

  predicate AllSendable(msgs: seq<Msg>) { forall i :: 0 <= i < |msgs| ==> Sendable(msgs[i]) }

  lemma AddedSendable(b: Bus, cmd: Command, id: ClientId)
    requires cmd.Send? ==> Clean(cmd.send.frame)
    ensures AllSendable(Added(b, cmd, id))
  {
  }

  /** Everything the bus queues can be written to the stream. */
  lemma {:induction false} QueuesSendable(cmds: seq<Command>, id: ClientId)
    requires CleanCommands(cmds)
    ensures AllSendable(Queue(After(cmds), id))
  {
    if cmds != [] {
      QueuesSendable(Init(cmds), id);
      AddedSendable(After(Init(cmds)), Last(cmds), id);
      QueueGrows(After(Init(cmds)), Last(cmds), id);
    }
  }

  /** One message of the writer, in its buffers. */
  method EncodeOne(m: Msg, frameBuf: array<Byte>, ackBuf: array<Byte>) returns (payload: seq<Byte>)
    requires Sendable(m) && frameBuf.Length == FRAME_HDR_LEN + MAX_DATA_LEN && ackBuf.Length == ACK_LEN
    modifies frameBuf, ackBuf
    ensures payload == Payload(m)
  {
    match m {
      case FrameMsg(f) =>
        var len := EncodeFrameInto(frameBuf, f);
        payload := frameBuf[..len];
      case AckMsg(s, status) =>
        EncodeAckInto(ackBuf, s, status);
        payload := ackBuf[..];
      case FiltersAckMsg(s, status) =>
        EncodeAckInto(ackBuf, s, status);
        payload := ackBuf[..];
      case Hello => payload := [];
    }
  }

  lemma RestOfStream(msgs: seq<Msg>, k: nat, written: seq<Byte>)
    requires AllSendable(msgs) && k < |msgs| && written + EncodeStream(msgs[k..]) == EncodeStream(msgs)
    ensures var bytes := Framed(MsgType(msgs[k]), Payload(msgs[k]));
      written + bytes + EncodeStream(msgs[k + 1..]) == EncodeStream(msgs)
  {
    assert msgs[k..][0] == msgs[k] && msgs[k..][1..] == msgs[k + 1..];
    Associative(written, Framed(MsgType(msgs[k]), Payload(msgs[k])), EncodeStream(msgs[k + 1..]));
  }

  lemma PrefixOfThree(a: seq<Byte>, b: seq<Byte>, c: seq<Byte>, n: nat)
    requires n <= |b|
    ensures a + b[..n] <= a + b + c
  {
  }

  /** `client_writer_loop`: the queue goes out in order, until the socket fails after `room` bytes. */
  method WriterLoop(id: ClientId, msgs: seq<Msg>, room: nat) returns (written: seq<Byte>, removed: Option<Command>)
    requires AllSendable(msgs)
    ensures written == EncodeStream(msgs)[..Min(room, |EncodeStream(msgs)|)]
    ensures removed == if room < |EncodeStream(msgs)| then Some(RemoveClient(id)) else None
  {
    written := [];
    var frameBuf := new Byte[FRAME_HDR_LEN + MAX_DATA_LEN];
    var ackBuf := new Byte[ACK_LEN];
    ghost var all := EncodeStream(msgs);
    assert msgs[0..] == msgs;
    for k := 0 to |msgs|
      invariant written + EncodeStream(msgs[k..]) == all && |written| <= room
    {
      var payload := EncodeOne(msgs[k], frameBuf, ackBuf);
      var bytes := Framed(MsgType(msgs[k]), payload);
      RestOfStream(msgs, k, written);
      if |written| + |bytes| > room {
        PrefixOfThree(written, bytes, EncodeStream(msgs[k + 1..]), room - |written|);
        written := written + bytes[..room - |written|];
        assert |all| > room && written == all[..room];
        return written, Some(RemoveClient(id));
      }
      written := written + bytes;
    }
    assert msgs[|msgs|..] == [];
    assert written == all == all[..|all|];
    removed := None;
  }

  /** What a client decodes from the bytes it got so far was queued for it. */
  lemma {:induction false} DecodedWasQueued(msgs: seq<Msg>, inbound: seq<Byte>)
    requires AllSendable(msgs) && inbound <= EncodeStream(msgs)
    ensures DecodeAll(inbound) <= msgs
  {
    var rest := EncodeStream(msgs)[|inbound|..];
    assert inbound + rest == EncodeStream(msgs) + [];
    StreamRoundTrip(msgs, []);
    assert msgs + DecodeAll([]) == msgs;
    PrefixDecodesToPrefix(inbound, rest);
  }

  lemma AnotherClient(b: Bus, id: ClientId) returns (other: ClientId)
    requires |b.clients| > 1
    ensures other in b.clients && other != id
  {
    if forall c :: c in b.clients.Keys ==> c == id {
      assert b.clients.Keys <= {id};
      SubsetSize(b.clients.Keys, {id});
      assert false;
    }
    other :| other in b.clients.Keys && other != id;
  }

  lemma {:induction false} SubsetSize<T>(a: set<T>, b: set<T>)
    requires a <= b
    ensures |a| <= |b|
  {
    if a != {} {
      var x :| x in a;
      SubsetSize(a - {x}, b - {x});
    }
  }

  /** The moment at which a frame was on the bus for `id`: handled with another client connected, queued for
      exactly the clients whose filters pass it, the sender's own copy ahead of its ack. */
  ghost predicate OnTheBus(cmds: seq<Command>, k: nat, id: ClientId, s: SendFrame) {
    && k < |cmds| && cmds[k] == Send(id, s)
    && (exists other :: other != id && Connected(cmds[..k], other))
    && (forall c :: Queue(After(cmds[..k + 1]), c) == Queue(After(cmds[..k]), c)
         + (if Connected(cmds[..k], c) && FiltersMatch(FiltersOf(cmds[..k], c), s.frame.id)
            then [FrameMsg(s.frame)] else [])
         + (if c == id then [AckMsg(s.seqNo, ACK_OK)] else []))
  }

  lemma {:induction false} OkStep(cmds: seq<Command>, k: nat, id: ClientId, s: SendFrame)
    requires FreshIds(cmds) && AckedAt(cmds, k, id, s.seqNo, ACK_OK) && cmds[k].send == s
    ensures OnTheBus(cmds, k, id, s)
  {
    var was, b := cmds[..k], After(cmds[..k]);
    var other := AnotherClient(b, id);
    StateFollowsCommands(was, other);
    forall c
      ensures Queue(After(cmds[..k + 1]), c) == Queue(b, c)
        + (if Connected(was, c) && FiltersMatch(FiltersOf(was, c), s.frame.id) then [FrameMsg(s.frame)] else [])
        + (if c == id then [AckMsg(s.seqNo, ACK_OK)] else [])
    {
      StateFollowsCommands(was, c);
      assert Init(cmds[..k + 1]) == was && Last(cmds[..k + 1]) == cmds[k];
      QueueGrows(b, cmds[k], c);
      Associative(
        Queue(b, c), if Hears(b, c, s.frame) then [FrameMsg(s.frame)] else [],
        if c == id then [AckMsg(s.seqNo, ACK_OK)] else []);
    }
  }

  // ---------- Clients, streams and bus together ----------

  /** Every send and filter command on the bus was made by the reader of its client: `sources` says which bytes
      of each client the server has read, and whether the stream has ended there. */
  ghost predicate FromReaders(cmds: seq<Command>, sources: ClientId -> (seq<Byte>, bool)) {
    forall k {:trigger FromReader(cmds[k], sources(cmds[k].id))} ::
      0 <= k < |cmds| && (cmds[k].Send? || cmds[k].SetFilters?) ==> FromReader(cmds[k], sources(cmds[k].id))
  }

  predicate FromReader(c: Command, source: (seq<Byte>, bool))
    requires c.Send? || c.SetFilters?
  {
    c in ReadCommands(c.id, source.0, source.1)
  }

  /** The bytes that everything queued for `id` makes on its stream. */
  function QueueBytes(cmds: seq<Command>, id: ClientId): seq<Byte> {
    if AllSendable(Queue(After(cmds), id)) then EncodeStream(Queue(After(cmds), id)) else []
  }

  /** A bus with its readers, and `inbound`, what client `id` has read of the bytes queued for it. */
  ghost predicate Wired(cmds: seq<Command>, sources: ClientId -> (seq<Byte>, bool), id: ClientId, inbound: seq<Byte>) {
    FreshIds(cmds) && FromReaders(cmds, sources) && inbound <= QueueBytes(cmds, id)
  }

  lemma ReadersAreClean(cmds: seq<Command>, sources: ClientId -> (seq<Byte>, bool))
    requires FromReaders(cmds, sources)
    ensures CleanCommands(cmds)
  {
    forall k | 0 <= k < |cmds| && cmds[k].Send?
      ensures Clean(cmds[k].send.frame)
    {
      assert FromReader(cmds[k], sources(cmds[k].id));
      ReadSendsAreClean(cmds[k].id, sources(cmds[k].id).0, sources(cmds[k].id).1, cmds[k]);
    }
  }

  lemma {:induction false} DecodedIsQueuePrefix(
      cmds: seq<Command>, sources: ClientId -> (seq<Byte>, bool), id: ClientId, inbound: seq<Byte>)
    requires Wired(cmds, sources, id, inbound)
    ensures DecodeAll(inbound) <= Queue(After(cmds), id)
  {
    ReadersAreClean(cmds, sources);
    QueuesSendable(cmds, id);
    DecodedWasQueued(Queue(After(cmds), id), inbound);
  }

  /** Whatever was written, whole or cut off: an OK ack means that some frame which the server read under that
      number was on the bus. */
  lemma {:induction false} AckMeansOnTheBus(
      cmds: seq<Command>, sources: ClientId -> (seq<Byte>, bool), id: ClientId, inbound: seq<Byte>, n: U64)
      returns (k: nat)
    requires Wired(cmds, sources, id, inbound) && AckMsg(n, ACK_OK) in DecodeAll(inbound)
    ensures k < |cmds| && cmds[k].Send? && cmds[k].send.seqNo == n && OnTheBus(cmds, k, id, cmds[k].send)
    ensures FromReader(cmds[k], sources(id))
  {
    var q := Queue(After(cmds), id);
    DecodedIsQueuePrefix(cmds, sources, id, inbound);
    var i :| 0 <= i < |DecodeAll(inbound)| && DecodeAll(inbound)[i] == AckMsg(n, ACK_OK);
    assert q[i] == AckMsg(n, ACK_OK);
    k := AckHasCause(cmds, id, n, ACK_OK);
    OkStep(cmds, k, id, cmds[k].send);
  }

  /** As long as nothing was cut off, what the server reads are the requests themselves. */
  lemma {:induction false} ReadIsRequest(
      t: K.Trace, written: seq<Byte>, id: ClientId, source: (seq<Byte>, bool), c: Command) returns (k: nat)
    requires K.GoodTrace(t, written) && K.Uncut(t) && source.0 <= written
    requires (c.Send? || c.SetFilters?) && c.id == id && FromReader(c, source)
    ensures k < |t.ops| && C.Writes(t.ops[k]) && c == CommandOf(id, K.PieceAt(t, k).request)
  {
    var qs := K.WholeRequests(t, |t.ops|);
    K.UncutIsWhole(t, |t.ops|);
    assert t.ops[..|t.ops|] == t.ops && t.wrote[..|t.ops|] == t.wrote;
    ReadCommandWasRequested(id, qs, source.0, source.1, c);
    var j :| 0 <= j < |qs| && c == CommandOf(id, qs[j]);
    assert qs[j] in qs;
    k :| 0 <= k < |t.ops| && K.WentOut(t, k, qs[j]);
  }

  /** Two calls whose requests have the same number are the same call. */
  lemma SameNumberSameCall(t: K.Trace, i: nat, j: nat)
    requires K.Shaped(t) && i < |t.ops| && j < |t.ops| && C.Writes(t.ops[i]) && C.Writes(t.ops[j])
    requires K.Number(t.ops, i) == K.Number(t.ops, j)
    ensures i == j
  {
    if i < j {
      K.NumbersDiffer(t.ops, i, j);
    } else if j < i {
      K.NumbersDiffer(t.ops, j, i);
    }
  }

  /** A `send` that returned Ok was on the bus, provided that no call so far failed part-way through a write. */
  lemma {:induction false} SendOkMeansOnTheBus(
      cmds: seq<Command>, sources: ClientId -> (seq<Byte>, bool), id: ClientId, inbound: seq<Byte>,
      t: K.Trace, written: seq<Byte>, greeting: seq<Msg>, k: nat) returns (j: nat)
    requires Wired(cmds, sources, id, inbound) && sources(id).0 <= written
    requires K.GoodTrace(t, written) && greeting + t.seen <= DecodeAll(inbound)
    requires k < |t.ops| && t.ops[k].DoSend? && K.ReturnedOk(t, k) && K.Uncut(t)
    ensures OnTheBus(cmds, j, id, K.SentAt(t, k))
  {
    var s := K.SentAt(t, k);
    assert K.HonouredAt(t, k);
    SeenWasDecoded(AckMsg(s.seqNo, ACK_OK), greeting, t.seen, DecodeAll(inbound));
    j := AckMeansOnTheBus(cmds, sources, id, inbound, s.seqNo);
    var i := ReadIsRequest(t, written, id, sources(id), cmds[j]);
    SameNumberSameCall(t, i, k);
  }

  /** The same under a condition that an application can check: every writing call so far returned Ok, or that nobody
      acknowledged. */
  lemma {:induction false} SendOkAfterClearCalls(
      cmds: seq<Command>, sources: ClientId -> (seq<Byte>, bool), id: ClientId, inbound: seq<Byte>,
      t: K.Trace, written: seq<Byte>, greeting: seq<Msg>, k: nat) returns (j: nat)
    requires Wired(cmds, sources, id, inbound) && sources(id).0 <= written
    requires K.GoodTrace(t, written) && greeting + t.seen <= DecodeAll(inbound)
    requires k < |t.ops| && t.ops[k].DoSend? && K.ReturnedOk(t, k) && K.AllClear(t)
    ensures OnTheBus(cmds, j, id, K.SentAt(t, k))
  {
    K.AllClearIsUncut(t, written);
    j := SendOkMeansOnTheBus(cmds, sources, id, inbound, t, written, greeting, k);
  }

  lemma SeenWasDecoded(m: Msg, greeting: seq<Msg>, seen: seq<Msg>, all: seq<Msg>)
    requires m in seen && greeting + seen <= all
    ensures m in all
  {
    var i :| 0 <= i < |seen| && seen[i] == m;
    assert (greeting + seen)[|greeting| + i] == m;
  }

  /** A no-ack status means the client was alone on the bus when its frame was handled. */
  lemma {:induction false} NoAckMeansAlone(cmds: seq<Command>, id: ClientId, seqNo: U64) returns (k: nat)
    requires FreshIds(cmds) && AckMsg(seqNo, ACK_NO_ACK) in Queue(After(cmds), id)
    ensures AckedAt(cmds, k, id, seqNo, ACK_NO_ACK)
    ensures forall other :: Connected(cmds[..k], other) ==> other == id
  {
    k := AckHasCause(cmds, id, seqNo, ACK_NO_ACK);
    var b := After(cmds[..k]);
    forall other | Connected(cmds[..k], other)
      ensures other == id
    {
      StateFollowsCommands(cmds[..k], other);
      SubsetSize({id, other}, b.clients.Keys);
    }
  }

  // ---------- Filters, end to end ----------

  /** Command `k` holds the latest list of `id` when position `i` of its queue came about. */
  predicate AckIsFor(cmds: seq<Command>, id: ClientId, from: seq<nat>, i: nat, k: nat) {
    i < |from| && from[i] < |cmds| && LastSet(cmds[..from[i] + 1], id) == Some(k)
  }

  /** The filter command behind an epoch of a queue of which `msgs` has arrived. */
  lemma {:induction false} CommandInForce(
      cmds: seq<Command>, id: ClientId, from: seq<nat>, q: seq<Msg>, msgs: seq<Msg>, j: nat, i: nat) returns (k: nat)
    requires j < |msgs| && msgs <= q && |q| <= |from| && msgs[j].FrameMsg? && Epochs(cmds, id, from, q)
    requires LastOk(msgs[..j]) == Some(i)
    ensures i < j && msgs[i].FiltersAckMsg? && AckIsFor(cmds, id, from, i, k)
    ensures k < |cmds| && cmds[k].SetFilters? && cmds[k].id == id && cmds[k].seqNo == msgs[i].seqNo
    ensures FiltersMatch(cmds[k].filters, msgs[j].frame.id)
  {
    assert q[..j] == msgs[..j] && q[j] == msgs[j];
    assert FrameInEpoch(cmds, id, from, q, j);
    var fs :| InForce(cmds, id, from, q[..j], fs) && FiltersMatch(fs, q[j].frame.id);
    k := LastSet(cmds[..from[i] + 1], id).value;
    assert cmds[k] == cmds[..from[i] + 1][k];
  }

  /** Whatever was written: every frame a client decodes passes the list of the filter command that the last
      successful filter ack before it was queued for. */
  lemma {:induction false} FramesPassReadFilters(
      cmds: seq<Command>, sources: ClientId -> (seq<Byte>, bool), id: ClientId, inbound: seq<Byte>, j: nat, i: nat)
      returns (k: nat)
    requires Wired(cmds, sources, id, inbound) && j < |DecodeAll(inbound)| && DecodeAll(inbound)[j].FrameMsg?
    requires LastOk(DecodeAll(inbound)[..j]) == Some(i)
    ensures i < |DecodeAll(inbound)| && DecodeAll(inbound)[i].FiltersAckMsg?
    ensures k < |cmds| && cmds[k].SetFilters? && cmds[k].id == id && cmds[k].seqNo == DecodeAll(inbound)[i].seqNo
    ensures FiltersMatch(cmds[k].filters, DecodeAll(inbound)[j].frame.id) && FromReader(cmds[k], sources(id))
    ensures AckIsFor(cmds, id, Origins(cmds, id), i, k)
  {
    var q, from := EpochsArrived(cmds, sources, id, inbound);
    k := CommandInForce(cmds, id, from, q, DecodeAll(inbound), j, i);
    assert FromReader(cmds[k], sources(cmds[k].id));
  }

  /** A queue in epochs of which a part has arrived. */
  lemma {:induction false} EpochsArrived(
      cmds: seq<Command>, sources: ClientId -> (seq<Byte>, bool), id: ClientId, inbound: seq<Byte>)
      returns (q: seq<Msg>, from: seq<nat>)
    requires Wired(cmds, sources, id, inbound)
    ensures DecodeAll(inbound) <= q && |from| == |q| && from == Origins(cmds, id) && Epochs(cmds, id, from, q)
  {
    q, from := Queue(After(cmds), id), Origins(cmds, id);
    DecodedIsQueuePrefix(cmds, sources, id, inbound);
    FilterEpochs(cmds, id);
  }

  /** Filters that `set_filters` got acknowledged hold end to end, provided that no call so far failed part-way
      through a write: every frame decoded passes the list requested under the number of the last successful
      filter ack before it. */
  lemma {:induction false} FramesPassRequestedFilters(
      cmds: seq<Command>, sources: ClientId -> (seq<Byte>, bool), id: ClientId, inbound: seq<Byte>,
      t: K.Trace, written: seq<Byte>, j: nat, i: nat) returns (x: nat)
    requires Wired(cmds, sources, id, inbound) && sources(id).0 <= written && K.GoodTrace(t, written) && K.Uncut(t)
    requires j < |DecodeAll(inbound)| && DecodeAll(inbound)[j].FrameMsg? && LastOk(DecodeAll(inbound)[..j]) == Some(i)
    ensures i < |DecodeAll(inbound)| && DecodeAll(inbound)[i].FiltersAckMsg?
    ensures x < |t.ops| && C.Writes(t.ops[x])
      && PassesRequest(K.PieceAt(t, x).request, DecodeAll(inbound)[i].seqNo, DecodeAll(inbound)[j].frame)
  {
    var k := FramesPassReadFilters(cmds, sources, id, inbound, j, i);
    x := ReadIsRequest(t, written, id, sources(id), cmds[k]);
  }

  predicate PassesRequest(q: Request, n: U64, f: Frame) {
    q.Filtering? && q.seqNo == n && FiltersMatch(AllOnWire(q.filters), f.id)
  }

  // ---------- All components in one run ----------

  /** What the writer gets out of the queue of `id` before the socket fails after `room` bytes. */
  function WrittenOut(cmds: seq<Command>, id: ClientId, room: nat): seq<Byte> {
    QueueBytes(cmds, id)[..Min(room, |QueueBytes(cmds, id)|)]
  }

  /** The server's code for one client: the bus thread, and the writer over what it queued. */
  method ServerSide(id: ClientId, cmds: seq<Command>, room: nat, ghost sources: ClientId -> (seq<Byte>, bool))
      returns (bytes: seq<Byte>)
    requires FromReaders(cmds, sources)
    ensures bytes == WrittenOut(Handled(cmds), id, room)
  {
    var bus := new BusThread();
    bus.Loop(cmds);
    ReadersAreClean(cmds, sources);
    QueuesSendable(Handled(cmds), id);
    var removed;
    bytes, removed := WriterLoop(id, if id in bus.queues then bus.queues[id] else [], room);
  }

  /** A client that connected, whose commands on the bus are what its reader made of the bytes it wrote, and that has
      read no more than the writer wrote. */
  predicate FitTogether(
      connected: bool, cmds: seq<Command>, id: ClientId, own: seq<Command>, incoming: seq<C.ReadEvent>, room: nat)
  {
    connected && OwnCommandsIn(cmds, id, own) && C.StreamOf(incoming) <= WrittenOut(Handled(cmds), id, room)
  }

  /** A client session, the server's reader for it, the bus thread and the server's writer for it, each running its
      own code; `taken` is how many of the client's bytes the server has read. If they fit together, every send that
      returned Ok was on the bus, provided that no call failed part-way through a write. */
  method Together(
      id: ClientId, incoming: seq<C.ReadEvent>, writes: seq<C.WriteEvent>, ops: seq<C.Op>,
      cmds: seq<Command>, taken: nat, eof: bool, room: nat, ghost others: ClientId -> (seq<Byte>, bool))
      returns (connected: bool, results: seq<C.OpResult>, written: seq<Byte>, own: seq<Command>, fits: bool)
    requires |ops| < K.LAST_NUMBER && K.AllCallable(ops) && FreshIds(cmds) && OthersFromReaders(cmds, id, others)
    ensures var s := K.Play(incoming, writes, ops);
      && connected == s.connected && results == s.trace.results && written == s.conn.written
      && (fits && K.Uncut(s.trace) ==> OkSendsOnTheBus(Handled(cmds), id, s.trace))
    ensures own == ReadCommands(id, written[..Min(taken, |written|)], eof)
    ensures fits <==> FitTogether(connected, cmds, id, own, incoming, room)
  {
    connected, results, written := K.PlaySession(incoming, writes, ops);
    var outbound := written[..Min(taken, |written|)];
    own := ReaderLoop(id, outbound, eof);
    fits := connected && OwnCommandsIn(cmds, id, own);
    if fits {
      ghost var s := K.Play(incoming, writes, ops);
      K.PlayIsGood(incoming, writes, ops);
      fits := Fit(id, incoming, cmds, room, (outbound, eof), own, others, s.trace, written, s.greeting);
    }
  }

  /** The server's half of it. */
  method Fit(
      id: ClientId, incoming: seq<C.ReadEvent>, cmds: seq<Command>, room: nat, ghost source: (seq<Byte>, bool),
      own: seq<Command>, ghost others: ClientId -> (seq<Byte>, bool), ghost t: K.Trace, ghost written: seq<Byte>,
      ghost greeting: seq<Msg>) returns (fits: bool)
    requires FreshIds(cmds) && OthersFromReaders(cmds, id, others) && OwnCommandsIn(cmds, id, own)
    requires own == ReadCommands(id, source.0, source.1) && source.0 <= written
    requires K.GoodTrace(t, written) && greeting + t.seen <= DecodeAll(C.StreamOf(incoming))
    ensures fits <==> C.StreamOf(incoming) <= WrittenOut(Handled(cmds), id, room)
    ensures fits && K.Uncut(t) ==> OkSendsOnTheBus(Handled(cmds), id, t)
  {
    ghost var sources := (x: ClientId) => if x == id then source else others(x);
    SourcesFit(cmds, id, own, others, sources);
    var bytes := ServerSide(id, cmds, room, sources);
    fits := C.StreamOf(incoming) <= bytes;
    if fits && K.Uncut(t) {
      assert Wired(Handled(cmds), sources, id, C.StreamOf(incoming));
      AllOkSends(Handled(cmds), sources, id, C.StreamOf(incoming), t, written, greeting);
    }
  }

  /** Every send of the session that returned Ok was on the bus. */
  ghost predicate OkSendsOnTheBus(cmds: seq<Command>, id: ClientId, t: K.Trace) {
    K.Shaped(t) && forall k :: 0 <= k < |t.ops| && t.ops[k].DoSend? && K.ReturnedOk(t, k) ==>
      exists j :: OnTheBus(cmds, j, id, K.SentAt(t, k))
  }

  predicate OwnCommandsIn(cmds: seq<Command>, id: ClientId, own: seq<Command>) {
    forall k :: 0 <= k < |cmds| && (cmds[k].Send? || cmds[k].SetFilters?) && cmds[k].id == id ==> cmds[k] in own
  }

  /** The commands of all other clients were made by their readers. */
  ghost predicate OthersFromReaders(cmds: seq<Command>, id: ClientId, others: ClientId -> (seq<Byte>, bool)) {
    forall k :: 0 <= k < |cmds| && (cmds[k].Send? || cmds[k].SetFilters?) && cmds[k].id != id ==>
      FromReader(cmds[k], others(cmds[k].id))
  }

  lemma SourcesFit(
      cmds: seq<Command>, id: ClientId, own: seq<Command>, others: ClientId -> (seq<Byte>, bool),
      sources: ClientId -> (seq<Byte>, bool))
    requires OwnCommandsIn(cmds, id, own) && own == ReadCommands(id, sources(id).0, sources(id).1)
    requires (forall x :: x != id ==> sources(x) == others(x)) && OthersFromReaders(cmds, id, others)
    ensures FromReaders(cmds, sources) && FromReaders(Handled(cmds), sources)
  {
  }

  /** All the sends of a session at once. */
  lemma {:induction false} AllOkSends(
      cmds: seq<Command>, sources: ClientId -> (seq<Byte>, bool), id: ClientId, inbound: seq<Byte>,
      t: K.Trace, written: seq<Byte>, greeting: seq<Msg>)
    requires Wired(cmds, sources, id, inbound) && sources(id).0 <= written
    requires K.GoodTrace(t, written) && greeting + t.seen <= DecodeAll(inbound) && K.Uncut(t)
    ensures OkSendsOnTheBus(cmds, id, t)
  {
    forall k | 0 <= k < |t.ops| && t.ops[k].DoSend? && K.ReturnedOk(t, k)
      ensures exists j :: OnTheBus(cmds, j, id, K.SentAt(t, k))
    {
      var j := SendOkMeansOnTheBus(cmds, sources, id, inbound, t, written, greeting, k);
    }
  }
}
