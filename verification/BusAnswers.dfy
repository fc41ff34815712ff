/** What every client is told: each request on the bus is answered, and a client that has left is no longer there. */
module BusAnswers {
  import opened Basics
  import opened CanTypes
  import opened Wire
  import opened Stream
  import opened Server
  import opened ServerReader
  import opened BusMeaning

  // ---------- Answers ----------

  ghost predicate Company(cmds: seq<Command>, id: ClientId) { exists other :: other != id && Connected(cmds, other) }

  /** The bus counts more than one client exactly if somebody else is connected. */
  lemma {:induction false} CompanyIff(cmds: seq<Command>, id: ClientId)
    requires FreshIds(cmds) && Connected(cmds, id)
    ensures |After(cmds).clients| > 1 <==> Company(cmds, id)
  {
    var b := After(cmds);
    StateFollowsCommands(cmds, id);
    if |b.clients| > 1 {
      var other := AnotherClient(b, id);
      StateFollowsCommands(cmds, other);
    }
    if Company(cmds, id) {
      var other :| other != id && Connected(cmds, other);
      StateFollowsCommands(cmds, other);
      SubsetSize({id, other}, b.clients.Keys);
      assert |b.clients| == |b.clients.Keys|;
    }
  }

  /** What command `k` adds to the queue of a connected client who made it. */
  ghost function Answer(cmds: seq<Command>, k: nat): seq<Msg>
    requires k < |cmds|
  {
    match cmds[k]
    case Send(id, s) =>
      (if FiltersMatch(FiltersOf(cmds[..k], id), s.frame.id) then [FrameMsg(s.frame)] else []) +
      (if s.expectAck then [AckMsg(s.seqNo, if Company(cmds[..k], id) then ACK_OK else ACK_NO_ACK)] else [])
    case SetFilters(_, n, _) => [FiltersAckMsg(n, if n == 0 then ACK_SERVER_ERR else ACK_OK)]
    case _ => []
  }

  /** Every request of a connected client is answered at once: a send that wants an ack is told OK exactly if somebody
      else is connected, and a filter list is acknowledged, or reported as malformed under the number 0. */
  lemma {:induction false} EveryRequestAnswered(cmds: seq<Command>, k: nat, id: ClientId)
    requires FreshIds(cmds) && k < |cmds| && (cmds[k].Send? || cmds[k].SetFilters?) && cmds[k].id == id
    requires Connected(cmds[..k], id)
    ensures Queue(After(cmds[..k + 1]), id) == Queue(After(cmds[..k]), id) + Answer(cmds, k)
  {
    var was := cmds[..k];
    assert Init(cmds[..k + 1]) == was && Last(cmds[..k + 1]) == cmds[k];
    StateFollowsCommands(was, id);
    QueueGrows(After(was), cmds[k], id);
    CompanyIff(was, id);
  }

  // ---------- Leaving ----------

  lemma {:induction false} StaysOut(cmds: seq<Command>, id: ClientId, k: nat, m: nat)
    requires k < m <= |cmds| && cmds[k] == RemoveClient(id) && AddClient(id) !in cmds[k + 1..]
    ensures !Connected(cmds[..m], id)
  {
    var last := cmds[..m][m - 1];
    assert Init(cmds[..m]) == cmds[..m - 1] && last == cmds[m - 1];
    if k < m - 1 {
      StaysOut(cmds, id, k, m - 1);
      assert cmds[m - 1] == cmds[k + 1..][m - 2 - k];
    }
  }

  /** A removal adds nothing to a queue, and neither does any command for a client that is not there. */
  lemma {:induction false} NothingAdded(before: seq<Command>, cmd: Command, id: ClientId)
    requires FreshIds(before) && (cmd == RemoveClient(id) || (!Connected(before, id) && cmd != AddClient(id)))
    ensures Queue(After(before + [cmd]), id) == Queue(After(before), id)
  {
    assert Init(before + [cmd]) == before;
    StateFollowsCommands(before, id);
    QueueGrows(After(before), cmd, id);
    assert Added(After(before), cmd, id) == [];
  }

  lemma {:induction false} QuietAfterLeaving(cmds: seq<Command>, id: ClientId, k: nat, m: nat)
    requires FreshIds(cmds) && k < m <= |cmds| && cmds[k] == RemoveClient(id) && AddClient(id) !in cmds[k + 1..]
    ensures Queue(After(cmds[..m]), id) == Queue(After(cmds[..k]), id)
  {
    var before, cmd := cmds[..m - 1], cmds[m - 1];
    assert cmds[..m] == before + [cmd];
    if k < m - 1 {
      QuietAfterLeaving(cmds, id, k, m - 1);
      StaysOut(cmds, id, k, m - 1);
      assert cmd == cmds[k + 1..][m - 2 - k];
    }
    NothingAdded(before, cmd, id);
  }

  lemma NoSecondJoin(cmds: seq<Command>, id: ClientId, j: nat, k: nat)
    requires FreshIds(cmds) && j < k < |cmds| && cmds[j] == AddClient(id)
    ensures AddClient(id) !in cmds[k + 1..]
  {
    var later := cmds[k + 1..];
    forall i | 0 <= i < |later|
      ensures later[i] != AddClient(id)
    {
      assert later[i] == cmds[k + 1 + i];
    }
  }

  /** A client that joined and was removed is gone for good: not connected, and queued nothing more. */
  lemma {:induction false} GoneForGood(cmds: seq<Command>, id: ClientId, j: nat, k: nat)
    requires FreshIds(cmds) && j < k < |cmds| && cmds[j] == AddClient(id) && cmds[k] == RemoveClient(id)
    ensures !Connected(cmds, id) && id !in After(cmds).clients
    ensures Queue(After(cmds), id) == Queue(After(cmds[..k]), id)
  {
    assert cmds[..|cmds|] == cmds;
    NoSecondJoin(cmds, id, j, k);
    StaysOut(cmds, id, k, |cmds|);
    QuietAfterLeaving(cmds, id, k, |cmds|);
    StateFollowsCommands(cmds, id);
  }

  /** All that the reader of `id` made of its stream has been handled after the join. */
  predicate AllHandled(cmds: seq<Command>, j: nat, own: seq<Command>) {
    j < |cmds| && forall c :: c in own ==> c in cmds[j + 1..]
  }

  /** A client whose stream has ended, or held a broken message, is gone once its reader's commands are handled. */
  lemma {:induction false} ClosedIsGone(cmds: seq<Command>, id: ClientId, j: nat, b: seq<Byte>, eof: bool)
    requires FreshIds(cmds) && AllHandled(cmds, j, ReadCommands(id, b, eof)) && cmds[j] == AddClient(id)
    requires eof || HasBroken(b)
    ensures !Connected(cmds, id) && id !in After(cmds).clients
  {
    RemovesIff(id, b, eof);
    var i :| 0 <= i < |cmds[j + 1..]| && cmds[j + 1..][i] == RemoveClient(id);
    GoneForGood(cmds, id, j, j + 1 + i);
  }

  /** When everybody else has closed, a send of the remaining client is told that nobody acknowledged. */
  lemma {:induction false} LastOneIsAlone(cmds: seq<Command>, k: nat, id: ClientId, s: SendFrame)
    requires FreshIds(cmds) && k < |cmds| && cmds[k] == Send(id, s) && s.expectAck && Connected(cmds[..k], id)
    requires forall other :: other != id ==> Left(cmds[..k], other)
    ensures AckMsg(s.seqNo, ACK_NO_ACK) in Queue(After(cmds[..k + 1]), id)
  {
    forall other | other != id
      ensures !Connected(cmds[..k], other)
    {
      assert Left(cmds[..k], other);
      if Connected(cmds[..k], other) {
        ConnectedWasAdded(cmds[..k], other);
        var j, b, eof :| WasClosed(cmds[..k], other, j, b, eof);
        ClosedIsGone(cmds[..k], other, j, b, eof);
      }
    }
    EveryRequestAnswered(cmds, k, id);
    var a := Answer(cmds, k);
    assert a[|a| - 1] == AckMsg(s.seqNo, ACK_NO_ACK);
  }

  ghost predicate WasClosed(cmds: seq<Command>, id: ClientId, j: nat, b: seq<Byte>, eof: bool) {
    AllHandled(cmds, j, ReadCommands(id, b, eof)) && cmds[j] == AddClient(id) && (eof || HasBroken(b))
  }

  /** A client that never joined, or whose connection has closed. */
  ghost predicate Left(cmds: seq<Command>, id: ClientId) {
    AddClient(id) in cmds ==> exists j, b, eof :: WasClosed(cmds, id, j, b, eof)
  }
}
