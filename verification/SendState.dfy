/** Transfer-id allocation (`SendState`) and the two public send operations. */
module SendState {
  import opened Basics
  import opened TransferTypes
  import S = Sender

  function IdOf(m: S.Msg): U32 {
    match m
    case OfferMsg(o) => o.transferId
    case ChunkMsg(c) => c.transferId
  }

  lemma {:induction false} GoodLogId(p: S.Params, chunkSize: nat, log: seq<S.Msg>, i: nat)
    requires S.GoodLog(p, chunkSize, log) && i < |log|
    ensures IdOf(log[i]) == p.transferId
  {
    assert S.GoodMsg(p, chunkSize, log[i]);
  }

  /** Every message of a transfer carries its id. */
  lemma SentUnderId(p: S.Params, answers: seq<S.Answer>)
    ensures forall i :: 0 <= i < |S.Run(p, answers).sent| ==> IdOf(S.Run(p, answers).sent[i]) == p.transferId
  {
    var s := S.Run(p, answers);
    S.SenderSafety(p, answers);
    forall i | 0 <= i < |s.sent|
      ensures IdOf(s.sent[i]) == p.transferId
    {
      GoodLogId(p, s.chunkSize, s.sent, i);
    }
  }

  class SendState {
    var nextTransferId: U32
    /** Every id this state has handed out or observed. */
    ghost var used: set<U32>

    /** The next id lies above every id used so far; lost only when the counter wraps around. */
    ghost predicate Ahead()
      reads this
    {
      forall id :: id in used ==> id < nextTransferId
    }

    constructor ()
      ensures nextTransferId == 1 && used == {} && Ahead()
    {
      nextTransferId, used := 1, {};
    }

    method AllocTransferId() returns (id: U32)
      modifies this
      ensures id == old(nextTransferId) && nextTransferId == (id + 1) % U32_LIMIT
      ensures used == old(used) + {id}
      ensures old(Ahead()) ==> id !in old(used) && (Ahead() <==> id + 1 < U32_LIMIT)
    {
      id := nextTransferId;
      nextTransferId := (nextTransferId + 1) % U32_LIMIT;
      used := used + {id};
    }

    method ObserveTransferId(id: U32)
      modifies this
      ensures nextTransferId == if id < old(nextTransferId) then old(nextTransferId) else (id + 1) % U32_LIMIT
      ensures used == old(used) + {id}
      ensures old(Ahead()) && id + 1 < U32_LIMIT ==> Ahead()
    {
      if id >= nextTransferId {
        nextTransferId := (id + 1) % U32_LIMIT;
      }
      used := used + {id};
    }

    /** `send_file_with_id`: an invalid configuration is refused before the id is observed. */
    method SendFileWithId(
        id: U32, bytes: seq<Byte>, config: S.SendConfig, digest: seq<Byte> -> seq<Byte>, answers: seq<S.Answer>)
      returns (out: Option<S.Outcome>, sent: seq<S.Msg>)
      modifies this
      ensures var fin := S.Run(S.Params(id, bytes, config, digest), answers);
        out == S.OutcomeOf(fin) && sent == fin.sent
      ensures config.senderMaxChunk == 0 || config.windowChunks == 0 ==>
        nextTransferId == old(nextTransferId) && used == old(used) && out == Some(S.Failed(Other)) && sent == []
      ensures config.senderMaxChunk > 0 && config.windowChunks > 0 ==>
        && used == old(used) + {id}
        && nextTransferId == if id < old(nextTransferId) then old(nextTransferId) else (id + 1) % U32_LIMIT
    {
      var p := S.Params(id, bytes, config, digest);
      if config.senderMaxChunk > 0 && config.windowChunks > 0 {
        ObserveTransferId(id);
      } else {
        S.DoneIsFinal(p, S.Init(p), answers, 0);
      }
      out, sent := S.SendFileImpl(p, answers);
    }

    /** `send_file`: a fresh id, unless the 32-bit counter has wrapped around. */
    method SendFile(bytes: seq<Byte>, config: S.SendConfig, digest: seq<Byte> -> seq<Byte>, answers: seq<S.Answer>)
      returns (out: Option<S.Outcome>, sent: seq<S.Msg>)
      modifies this
      ensures old(Ahead()) ==> forall i :: 0 <= i < |sent| ==> IdOf(sent[i]) !in old(used)
      ensures old(Ahead()) && old(nextTransferId) + 1 < U32_LIMIT ==>
        Ahead() && nextTransferId == old(nextTransferId) + 1
      ensures used == old(used) + {old(nextTransferId)}
      ensures var fin := S.Run(S.Params(old(nextTransferId), bytes, config, digest), answers);
        out == S.OutcomeOf(fin) && sent == fin.sent
    {
      var id := AllocTransferId();
      out, sent := SendFileWithId(id, bytes, config, digest, answers);
      SentUnderId(S.Params(id, bytes, config, digest), answers);
    }
  }
}
