/** The server's reader: bytes from one client become commands of the bus thread. */
module ServerReader {
  import opened Basics
  import opened LittleEndian
  import opened CanTypes
  import opened Wire
  import opened Stream
  import opened Requests
  import opened Server

  /** What one whole message becomes; a bad send-frame ends the connection, a bad filter list is passed on
      under the number 0. */
  datatype Reading = Commands(cmds: seq<Command>) | Hangup

  function ReadOne(id: ClientId, msgType: Byte, payload: seq<Byte>): Reading {
    if msgType == MSG_SEND_FRAME then
      match DecodeSendFrame(payload)
      case Bad(_) => Hangup
      case Good(s) => Commands([Send(id, s)])
    else if msgType == MSG_SET_FILTERS then
      match DecodeFilters(payload)
      case Bad(_) => Commands([SetFilters(id, 0, [])])
      case Good((n, fs)) => Commands([SetFilters(id, n, fs)])
    else Commands([])
  }

  /** The commands of a byte string; `eof` says that nothing follows it. */
  function ReadCommands(id: ClientId, b: seq<Byte>, eof: bool): seq<Command>
    decreases |b|
  {
    match ReadHead(b)
    case Incomplete => if eof then [RemoveClient(id)] else []
    case TooLong => [RemoveClient(id)]
    case Whole(msgType, payload) =>
      match ReadOne(id, msgType, payload)
      case Hangup => [RemoveClient(id)]
      case Commands(cs) => cs + ReadCommands(id, b[5 + |payload|..], eof)
  }

  /** `client_reader_loop`. */
  method ReaderLoop(id: ClientId, b: seq<Byte>, eof: bool) returns (cmds: seq<Command>)
    ensures cmds == ReadCommands(id, b, eof)
  {
    cmds := [];
    var rest := b;
    assert [] + ReadCommands(id, b, eof) == ReadCommands(id, b, eof);
    while true
      invariant cmds + ReadCommands(id, rest, eof) == ReadCommands(id, b, eof)
      decreases |rest|
    {
      var h := ReadHead(rest);
      if !h.Whole? {
        return if h.TooLong? || eof then cmds + [RemoveClient(id)] else cmds;
      }
      var now := ReadOne(id, h.msgType, h.payload);
      if now.Hangup? {
        return cmds + [RemoveClient(id)];
      }
      Associative(cmds, now.cmds, ReadCommands(id, rest[5 + |h.payload|..], eof));
      cmds, rest := cmds + now.cmds, rest[5 + |h.payload|..];
    }
  }

  // ---------- How a connection ends ----------

  /** What is left of a byte string after its first `n` messages, if there are that many. */
  function Skip(b: seq<Byte>, n: nat): Option<seq<Byte>> {
    if n == 0 then Some(b)
    else
      match ReadHead(b)
      case Whole(_, payload) => Skip(b[5 + |payload|..], n - 1)
      case _ => None
  }

  /** The next message announces too many bytes, or is a send-frame that does not decode. */
  predicate Broken(b: seq<Byte>) {
    var h := ReadHead(b);
    h.TooLong? || (h.Whole? && h.msgType == MSG_SEND_FRAME && DecodeSendFrame(h.payload).Bad?)
  }

  ghost predicate HasBroken(b: seq<Byte>) { exists n: nat :: BrokenAt(b, n) }

  predicate BrokenAt(b: seq<Byte>, n: nat) { Skip(b, n).Some? && Broken(Skip(b, n).value) }

  lemma HasBrokenStep(b: seq<Byte>)
    ensures HasBroken(b) <==>
      Broken(b) || (ReadHead(b).Whole? && HasBroken(b[5 + |ReadHead(b).payload|..]))
  {
    var h := ReadHead(b);
    if Broken(b) {
      assert BrokenAt(b, 0);
    }
    if h.Whole? && HasBroken(b[5 + |h.payload|..]) {
      var n: nat :| BrokenAt(b[5 + |h.payload|..], n);
      assert BrokenAt(b, n + 1);
    }
    if HasBroken(b) && !Broken(b) {
      var n: nat :| BrokenAt(b, n);
      assert BrokenAt(b[5 + |h.payload|..], n - 1);
    }
  }

  /** A removal stands at the end of the commands and nowhere else. */
  predicate OnlyAtEnd(cmds: seq<Command>, c: Command) {
    cmds != [] && cmds[|cmds| - 1] == c && c !in cmds[..|cmds| - 1]
  }

  lemma EndOfBoth(a: seq<Command>, b: seq<Command>, c: Command)
    requires c !in a
    ensures c in a + b <==> c in b
    ensures OnlyAtEnd(b, c) ==> OnlyAtEnd(a + b, c)
  {
    if OnlyAtEnd(b, c) {
      assert (a + b)[..|a + b| - 1] == a + b[..|b| - 1];
    }
  }

  /** The reader removes its client exactly if the stream has ended or holds a broken message; it does so once, as the
      last thing, and all its commands are about its own client. */
  lemma {:induction false} RemovesIff(id: ClientId, b: seq<Byte>, eof: bool)
    ensures var cmds := ReadCommands(id, b, eof);
      && (RemoveClient(id) in cmds <==> eof || HasBroken(b))
      && (RemoveClient(id) in cmds ==> OnlyAtEnd(cmds, RemoveClient(id)))
      && forall c :: c in cmds ==> (c.Send? || c.SetFilters? || c.RemoveClient?) && c.id == id
    decreases |b|
  {
    HasBrokenStep(b);
    var h := ReadHead(b);
    if h.Whole? && ReadOne(id, h.msgType, h.payload).Commands? {
      var rest := b[5 + |h.payload|..];
      RemovesIff(id, rest, eof);
      EndOfBoth(ReadOne(id, h.msgType, h.payload).cmds, ReadCommands(id, rest, eof), RemoveClient(id));
    }
  }

  /** Messages that are no requests: a filter list that does not decode is passed on under the number 0, a send-frame
      that does not decode ends the connection, and other types are ignored. */
  lemma {:induction false} OddMessages(id: ClientId, msgType: Byte, payload: seq<Byte>, more: seq<Byte>, eof: bool)
    requires |payload| <= MAX_PAYLOAD_LEN
    ensures var cmds := ReadCommands(id, Framed(msgType, payload) + more, eof);
      && (msgType == MSG_SET_FILTERS && DecodeFilters(payload).Bad? ==>
            cmds == [SetFilters(id, 0, [])] + ReadCommands(id, more, eof))
      && (msgType == MSG_SEND_FRAME && DecodeSendFrame(payload).Bad? ==> cmds == [RemoveClient(id)])
      && (msgType != MSG_SET_FILTERS && msgType != MSG_SEND_FRAME ==> cmds == ReadCommands(id, more, eof))
  {
    ReadFramed(id, msgType, payload, more, eof);
    assert [] + ReadCommands(id, more, eof) == ReadCommands(id, more, eof);
  }

  /** Whatever bytes arrive, the frames handed to the bus are clean. */
  lemma {:induction false} ReadSendsAreClean(id: ClientId, b: seq<Byte>, eof: bool, c: Command)
    requires c in ReadCommands(id, b, eof) && c.Send?
    ensures Clean(c.send.frame)
    decreases |b|
  {
    var h := ReadHead(b);
    if h.Whole? && ReadOne(id, h.msgType, h.payload).Commands? && c !in ReadOne(id, h.msgType, h.payload).cmds {
      ReadSendsAreClean(id, b[5 + |h.payload|..], eof, c);
    }
  }

  /** The largest filter list that fits a message. */
  const MAX_FILTERS: nat := 454

  predicate Fits(q: Request) { q.Filtering? ==> |q.filters| <= MAX_FILTERS }

  function CommandOf(id: ClientId, q: Request): Command {
    match q
    case Transmit(s) => Send(id, s)
    case Filtering(n, fs) => SetFilters(id, n, AllOnWire(fs))
  }

  lemma {:induction false} OneReadsBack(id: ClientId, q: Request)
    requires ValidRequest(q) && Fits(q)
    ensures ReadOne(id, RequestType(q), RequestPayload(q)) == Commands([CommandOf(id, q)])
  {
    match q
    case Transmit(s) => SendFrameRoundTrip(s);
    case Filtering(n, fs) => FiltersInverse(n, fs);
  }

  /** One whole message at the front of the stream. */
  lemma {:induction false} ReadFramed(id: ClientId, msgType: Byte, payload: seq<Byte>, more: seq<Byte>, eof: bool)
    requires |payload| <= MAX_PAYLOAD_LEN
    ensures ReadCommands(id, Framed(msgType, payload) + more, eof) ==
      match ReadOne(id, msgType, payload)
      case Hangup => [RemoveClient(id)]
      case Commands(cs) => cs + ReadCommands(id, more, eof)
  {
    HeadOfFramed(msgType, payload, more);
  }

  /** A request is read back as its command exactly if it fits; a longer filter list costs the client its
      connection. */
  lemma {:induction false} RequestReadsBack(id: ClientId, q: Request, more: seq<Byte>, eof: bool)
    requires ValidRequest(q)
    ensures ReadCommands(id, RequestBytes(q) + more, eof) ==
      if Fits(q) then [CommandOf(id, q)] + ReadCommands(id, more, eof) else [RemoveClient(id)]
  {
    if Fits(q) {
      ReadFramed(id, RequestType(q), RequestPayload(q), more, eof);
      OneReadsBack(id, q);
    } else {
      OversizeHead(RequestType(q), RequestPayload(q), more);
    }
  }

  lemma {:induction false} OversizeHead(msgType: Byte, payload: seq<Byte>, more: seq<Byte>)
    requires MAX_PAYLOAD_LEN < |payload| < 0x1_0000_0000
    ensures ReadHead(Framed(msgType, payload) + more) == TooLong
  {
    assert FromLE(ToLE(|payload|, 4)) == |payload| by {
      Spans();
      RoundTrip(|payload|, 4);
    }
    assert (Framed(msgType, payload) + more)[1..5] == ToLE(|payload|, 4);
  }

  function CommandsOf(id: ClientId, qs: seq<Request>): seq<Command> {
    if qs == [] then [] else [CommandOf(id, qs[0])] + CommandsOf(id, qs[1..])
  }

  /** The other direction of the stream: requests that fit are read by the server as sent, in order. */
  lemma {:induction false} RequestsRoundTrip(id: ClientId, qs: seq<Request>, more: seq<Byte>, eof: bool)
    requires forall i :: 0 <= i < |qs| ==> ValidRequest(qs[i]) && Fits(qs[i])
    ensures ReadCommands(id, AllBytes(qs) + more, eof) == CommandsOf(id, qs) + ReadCommands(id, more, eof)
    decreases |qs|
  {
    if qs == [] {
      assert [] + more == more && [] + ReadCommands(id, more, eof) == ReadCommands(id, more, eof);
    } else {
      var rest := qs[1..];
      Associative(RequestBytes(qs[0]), AllBytes(rest), more);
      RequestReadsBack(id, qs[0], AllBytes(rest) + more, eof);
      RequestsRoundTrip(id, rest, more, eof);
      Associative([CommandOf(id, qs[0])], CommandsOf(id, rest), ReadCommands(id, more, eof));
    }
  }

  /** However much of the requests the server has read, every command it made of them is a hang-up or the
      command of one of them. */
  lemma {:induction false} ReadCommandWasRequested(id: ClientId, qs: seq<Request>, b: seq<Byte>, eof: bool, c: Command)
    requires forall i :: 0 <= i < |qs| ==> ValidRequest(qs[i])
    requires b <= AllBytes(qs) && c in ReadCommands(id, b, eof)
    ensures c == RemoveClient(id) || exists i :: 0 <= i < |qs| && c == CommandOf(id, qs[i])
    decreases |qs|
  {
    if qs != [] {
      var first := RequestBytes(qs[0]);
      if |b| < |first| {
        ShortRead(id, qs[0], b, eof);
      } else {
        SplitPrefix(b, first, AllBytes(qs[1..]));
        FirstOrLater(id, qs[0], b[|first|..], eof, c);
        if c != RemoveClient(id) && c != CommandOf(id, qs[0]) {
          ReadCommandWasRequested(id, qs[1..], b[|first|..], eof, c);
          var i :| 0 <= i < |qs[1..]| && c == CommandOf(id, qs[1..][i]);
          assert c == CommandOf(id, qs[i + 1]);
        }
      }
    }
  }

  lemma {:induction false} FirstOrLater(id: ClientId, q: Request, rest: seq<Byte>, eof: bool, c: Command)
    requires ValidRequest(q) && c in ReadCommands(id, RequestBytes(q) + rest, eof)
    ensures c == RemoveClient(id) || c == CommandOf(id, q) || c in ReadCommands(id, rest, eof)
  {
    RequestReadsBack(id, q, rest, eof);
  }

  lemma SplitPrefix(b: seq<Byte>, first: seq<Byte>, rest: seq<Byte>)
    requires b <= first + rest && |b| >= |first|
    ensures b == first + b[|first|..] && b[|first|..] <= rest
  {
    assert b[..|first|] == (first + rest)[..|first|];
    assert (first + rest)[|first|..] == rest;
  }

  lemma {:induction false} ShortRead(id: ClientId, q: Request, b: seq<Byte>, eof: bool)
    requires ValidRequest(q) && b <= RequestBytes(q) && |b| < |RequestBytes(q)|
    ensures forall c :: c in ReadCommands(id, b, eof) ==> c == RemoveClient(id)
  {
    if ReadHead(b).Whole? {
      HeadStable(b, RequestBytes(q)[|b|..]);
      assert b + RequestBytes(q)[|b|..] == RequestBytes(q) + [];
      if Fits(q) {
        HeadOfFramed(RequestType(q), RequestPayload(q), []);
      } else {
        OversizeHead(RequestType(q), RequestPayload(q), []);
      }
    }
  }
}
