/** What a client asks of the bus server, and the bytes it asks with. */
module Requests {
  import opened Basics
  import opened CanTypes
  import opened Wire
  import opened Stream

  datatype Request = Transmit(send: SendFrame) | Filtering(seqNo: U64, filters: seq<Filter>)

  predicate ValidRequest(q: Request) {
    match q
    case Transmit(s) => Clean(s.frame)
    case Filtering(_, fs) => 10 + 9 * |fs| < 0x1_0000_0000
  }

  function RequestType(q: Request): Byte { if q.Transmit? then MSG_SEND_FRAME else MSG_SET_FILTERS }

  function RequestPayload(q: Request): (p: seq<Byte>)
    requires ValidRequest(q)
    ensures |p| < 0x1_0000_0000
  {
    match q
    case Transmit(s) => EncodeSendFrame(s)
    case Filtering(n, fs) => EncodeFilters(n, fs)
  }

  function RequestBytes(q: Request): seq<Byte>
    requires ValidRequest(q)
  {
    Framed(RequestType(q), RequestPayload(q))
  }

  function AllBytes(qs: seq<Request>): seq<Byte>
    requires forall i :: 0 <= i < |qs| ==> ValidRequest(qs[i])
  {
    if qs == [] then [] else RequestBytes(qs[0]) + AllBytes(qs[1..])
  }

  lemma {:induction false} AllBytesSnoc(qs: seq<Request>, q: Request)
    requires (forall i :: 0 <= i < |qs| ==> ValidRequest(qs[i])) && ValidRequest(q)
    ensures AllBytes(qs + [q]) == AllBytes(qs) + RequestBytes(q)
  {
    if qs == [] {
      assert AllBytes([q]) == RequestBytes(q) + [];
    } else {
      AllBytesSnoc(qs[1..], q);
      assert (qs + [q])[1..] == qs[1..] + [q];
      Associative(RequestBytes(qs[0]), AllBytes(qs[1..]), RequestBytes(q));
    }
  }

  // ---------- Requests that may have been cut off ----------

  /** A request of which the first `written` bytes were written before the call gave up or was done. */
  datatype Piece = Piece(request: Request, written: nat)

  predicate ValidPiece(p: Piece) { ValidRequest(p.request) && p.written <= |RequestBytes(p.request)| }

  predicate Complete(p: Piece)
    requires ValidRequest(p.request)
  {
    p.written == |RequestBytes(p.request)|
  }

  /** The call failed part-way through its write. */
  predicate Cut(p: Piece)
    requires ValidPiece(p)
  {
    0 < p.written < |RequestBytes(p.request)|
  }

  function PieceBytes(p: Piece): (b: seq<Byte>)
    requires ValidPiece(p)
    ensures Complete(p) ==> b == RequestBytes(p.request)
    ensures !Complete(p) && !Cut(p) ==> b == []
  {
    RequestBytes(p.request)[..p.written]
  }
}
