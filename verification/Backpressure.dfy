/** The chunks of a transfer on their way through the receiver's mailbox. Sent chunks are first on the link and
    then, once ingested, in the mailbox of their type, from which the receiver takes them. In runs without loss
    and faults a mailbox as deep as the window never refuses a chunk. */
module Backpressure {
  import opened Basics
  import opened TransferTypes
  import opened TransferPair
  import opened FifoPair
  import opened NoFalseAlarm
  import opened LosslessRuns
  import BoundedRuns
  import opened Mailbox
  import S = Sender
  import R = Receiver

  /** The receiver's mailbox for chunks: its size, the sender's address, and how a chunk is laid out in a body. */
  datatype Box = Box(depth: nat, maxBody: nat, peer: Byte, body: Chunk -> seq<Byte>)

  /** The first `held` chunks of the channel are in the mailbox, the others on the link. */
  datatype State = State(l: Link, held: nat)

  /** `Arrive`: the first chunk on the link is ingested. */
  datatype Event = Arrive | Step(e: FifoPair.Event)

  /** What the mailbox holds. */
  function Contents(x: Box, st: State): (q: seq<Entry>)
    requires st.held <= |st.l.chunks|
    ensures |q| == st.held
  {
    seq(st.held, i requires 0 <= i < st.held => Entry(x.peer, x.body(st.l.chunks[i])))
  }

  predicate Valid(w: Setup, st: State) {
    S.Valid(w.SP(), st.l.s) && R.Valid(st.l.r) && st.held <= |st.l.chunks|
  }

  /** The receiver takes chunks only from its mailbox. */
  predicate CanHappen(w: Setup, st: State, e: Event)
    requires Valid(w, st)
  {
    match e
    case Arrive => st.held < |st.l.chunks|
    case Step(f) => Enabled(w, st.l, f) && Normal(f) && (f.ReceiverGetsChunk? ==> st.held > 0)
  }

  /** The answer of the mailbox to the chunk that arrives. */
  function Answer(x: Box, st: State): Option<IngestError>
    requires st.held < |st.l.chunks|
  {
    Refusal(Contents(x, st), x.depth, x.maxBody, Entry(x.peer, x.body(st.l.chunks[st.held])))
  }

  /** A refused chunk is gone. */
  function Happen(w: Setup, x: Box, st: State, e: Event): State
    requires Valid(w, st) && CanHappen(w, st, e)
  {
    match e
    case Arrive =>
      if Answer(x, st).None? then st.(held := st.held + 1)
      else st.(l := st.l.(chunks := Drop(st.l.chunks, st.held)))
    case Step(f) =>
      State(Next(w, st.l, f), if f.ReceiverGetsChunk? then st.held - 1 else st.held)
  }

  ghost predicate IsBoxedRun(w: Setup, x: Box, run: seq<State>, events: seq<Event>) {
    && |run| == |events| + 1
    && run[0] == State(Init(w), 0)
    && forall i :: 0 <= i < |events| ==>
         Valid(w, run[i]) && CanHappen(w, run[i], events[i]) && run[i + 1] == Happen(w, x, run[i], events[i])
  }

  /** A window of chunks fits the mailbox, and every chunk of the file its slots. */
  ghost predicate Roomy(w: Setup, x: Box)
    requires S.Runnable(w.SP()) && w.Size() > 0
  {
    && w.config.windowChunks <= x.depth
    && forall c :: S.GoodChunk(w.SP(), w.Size(), c) ==> |x.body(c)| <= x.maxBody
  }

  lemma ArrivalAccepted(w: Setup, x: Box, st: State)
    requires Fit(w, st.l) && Flow(w, st.l) && Roomy(w, x) && st.held < |st.l.chunks|
    ensures Answer(x, st).None?
  {
    AtMostAWindow(w, st.l);
    assert GoodChunk(w, st.l, st.l.chunks[st.held]);
  }

  lemma ChannelAfter(w: Setup, l: Link, f: FifoPair.Event)
    requires S.Valid(w.SP(), l.s) && R.Valid(l.r) && Enabled(w, l, f) && Normal(f)
    ensures |Next(w, l, f).chunks| >= |l.chunks| - if f.ReceiverGetsChunk? then 1 else 0
  {
  }

  /** The invariants of the plain channel. */
  ghost predicate OnCourse(w: Setup, st: State) {
    LinkInv(w, st.l) && Fit(w, st.l) && Flow(w, st.l) && st.held <= |st.l.chunks|
  }

  lemma StaysOnCourse(w: Setup, x: Box, st: State, f: FifoPair.Event)
    requires OnCourse(w, st) && CanHappen(w, st, Step(f))
    ensures OnCourse(w, Happen(w, x, st, Step(f)))
  {
    NextKeeps(w, st.l, f);
    LinkIsFit(w, Next(w, st.l, f));
    NextFlows(w, st.l, f);
    ChannelAfter(w, st.l, f);
  }

  lemma StartsOnCourse(w: Setup)
    requires Honest(w)
    ensures OnCourse(w, State(Init(w), 0))
  {
    InitInv(w);
    LinkIsFit(w, Init(w));
  }

  lemma {:induction false} BoxedFlows(w: Setup, x: Box, run: seq<State>, events: seq<Event>, k: nat)
    requires Honest(w) && w.Size() > 0 && Roomy(w, x) && IsBoxedRun(w, x, run, events) && k < |run|
    ensures OnCourse(w, run[k])
  {
    if k == 0 {
      StartsOnCourse(w);
    } else {
      BoxedFlows(w, x, run, events, k - 1);
      if events[k - 1].Arrive? {
        ArrivalAccepted(w, x, run[k - 1]);
      } else {
        StaysOnCourse(w, x, run[k - 1], events[k - 1].e);
      }
    }
  }

  /** Each event is a step of the plain channel or leaves it as it is. */
  lemma BoxedStep(w: Setup, x: Box, run: seq<State>, events: seq<Event>, k: nat)
    requires Honest(w) && w.Size() > 0 && Roomy(w, x) && IsBoxedRun(w, x, run, events) && k < |events|
    ensures S.Valid(w.SP(), run[k].l.s) && R.Valid(run[k].l.r)
    ensures match events[k]
      case Arrive => run[k + 1].l == run[k].l
      case Step(e) => Enabled(w, run[k].l, e) && Normal(e) && run[k + 1].l == Next(w, run[k].l, e)
  {
    BoxedFlows(w, x, run, events, k);
    if events[k].Arrive? {
      ArrivalAccepted(w, x, run[k]);
    }
  }

  /** The mailbox never changes the course of such a run: without the arrivals it is a run of the plain channel. */
  lemma {:induction false} BoxedIsPlainRun(w: Setup, x: Box, run: seq<State>, events: seq<Event>, k: nat)
      returns (links: seq<Link>, plain: seq<FifoPair.Event>)
    requires Honest(w) && w.Size() > 0 && Roomy(w, x) && IsBoxedRun(w, x, run, events) && k < |run|
    ensures IsRun(w, links, plain) && links[|plain|] == run[k].l && plain == StepsOf(events[..k])
    ensures forall i :: 0 <= i < |plain| ==> Normal(plain[i])
  {
    if k == 0 {
      links, plain := [Init(w)], [];
    } else {
      links, plain := BoxedIsPlainRun(w, x, run, events, k - 1);
      BoxedStep(w, x, run, events, k - 1);
      assert events[..k][..k - 1] == events[..k - 1];
      if events[k - 1].Step? {
        BoundedRuns.ExtendRun(w, links, plain, events[k - 1].e);
        links, plain := links + [run[k].l], plain + [events[k - 1].e];
      }
    }
  }

  /** The events of the two ends, without the arrivals. */
  function StepsOf(events: seq<Event>): seq<FifoPair.Event> {
    if events == [] then []
    else
      var n := |events| - 1;
      StepsOf(events[..n]) + if events[n].Step? then [events[n].e] else []
  }

  /** No chunk is ever refused by a mailbox with at least a window of slots. */
  lemma NoChunkRefused(w: Setup, x: Box, run: seq<State>, events: seq<Event>, k: nat)
    requires Honest(w) && w.Size() > 0 && Roomy(w, x) && IsBoxedRun(w, x, run, events)
    requires k < |events| && events[k].Arrive?
    ensures run[k].held < |run[k].l.chunks| && Answer(x, run[k]).None?
  {
    BoxedFlows(w, x, run, events, k);
    ArrivalAccepted(w, x, run[k]);
  }

  /** And the receiver's search takes the chunk that the channel delivers next. */
  lemma FirstChunkMatches(w: Setup, x: Box, run: seq<State>, events: seq<Event>, k: nat, mine: seq<Byte> -> bool)
    requires Honest(w) && w.Size() > 0 && Roomy(w, x) && IsBoxedRun(w, x, run, events)
    requires k < |run| && run[k].held > 0
    requires forall c: Chunk :: c.transferId == w.id ==> mine(x.body(c))
    ensures run[k].held <= |run[k].l.chunks| && FirstMatch(Contents(x, run[k]), x.peer, mine) == 0
  {
    BoxedFlows(w, x, run, events, k);
    assert GoodChunk(w, run[k].l, run[k].l.chunks[0]);
    assert Matches(Contents(x, run[k])[0], x.peer, mine);
  }
}
