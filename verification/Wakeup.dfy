/** Concurrent ingests and receives on one message type: a mailbox behind a lock and a watch cell.
    An ingest pushes under the lock and then notifies; a receive subscribes and then repeats "check under
    the lock, sleep until notified". Every interleaving of any number of both is covered. */
module Wakeup {
  import opened Basics
  import opened Mailbox

  datatype Pattern = Pattern(from: Byte, pred: seq<Byte> -> bool)

  /** A receive in progress. `seen` is the watch version its receiver last observed. */
  datatype Waiter = Checking(want: Pattern, seen: nat) | Sleeping(want: Pattern, seen: nat)

  /** A queued message, tagged with the ingest that brought it. */
  datatype Item = Item(ingest: nat, entry: Entry)

  /** `pending`: ingests between their push and their notification. */
  datatype State = State(queue: seq<Item>, version: nat, pending: set<nat>, waiters: map<nat, Waiter>, started: nat)

  datatype Event =
    | Push(entry: Entry)
    | Notify(ingest: nat)
    | Subscribe(task: nat, want: Pattern, seen: nat)
    | Check(task: nat)
    | Wake(task: nat)
    | Cancel(task: nat)

  const INIT := State([], 0, {}, map[], 0)

  predicate Fits(e: Entry, p: Pattern) { Matches(e, p.from, p.pred) }

  function Entries(queue: seq<Item>): (q: seq<Entry>)
    ensures |q| == |queue|
  {
    seq(|queue|, i requires 0 <= i < |queue| => queue[i].entry)
  }

  /** The first queued item a waiter wants, or the queue length. */
  function Find(queue: seq<Item>, p: Pattern): nat { FirstMatch(Entries(queue), p.from, p.pred) }

  /** `depth` bounds the mailbox and `maxWaiters` the number of live receivers of the watch cell. A new
      receiver may start with any version up to the current one as seen. */
  predicate Enabled(st: State, e: Event, depth: nat, maxWaiters: nat) {
    match e
    case Push(_) => |st.queue| < depth
    case Notify(i) => i in st.pending
    case Subscribe(task, _, seen) => task !in st.waiters && |st.waiters| < maxWaiters && seen <= st.version
    case Check(task) => task in st.waiters && st.waiters[task].Checking?
    case Wake(task) => task in st.waiters && st.waiters[task].Sleeping? && st.version > st.waiters[task].seen
    case Cancel(task) => task in st.waiters
  }

  function Next(st: State, e: Event, depth: nat, maxWaiters: nat): State
    requires Enabled(st, e, depth, maxWaiters)
  {
    match e
    case Push(entry) =>
      st.(queue := st.queue + [Item(st.started, entry)], pending := st.pending + {st.started},
          started := st.started + 1)
    case Notify(i) => st.(version := st.version + 1, pending := st.pending - {i})
    case Subscribe(task, want, seen) => st.(waiters := st.waiters[task := Checking(want, seen)])
    case Check(task) =>
      var w := st.waiters[task];
      var i := Find(st.queue, w.want);
      if i == |st.queue| then st.(waiters := st.waiters[task := Sleeping(w.want, w.seen)])
      else st.(queue := RemoveAt(st.queue, i), waiters := st.waiters - {task})
    case Wake(task) => st.(waiters := st.waiters[task := Checking(st.waiters[task].want, st.version)])
    case Cancel(task) => st.(waiters := st.waiters - {task})
  }

  /** A waiter that has checked and sleeps (or is about to) although item `k` fits it: then a notification
      newer than what it saw is already there, or that very item's ingest has yet to notify. */
  predicate WakeupOwed(st: State, task: nat, k: nat)
    requires task in st.waiters && k < |st.queue|
  {
    st.waiters[task].Sleeping? && Fits(st.queue[k].entry, st.waiters[task].want) ==>
      st.version > st.waiters[task].seen || st.queue[k].ingest in st.pending
  }

  ghost predicate Inv(st: State) {
    && (forall task :: task in st.waiters ==> st.waiters[task].seen <= st.version)
    && (forall task, k :: task in st.waiters && 0 <= k < |st.queue| ==> WakeupOwed(st, task, k))
  }

  lemma NextKeepsInv(st: State, e: Event, depth: nat, maxWaiters: nat)
    requires Inv(st) && Enabled(st, e, depth, maxWaiters)
    ensures Inv(Next(st, e, depth, maxWaiters))
  {
    var t := Next(st, e, depth, maxWaiters);
    forall task, k | task in t.waiters && 0 <= k < |t.queue|
      ensures WakeupOwed(t, task, k)
    {
      if e.Check? && |t.queue| < |st.queue| {
        var i := Find(st.queue, st.waiters[e.task].want);
        var k': nat := if k < i then k else k + 1;
        assert t.queue[k] == st.queue[k'];
        assert WakeupOwed(st, task, k');
      } else if k < |st.queue| && task in st.waiters {
        assert WakeupOwed(st, task, k);
        assert t.queue[k] == st.queue[k];
        assert Fits(st.queue[k].entry, st.waiters[task].want) ==
          Matches(Entries(st.queue)[k], st.waiters[task].want.from, st.waiters[task].want.pred);
      }
    }
  }

  ghost predicate IsRun(run: seq<State>, events: seq<Event>, depth: nat, maxWaiters: nat) {
    && |run| == |events| + 1
    && run[0] == INIT
    && forall i :: 0 <= i < |events| ==>
         Enabled(run[i], events[i], depth, maxWaiters) && run[i + 1] == Next(run[i], events[i], depth, maxWaiters)
  }

  lemma {:induction false} RunKeepsInv(run: seq<State>, events: seq<Event>, depth: nat, maxWaiters: nat, n: nat)
    requires IsRun(run, events, depth, maxWaiters) && n < |run|
    ensures Inv(run[n])
  {
    if n > 0 {
      RunKeepsInv(run, events, depth, maxWaiters, n - 1);
      NextKeepsInv(run[n - 1], events[n - 1], depth, maxWaiters);
    }
  }

  /** No lost wakeup: in every reachable state, for every sleeping waiter and every queued message that
      fits it, the waiter can wake at once or the message's own ingest is still going to notify. */
  lemma NoLostWakeup(run: seq<State>, events: seq<Event>, depth: nat, maxWaiters: nat, n: nat, task: nat, k: nat)
    requires IsRun(run, events, depth, maxWaiters) && n < |run|
    requires task in run[n].waiters && run[n].waiters[task].Sleeping? && k < |run[n].queue|
    requires Fits(run[n].queue[k].entry, run[n].waiters[task].want)
    ensures Enabled(run[n], Wake(task), depth, maxWaiters)
         || (run[n].queue[k].ingest in run[n].pending
             && Enabled(Next(run[n], Notify(run[n].queue[k].ingest), depth, maxWaiters), Wake(task), depth, maxWaiters))
  {
    RunKeepsInv(run, events, depth, maxWaiters, n);
    assert WakeupOwed(run[n], task, k);
  }

  /** When no ingest is under way and no waiter can move, no queued message fits any waiter. */
  lemma QuiescentMeansNothingFits(
      run: seq<State>, events: seq<Event>, depth: nat, maxWaiters: nat, n: nat, task: nat, k: nat)
    requires IsRun(run, events, depth, maxWaiters) && n < |run| && run[n].pending == {}
    requires forall w :: !Enabled(run[n], Wake(w), depth, maxWaiters) && !Enabled(run[n], Check(w), depth, maxWaiters)
    requires task in run[n].waiters && k < |run[n].queue|
    ensures !Fits(run[n].queue[k].entry, run[n].waiters[task].want)
  {
    RunKeepsInv(run, events, depth, maxWaiters, n);
    assert WakeupOwed(run[n], task, k);
    assert !Enabled(run[n], Wake(task), depth, maxWaiters) && !Enabled(run[n], Check(task), depth, maxWaiters);
  }

  /** A woken waiter for which something fits returns at its next check with the oldest such message. */
  lemma WokenWaiterDelivers(st: State, depth: nat, maxWaiters: nat, task: nat, k: nat)
    requires Enabled(st, Wake(task), depth, maxWaiters) && k < |st.queue|
      && Fits(st.queue[k].entry, st.waiters[task].want)
    ensures var woken := Next(st, Wake(task), depth, maxWaiters);
      var i := Find(st.queue, st.waiters[task].want);
      && i <= k && Fits(st.queue[i].entry, st.waiters[task].want)
      && Enabled(woken, Check(task), depth, maxWaiters)
      && Next(woken, Check(task), depth, maxWaiters)
        == st.(queue := RemoveAt(st.queue, i), waiters := st.waiters - {task})
  {
    var p := st.waiters[task].want;
    assert Matches(Entries(st.queue)[k], p.from, p.pred);
    var i := Find(st.queue, p);
    assert Entries(st.queue)[i] == st.queue[i].entry;
    var woken := Next(st, Wake(task), depth, maxWaiters);
    assert woken.waiters - {task} == st.waiters - {task};
  }
}
