/** Per-type receive mailboxes: fixed slot arrays with append, and removal of the first match followed by
    a shift. The arrays are proved to hold a bounded sequence. */
module Mailbox {
  import opened Basics

  datatype Entry = Entry(from: Byte, body: seq<Byte>)

  datatype IngestError =
    | MalformedPayload
    | UnknownId(id: nat)
    | BodyTooLarge(got: nat, max: nat)
    | MailboxFull

  /** A slot as stored: a body buffer of fixed size of which `len` bytes count. */
  datatype Slot = Slot(from: Byte, len: nat, body: seq<Byte>)

  function EmptySlot(maxBody: nat): Slot { Slot(0, 0, Zeros(maxBody)) }

  predicate GoodSlot(s: Slot, maxBody: nat) { |s.body| == maxBody && s.len <= maxBody }

  function EntryOf(s: Slot): Entry
    requires s.len <= |s.body|
  {
    Entry(s.from, s.body[..s.len])
  }

  predicate Matches(e: Entry, from: Byte, pred: seq<Byte> -> bool) { e.from == from && pred(e.body) }

  /** Index of the first matching entry, or the length if there is none. */
  function FirstMatch(q: seq<Entry>, from: Byte, pred: seq<Byte> -> bool): (i: nat)
    ensures i <= |q|
    ensures i < |q| ==> Matches(q[i], from, pred)
    ensures forall j :: 0 <= j < i ==> !Matches(q[j], from, pred)
  {
    if q == [] then 0
    else if Matches(q[0], from, pred) then 0
    else 1 + FirstMatch(q[1..], from, pred)
  }

  function RemoveAt<T>(q: seq<T>, i: nat): (r: seq<T>)
    requires i < |q|
    ensures |r| == |q| - 1
  {
    q[..i] + q[i + 1..]
  }

  /** What appending does to a mailbox of `depth` slots of `maxBody` bytes: an error, or the new contents. */
  function Refusal(q: seq<Entry>, depth: nat, maxBody: nat, e: Entry): Option<IngestError> {
    if |e.body| > maxBody then Some(BodyTooLarge(|e.body|, maxBody))
    else if |q| == depth then Some(MailboxFull)
    else None
  }

  class TypeMailbox {
    const depth: nat
    const maxBody: nat
    const slots: array<Slot>
    var used: nat

    /** Slots in use are well-formed; slots from `used` on are empty. */
    ghost predicate Valid()
      reads this, slots
    {
      && slots.Length == depth
      && used <= depth
      && (forall i :: 0 <= i < used ==> GoodSlot(slots[i], maxBody))
      && (forall i :: used <= i < depth ==> slots[i] == EmptySlot(maxBody))
    }

    ghost function Contents(): (q: seq<Entry>)
      requires Valid()
      reads this, slots
      ensures |q| == used
    {
      seq(used, i requires 0 <= i < used && Valid() reads this, slots => EntryOf(slots[i]))
    }

    constructor (depth: nat, maxBody: nat)
      ensures Valid() && fresh(slots) && Contents() == []
      ensures this.depth == depth && this.maxBody == maxBody
    {
      this.depth, this.maxBody, used := depth, maxBody, 0;
      slots := new Slot[depth](_ => EmptySlot(maxBody));
    }

    /** Append, or report why not and change nothing. */
    method Push(from: Byte, body: seq<Byte>) returns (err: Option<IngestError>)
      requires Valid()
      modifies this, slots
      ensures Valid()
      ensures err == Refusal(old(Contents()), depth, maxBody, Entry(from, body))
      ensures Contents() == if err.None? then old(Contents()) + [Entry(from, body)] else old(Contents())
      ensures err.Some? ==> slots[..] == old(slots[..]) && used == old(used)
    {
      if |body| > maxBody {
        return Some(BodyTooLarge(|body|, maxBody));
      }
      if used == depth {
        return Some(MailboxFull);
      }
      var idx := used;
      slots[idx] := Slot(from, |body|, body + slots[idx].body[|body|..]);
      used := used + 1;
      return None;
    }

    method FindMatch(from: Byte, pred: seq<Byte> -> bool) returns (idx: nat)
      requires Valid()
      ensures idx == FirstMatch(Contents(), from, pred)
    {
      idx := 0;
      while idx < used
        invariant idx <= used
        invariant forall j :: 0 <= j < idx ==> !Matches(Contents()[j], from, pred)
      {
        if slots[idx].from == from && pred(slots[idx].body[..slots[idx].len]) {
          assert Matches(Contents()[idx], from, pred);
          return;
        }
        idx := idx + 1;
      }
    }

    /** Remove and return the first entry of `from` that satisfies the predicate, keeping the order of
        the others. */
    method PopMatchingWhere(from: Byte, pred: seq<Byte> -> bool) returns (out: Option<Slot>)
      requires Valid()
      modifies this, slots
      ensures Valid()
      ensures var i := FirstMatch(old(Contents()), from, pred);
        if i == |old(Contents())|
        then out == None && Contents() == old(Contents())
        else out.Some? && GoodSlot(out.value, maxBody) && EntryOf(out.value) == old(Contents())[i]
             && Contents() == RemoveAt(old(Contents()), i)
    {
      var idx := FindMatch(from, pred);
      if idx == used {
        return None;
      }
      out := Some(slots[idx]);
      RemoveSlot(idx);
    }

    /** Drop slot `idx` and close the gap. */
    method RemoveSlot(idx: nat)
      requires Valid() && idx < used
      modifies this, slots
      ensures Valid() && Contents() == RemoveAt(old(Contents()), idx)
    {
      ghost var was := Contents();
      ShiftDown(idx);
      used := used - 1;
      forall k | 0 <= k < used
        ensures Contents()[k] == RemoveAt(was, idx)[k]
      {
        assert slots[k] == if k < idx then old(slots[k]) else old(slots[k + 1]);
      }
    }

    /** Move the slots after `idx` one place down and clear the last one. */
    method ShiftDown(idx: nat)
      requires Valid() && idx < used
      modifies slots
      ensures forall k :: 0 <= k < idx ==> slots[k] == old(slots[k])
      ensures forall k :: idx <= k < used - 1 ==> slots[k] == old(slots[k + 1])
      ensures forall k :: used - 1 <= k < depth ==> slots[k] == EmptySlot(maxBody)
    {
      var j := idx;
      while j + 1 < used
        invariant idx <= j < used
        invariant forall k :: 0 <= k < idx ==> slots[k] == old(slots[k])
        invariant forall k :: idx <= k < j ==> slots[k] == old(slots[k + 1])
        invariant forall k :: j <= k < depth ==> slots[k] == old(slots[k])
      {
        slots[j] := slots[j + 1];
        j := j + 1;
      }
      slots[used - 1] := EmptySlot(maxBody);
    }
  }
}
