/**
  The bounded, sliding-TTL, per-webhook dedupe of emitted message ids
  (internal/inbox/dedupe.go). Times are integers in nanoseconds.
 */
module Dedupe {
  import opened Collections

  // inboundDedupeCapacity and inboundDedupeTTL (10 minutes).
  const CAPACITY: nat := 1024
  const TTL: int := 600_000_000_000

  datatype MessageId = MessageId(text: string)

  datatype WebhookId = WebhookId(text: string)

  datatype Entry = Entry(webhooks: set<WebhookId>, seenAt: int)

  datatype State = State(entries: map<MessageId, Entry>, order: seq<MessageId>)

  const EMPTY := State(map[], [])

  /** The order list names every remembered id exactly once, within the capacity. */
  ghost predicate WellFormed(s: State) {
    && Distinct(s.order)
    && (forall id :: id in s.order <==> id in s.entries)
    && |s.order| == |s.entries| <= CAPACITY
  }

  predicate Expired(e: Entry, now: int) {
    now - e.seenAt >= TTL
  }

  function ServedBy(s: State, id: MessageId, now: int): set<WebhookId> {
    if id in s.entries && !Expired(s.entries[id], now) then s.entries[id].webhooks else {}
  }

  function AfterEviction(s: State): State
    decreases |s.order|
  {
    if s.order == [] then s
    else if s.order[0] in s.entries then State(s.entries - {s.order[0]}, s.order[1..])
    else AfterEviction(State(s.entries, s.order[1..]))
  }

  /** Whether marking a new id at this state costs the oldest one its place. */
  predicate Full(s: State, id: MessageId) {
    id !in s.entries && |s.entries| >= CAPACITY
  }

  function AfterMark(s: State, id: MessageId, hook: WebhookId, now: int): State {
    if id in s.entries then
      var kept := if Expired(s.entries[id], now) then {} else s.entries[id].webhooks;
      State(s.entries[id := Entry(kept + {hook}, now)], s.order)
    else
      var room := if Full(s, id) then AfterEviction(s) else s;
      State(room.entries[id := Entry({hook}, now)], room.order + [id])
  }

  function Kept(entries: map<MessageId, Entry>, order: seq<MessageId>, now: int): (kept: seq<MessageId>)
    ensures forall id :: id in kept <==> id in order && id in entries && !Expired(entries[id], now)
  {
    if order == [] then []
    else
      var front := Kept(entries, order[..|order| - 1], now);
      var id := order[|order| - 1];
      assert order == order[..|order| - 1] + [id];
      if id in entries && !Expired(entries[id], now) then front + [id] else front
  }

  function Pruned(entries: map<MessageId, Entry>, seen: seq<MessageId>, now: int): map<MessageId, Entry> {
    map id | id in entries && !(id in seen && Expired(entries[id], now)) :: entries[id]
  }

  lemma PrunedNext(entries: map<MessageId, Entry>, seen: seq<MessageId>, id: MessageId, now: int)
    ensures var before, after := Pruned(entries, seen, now), Pruned(entries, seen + [id], now);
            after == if id in before && Expired(before[id], now) then before - {id} else before
  {
  }

  function AfterSweep(s: State, now: int): State {
    State(Pruned(s.entries, s.order, now), Kept(s.entries, s.order, now))
  }

  lemma {:induction false} KeptDistinct(entries: map<MessageId, Entry>, order: seq<MessageId>, now: int)
    requires Distinct(order)
    ensures Distinct(Kept(entries, order, now))
  {
    if order != [] {
      KeptDistinct(entries, order[..|order| - 1], now);
    }
  }

  lemma {:induction false} DistinctCount(order: seq<MessageId>, names: set<MessageId>)
    requires Distinct(order)
    requires forall id :: id in order <==> id in names
    ensures |order| == |names|
  {
    if order != [] {
      var front, id := order[..|order| - 1], order[|order| - 1];
      assert order == front + [id];
      DistinctCount(front, names - {id});
    } else {
      assert names == {};
    }
  }

  predicate Before(order: seq<MessageId>, x: MessageId, y: MessageId) {
    exists i, j :: 0 <= i < j < |order| && order[i] == x && order[j] == y
  }

  /** Some of the list, in its order. */
  predicate Within(order: seq<MessageId>, stay: seq<MessageId>) {
    && (forall i :: 0 <= i < |stay| ==> stay[i] in order)
    && (forall i, j :: 0 <= i < j < |stay| ==> Before(order, stay[i], stay[j]))
  }

  lemma {:induction false} KeptPairInOrder(
      entries: map<MessageId, Entry>, order: seq<MessageId>, now: int, i: nat, j: nat)
    requires i < j < |Kept(entries, order, now)|
    ensures Before(order, Kept(entries, order, now)[i], Kept(entries, order, now)[j])
  {
    var front, n := order[..|order| - 1], |order| - 1;
    var before, kept := Kept(entries, front, now), Kept(entries, order, now);
    var b: int := n;
    var a: int := 0;
    if j < |before| {
      KeptPairInOrder(entries, front, now, i, j);
      a, b :| 0 <= a < b < |front| && front[a] == before[i] && front[b] == before[j];
    } else {
      assert before[i] in front;
      a :| 0 <= a < |front| && front[a] == before[i];
    }
    assert order[a] == kept[i] && order[b] == kept[j];
  }

  /** Sweeping keeps the order of those that stay. */
  lemma KeptInOrder(entries: map<MessageId, Entry>, order: seq<MessageId>, now: int)
    ensures Within(order, Kept(entries, order, now))
  {
    var kept := Kept(entries, order, now);
    forall i | 0 <= i < |kept| ensures kept[i] in order {
      assert kept[i] in kept;
    }
    forall i, j | 0 <= i < j < |kept| ensures Before(order, kept[i], kept[j]) {
      KeptPairInOrder(entries, order, now, i, j);
    }
  }

  lemma SweepWellFormed(s: State, now: int)
    requires WellFormed(s)
    ensures WellFormed(AfterSweep(s, now))
  {
    var t := AfterSweep(s, now);
    KeptDistinct(s.entries, s.order, now);
    DistinctCount(t.order, t.entries.Keys);
    assert t.entries.Keys <= s.entries.Keys;
    SubsetSize(t.entries.Keys, s.entries.Keys);
  }

  /** A capacity eviction drops precisely the id that was INSERTED first, whatever its stamp. */
  lemma EvictionDropsFirstInserted(s: State)
    requires WellFormed(s) && s.entries != map[]
    ensures s.order != []
    ensures AfterEviction(s) == State(s.entries - {s.order[0]}, s.order[1..])
    ensures WellFormed(AfterEviction(s)) && |AfterEviction(s).entries| == |s.entries| - 1
    ensures s.order[0] !in AfterEviction(s).entries
  {
  }

  /** Marking keeps the bookkeeping exact. */
  lemma MarkWellFormed(s: State, id: MessageId, hook: WebhookId, now: int)
    requires WellFormed(s)
    ensures WellFormed(AfterMark(s, id, hook, now))
  {
  }

  lemma LastWriteWins(entries: map<MessageId, Entry>, id: MessageId, a: Entry, b: Entry)
    ensures entries[id := a][id := b] == entries[id := b]
  {
  }

  /** The dedupe object itself; only the inbox run loop touches it. */
  class InboundDeduper {
    var entries: map<MessageId, Entry>
    var order: seq<MessageId>

    ghost function Abs(): State
      reads this
    {
      State(entries, order)
    }

    constructor ()
      ensures Abs() == EMPTY
    {
      entries, order := map[], [];
    }

    method Served(id: MessageId, now: int) returns (served: seq<WebhookId>)
      ensures Distinct(served)
      ensures forall hook :: hook in served <==> hook in ServedBy(Abs(), id, now)
      ensures forall hook :: hook in served <==>
                id in entries && now - entries[id].seenAt < TTL && hook in entries[id].webhooks
    {
      if id !in entries || now - entries[id].seenAt >= TTL {
        return [];
      }
      served := [];
      var rest := entries[id].webhooks;
      while rest != {}
        invariant rest <= entries[id].webhooks
        invariant Distinct(served)
        invariant forall hook :: hook in served <==> hook in entries[id].webhooks && hook !in rest
        decreases |rest|
      {
        var hook :| hook in rest;
        served := served + [hook];
        rest := rest - {hook};
      }
    }

    method Mark(id: MessageId, hook: WebhookId, now: int)
      modifies this
      ensures Abs() == AfterMark(old(Abs()), id, hook, now)
      ensures id in entries && entries[id].seenAt == now
      ensures entries[id].webhooks ==
                (if id in old(entries) && now - old(entries)[id].seenAt < TTL then old(entries)[id].webhooks else {})
                + {hook}
      ensures id in old(entries) ==> entries - {id} == old(entries) - {id} && order == old(order)
      ensures id !in old(entries) && old(|entries|) < CAPACITY ==>
                entries - {id} == old(entries) && order == old(order) + [id]
      ensures id !in old(entries) && old(|entries|) >= CAPACITY && WellFormed(old(Abs())) ==>
                old(order) != [] && entries - {id} == old(entries) - {old(order)[0]} && order == old(order)[1..] + [id]
    {
      var entry := Entry({}, now);
      if id in entries {
        if now - entries[id].seenAt < TTL {
          entry := entries[id];
        }
      } else {
        if |entries| >= CAPACITY {
          EvictOldest();
        }
        LastWriteWins(entries, id, entry, Entry({hook}, now));
        entries := entries[id := entry];
        order := order + [id];
      }
      entry := Entry(entry.webhooks + {hook}, now);
      assert entry.webhooks == AfterMark(old(Abs()), id, hook, now).entries[id].webhooks;
      entries := entries[id := entry];
    }

    method Sweep(now: int)
      modifies this
      ensures Abs() == AfterSweep(old(Abs()), now)
      ensures forall id :: id in entries <==>
                id in old(entries) && (id in old(order) ==> now - old(entries)[id].seenAt < TTL)
      ensures forall id :: id in entries ==> entries[id] == old(entries)[id]
      ensures forall id :: id in order <==> id in old(order) && id in entries
      ensures Within(old(order), order)
    {
      KeptInOrder(entries, order, now);
      var kept: seq<MessageId> := [];
      ghost var was := entries;
      for i := 0 to |order|
        invariant order == old(order)
        invariant kept == Kept(was, order[..i], now)
        invariant entries == Pruned(was, order[..i], now)
      {
        var id := order[i];
        assert order[..i + 1] == order[..i] + [id];
        PrunedNext(was, order[..i], id, now);
        if id in entries {
          if now - entries[id].seenAt >= TTL {
            entries := entries - {id};
          } else {
            kept := kept + [id];
          }
        }
      }
      assert order[..|order|] == order;
      order := kept;
    }

    method EvictOldest()
      modifies this
      ensures Abs() == AfterEviction(old(Abs()))
      ensures WellFormed(old(Abs())) && old(entries) != map[] ==>
                old(order) != [] && entries == old(entries) - {old(order)[0]} && order == old(order)[1..]
    {
      if WellFormed(Abs()) && entries != map[] {
        EvictionDropsFirstInserted(Abs());
      }
      while |order| > 0
        invariant entries == old(entries)
        invariant AfterEviction(Abs()) == AfterEviction(old(Abs()))
        decreases |order|
      {
        var oldest := order[0];
        order := order[1..];
        if oldest in entries {
          entries := entries - {oldest};
          return;
        }
      }
    }
  }
}
