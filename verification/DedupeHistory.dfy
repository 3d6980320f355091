/**
  What the dedupe cache means: a refinement of the cache, over every run, to a
  plain log of marks. A chain of an id is a stretch of marks of that id in which
  every mark comes less than one TTL after an earlier mark of the stretch.
 */
module DedupeHistory {
  import opened Collections
  import opened Options
  import opened Dedupe

  /** What the run loop does to the deduper. */
  datatype Event = Marking(id: MessageId, hook: WebhookId, at: int) | Sweeping(at: int)

  /** What is worth remembering about a run: marks, and the ids a full cache gave up. */
  datatype Fact = Marked(id: MessageId, hook: WebhookId, at: int) | Evicted(id: MessageId)

  datatype Run = Run(state: State, log: seq<Fact>, clock: int)

  function Start(clock: int): Run {
    Run(EMPTY, [], clock)
  }

  function Facts(s: State, e: Event): seq<Fact> {
    match e
    case Sweeping(_) => []
    case Marking(id, hook, at) =>
      (if Full(s, id) && s.order != [] then [Evicted(s.order[0])] else []) + [Marked(id, hook, at)]
  }

  function Step(r: Run, e: Event): Run {
    Run(if e.Sweeping? then AfterSweep(r.state, e.at) else AfterMark(r.state, e.id, e.hook, e.at),
        r.log + Facts(r.state, e),
        e.at)
  }

  function Exec(clock: int, events: seq<Event>): Run {
    if events == [] then Start(clock)
    else Step(Exec(clock, events[..|events| - 1]), events[|events| - 1])
  }

  /** The clock never runs backwards. */
  predicate Ordered(clock: int, events: seq<Event>) {
    && (forall i :: 0 <= i < |events| ==> clock <= events[i].at)
    && (forall i, j :: 0 <= i <= j < |events| ==> events[i].at <= events[j].at)
  }

  // ----- the specification, on the log alone -----

  predicate MarkOf(f: Fact, id: MessageId) {
    f.Marked? && f.id == id
  }

  /** Some mark of id among log[from..to] is less than one TTL before `at`. */
  predicate Near(log: seq<Fact>, id: MessageId, from: nat, to: nat, at: int)
    requires to <= |log|
  {
    exists j :: from <= j < to && MarkOf(log[j], id) && at - log[j].at < TTL
  }

  /** No gap of a TTL or more separates the marks of id from index i on. */
  ghost predicate Chained(log: seq<Fact>, id: MessageId, i: nat) {
    forall k :: i < k < |log| && MarkOf(log[k], id) ==> Near(log, id, i, k, log[k].at)
  }

  predicate EvictedSince(log: seq<Fact>, id: MessageId, i: nat) {
    exists k :: i < k < |log| && log[k] == Evicted(id)
  }

  /** The mark at index i still suppresses its webhook at `now`, capacity aside. */
  ghost predicate Linked(log: seq<Fact>, id: MessageId, i: nat, now: int)
    requires i < |log|
  {
    && Chained(log, id, i)
    && Near(log, id, i, |log|, now)
  }

  /** hook was marked for id in the chain that reaches `now`. */
  ghost predicate InChain(log: seq<Fact>, id: MessageId, hook: WebhookId, now: int) {
    exists i :: 0 <= i < |log| && MarkOf(log[i], id) && log[i].hook == hook && Linked(log, id, i, now)
  }

  /** The same, and the id was not evicted for capacity after that mark. */
  ghost predicate Holds(log: seq<Fact>, id: MessageId, hook: WebhookId, now: int) {
    exists i :: 0 <= i < |log| && MarkOf(log[i], id) && log[i].hook == hook
                && Linked(log, id, i, now) && !EvictedSince(log, id, i)
  }

  // ----- a running summary of the log for one id -----

  function Carried(before: Option<Entry>, at: int): set<WebhookId> {
    if before.Some? && !Expired(before.value, at) then before.value.webhooks else {}
  }

  function Tracked(log: seq<Fact>, id: MessageId): Option<Entry> {
    if log == [] then None
    else
      var before := Tracked(log[..|log| - 1], id);
      match log[|log| - 1]
      case Marked(i, hook, at) =>
        if i != id then before
        else Some(Entry(Carried(before, at) + {hook}, at))
      case Evicted(i) => if i == id then None else before
  }

  /** Marks in a log never go back in time, nor past `clock`. */
  predicate Timed(log: seq<Fact>, clock: int) {
    && (forall i :: 0 <= i < |log| && log[i].Marked? ==> log[i].at <= clock)
    && (forall i, j :: 0 <= i <= j < |log| && log[i].Marked? && log[j].Marked? ==> log[i].at <= log[j].at)
  }

  /** The cache holds the summary of every id, except that expired ones may be gone. */
  ghost predicate Agrees(r: Run) {
    forall id ::
      if id in r.state.entries then Tracked(r.log, id) == Some(r.state.entries[id])
      else Tracked(r.log, id).Some? ==> Expired(Tracked(r.log, id).value, r.clock)
  }

  ghost predicate Sound(r: Run) {
    WellFormed(r.state) && Timed(r.log, r.clock) && Agrees(r)
  }

  lemma TrackedAppend(log: seq<Fact>, f: Fact, id: MessageId)
    ensures f.id != id ==> Tracked(log + [f], id) == Tracked(log, id)
    ensures f == Evicted(id) ==> Tracked(log + [f], id) == None
    ensures MarkOf(f, id) ==>
              Tracked(log + [f], id) == Some(Entry(Carried(Tracked(log, id), f.at) + {f.hook}, f.at))
  {
  }

  ghost predicate AgreesOn(r: Run, x: MessageId) {
    if x in r.state.entries then Tracked(r.log, x) == Some(r.state.entries[x])
    else Tracked(r.log, x).Some? ==> Expired(Tracked(r.log, x).value, r.clock)
  }

  /** The state and the log once room was made for a new id. */
  function Roomy(r: Run, id: MessageId): Run {
    if Full(r.state, id) && r.state.order != [] then
      Run(AfterEviction(r.state), r.log + [Evicted(r.state.order[0])], r.clock)
    else r
  }

  lemma RoomyAgrees(r: Run, id: MessageId, x: MessageId)
    requires Sound(r)
    ensures AgreesOn(Roomy(r, id), x)
  {
    if Full(r.state, id) {
      EvictionDropsFirstInserted(r.state);
      TrackedAppend(r.log, Evicted(r.state.order[0]), x);
    }
  }

  lemma MarkAgrees(r: Run, id: MessageId, hook: WebhookId, at: int, x: MessageId)
    requires Sound(r) && r.clock <= at && AgreesOn(Roomy(r, id), x)
    ensures AgreesOn(Step(r, Marking(id, hook, at)), x)
  {
    var mid := Roomy(r, id);
    if Full(r.state, id) {
      EvictionDropsFirstInserted(r.state);
    }
    assert Step(r, Marking(id, hook, at)).log == mid.log + [Marked(id, hook, at)];
    TrackedAppend(mid.log, Marked(id, hook, at), x);
    assert {} + {hook} == {hook};
  }

  lemma StepAgreesMark(r: Run, id: MessageId, hook: WebhookId, at: int)
    requires Sound(r) && r.clock <= at
    ensures Agrees(Step(r, Marking(id, hook, at)))
  {
    var t := Step(r, Marking(id, hook, at));
    forall x
      ensures if x in t.state.entries then Tracked(t.log, x) == Some(t.state.entries[x])
              else Tracked(t.log, x).Some? ==> Expired(Tracked(t.log, x).value, t.clock)
    {
      RoomyAgrees(r, id, x);
      MarkAgrees(r, id, hook, at, x);
      assert AgreesOn(t, x);
    }
  }

  lemma StepAgreesSweep(r: Run, at: int)
    requires Sound(r) && r.clock <= at
    ensures Agrees(Step(r, Sweeping(at)))
  {
    assert Step(r, Sweeping(at)).log == r.log;
  }

  lemma StepTimed(r: Run, e: Event)
    requires Timed(r.log, r.clock) && r.clock <= e.at
    ensures Timed(Step(r, e).log, e.at)
  {
  }

  lemma StepSound(r: Run, e: Event)
    requires Sound(r) && r.clock <= e.at
    ensures Sound(Step(r, e))
  {
    StepTimed(r, e);
    match e
    case Sweeping(at) =>
      SweepWellFormed(r.state, at);
      StepAgreesSweep(r, at);
    case Marking(id, hook, at) =>
      MarkWellFormed(r.state, id, hook, at);
      StepAgreesMark(r, id, hook, at);
  }

  /** Every run keeps the cache well formed (order is a duplicate-free listing of
      the remembered ids, at most CAPACITY of them) and in agreement with its log. */
  lemma {:induction false} RunSound(clock: int, events: seq<Event>)
    requires Ordered(clock, events)
    ensures Sound(Exec(clock, events))
    ensures Exec(clock, events).clock == if events == [] then clock else events[|events| - 1].at
  {
    if events != [] {
      RunSound(clock, events[..|events| - 1]);
      StepSound(Exec(clock, events[..|events| - 1]), events[|events| - 1]);
    }
  }

  // ----- the summary means what the specification says -----

  /** hook has a mark in the current chain of id, whatever the time. */
  ghost predicate InLive(log: seq<Fact>, id: MessageId, hook: WebhookId) {
    exists i :: 0 <= i < |log| && MarkOf(log[i], id) && log[i].hook == hook
                && Chained(log, id, i) && !EvictedSince(log, id, i)
  }

  predicate LastMark(log: seq<Fact>, id: MessageId, m: nat) {
    && m < |log| && MarkOf(log[m], id)
    && forall k :: m < k < |log| ==> !MarkOf(log[k], id)
  }

  /** A summary is right when it names the last mark and exactly the hooks of the chain. */
  ghost predicate Summarises(log: seq<Fact>, id: MessageId, t: Option<Entry>) {
    if t.Some? then
      && (exists m: nat :: LastMark(log, id, m) && log[m].at == t.value.seenAt && !EvictedSince(log, id, m))
      && (forall hook :: hook in t.value.webhooks <==> InLive(log, id, hook))
    else
      forall i :: 0 <= i < |log| && MarkOf(log[i], id) ==> EvictedSince(log, id, i)
  }

  lemma NearLast(log: seq<Fact>, clock: int, id: MessageId, i: nat, m: nat, at: int)
    requires Timed(log, clock) && LastMark(log, id, m) && i <= m
    ensures Near(log, id, i, |log|, at) <==> at - log[m].at < TTL
  {
  }

  lemma EvictedSinceAppend(log: seq<Fact>, f: Fact, id: MessageId, i: nat)
    requires i < |log|
    ensures EvictedSince(log + [f], id, i) <==> EvictedSince(log, id, i) || f == Evicted(id)
  {
    var n := |log|;
    assert (log + [f])[n] == f;
    if EvictedSince(log, id, i) {
      var k :| i < k < n && log[k] == Evicted(id);
      assert (log + [f])[k] == Evicted(id);
    }
  }

  lemma NearAppend(log: seq<Fact>, f: Fact, id: MessageId, from: nat, to: nat, at: int)
    requires to <= |log|
    ensures Near(log + [f], id, from, to, at) <==> Near(log, id, from, to, at)
  {
    if Near(log, id, from, to, at) {
      var j :| from <= j < to && MarkOf(log[j], id) && at - log[j].at < TTL;
      assert (log + [f])[j] == log[j];
    }
  }

  lemma ChainedAppend(log: seq<Fact>, f: Fact, id: MessageId, i: nat)
    requires i < |log|
    ensures Chained(log + [f], id, i) <==>
            Chained(log, id, i) && (MarkOf(f, id) ==> Near(log, id, i, |log|, f.at))
  {
    var next := log + [f];
    forall k | i < k <= |log| && MarkOf(next[k], id)
      ensures Near(next, id, i, k, next[k].at) <==> Near(log, id, i, k, next[k].at)
    {
      NearAppend(log, f, id, i, k, next[k].at);
    }
    if Chained(next, id, i) {
      forall k | i < k < |log| && MarkOf(log[k], id)
        ensures Near(log, id, i, k, log[k].at)
      {
        assert next[k] == log[k];
      }
      assert next[|log|] == f;
    } else {
      var k :| i < k < |next| && MarkOf(next[k], id) && !Near(next, id, i, k, next[k].at);
      assert k < |log| ==> log[k] == next[k];
    }
  }

  lemma ChainedAtEnd(log: seq<Fact>, f: Fact, id: MessageId)
    ensures Chained(log + [f], id, |log|)
    ensures !EvictedSince(log + [f], id, |log|)
  {
  }

  lemma SummaryAfterOther(log: seq<Fact>, f: Fact, id: MessageId, t: Option<Entry>)
    requires f.id != id && Summarises(log, id, t)
    ensures Summarises(log + [f], id, t)
  {
    var next := log + [f];
    forall i | 0 <= i < |log|
      ensures next[i] == log[i]
      ensures EvictedSince(next, id, i) <==> EvictedSince(log, id, i)
      ensures Chained(next, id, i) <==> Chained(log, id, i)
    {
      EvictedSinceAppend(log, f, id, i);
      ChainedAppend(log, f, id, i);
    }
    if t.Some? {
      var m: nat :| LastMark(log, id, m) && log[m].at == t.value.seenAt && !EvictedSince(log, id, m);
      assert LastMark(next, id, m);
    }
  }

  lemma SummaryAfterEviction(log: seq<Fact>, id: MessageId)
    ensures Summarises(log + [Evicted(id)], id, None)
  {
    var next := log + [Evicted(id)];
    forall i | 0 <= i < |next| && MarkOf(next[i], id)
      ensures EvictedSince(next, id, i)
    {
      EvictedSinceAppend(log, Evicted(id), id, i);
    }
  }

  /** The heart of the refinement: a new mark extends the chain exactly when the
      previous summary has not expired, and starts a chain of its own otherwise. */
  lemma SummaryAfterMark(log: seq<Fact>, clock: int, id: MessageId, hook: WebhookId, at: int, t: Option<Entry>)
    requires Timed(log, clock) && clock <= at && Summarises(log, id, t)
    ensures Summarises(log + [Marked(id, hook, at)], id, Some(Entry(Carried(t, at) + {hook}, at)))
  {
    var f := Marked(id, hook, at);
    var next := log + [f];
    ChainedAtEnd(log, f, id);
    assert LastMark(next, id, |log|);
    forall i | 0 <= i < |log| && MarkOf(log[i], id) && !EvictedSince(log, id, i)
      ensures Chained(next, id, i) <==> Chained(log, id, i) && t.Some? && !Expired(t.value, at)
    {
      ChainedAppend(log, f, id, i);
      var m: nat :| LastMark(log, id, m) && log[m].at == t.value.seenAt && !EvictedSince(log, id, m);
      NearLast(log, clock, id, i, m, at);
    }
    forall h
      ensures h in Carried(t, at) + {hook} <==> InLive(next, id, h)
    {
      LiveAfterMark(log, id, hook, at, t, h);
    }
  }

  lemma LiveAfterMark(log: seq<Fact>, id: MessageId, hook: WebhookId, at: int, t: Option<Entry>, h: WebhookId)
    requires Summarises(log, id, t)
    requires forall i :: 0 <= i < |log| && MarkOf(log[i], id) && !EvictedSince(log, id, i) ==>
               (Chained(log + [Marked(id, hook, at)], id, i) <==>
                Chained(log, id, i) && t.Some? && !Expired(t.value, at))
    ensures h in Carried(t, at) + {hook} <==> InLive(log + [Marked(id, hook, at)], id, h)
  {
    var f := Marked(id, hook, at);
    var next := log + [f];
    ChainedAtEnd(log, f, id);
    forall i | 0 <= i < |log|
      ensures next[i] == log[i] && (EvictedSince(next, id, i) <==> EvictedSince(log, id, i))
    {
      EvictedSinceAppend(log, f, id, i);
    }
    if h == hook {
      assert next[|log|] == f;
      assert InLive(next, id, h);
    } else if h in Carried(t, at) {
      var i :| 0 <= i < |log| && MarkOf(log[i], id) && log[i].hook == h
               && Chained(log, id, i) && !EvictedSince(log, id, i);
      assert Chained(next, id, i);
    } else if InLive(next, id, h) {
      var i :| 0 <= i < |next| && MarkOf(next[i], id) && next[i].hook == h
               && Chained(next, id, i) && !EvictedSince(next, id, i);
      assert i < |log|;
      assert InLive(log, id, h);
    }
  }

  lemma {:induction false} TrackedSummarises(log: seq<Fact>, clock: int, id: MessageId)
    requires Timed(log, clock)
    ensures Summarises(log, id, Tracked(log, id))
  {
    if log != [] {
      var front, f := log[..|log| - 1], log[|log| - 1];
      assert log == front + [f];
      TrackedAppend(front, f, id);
      TrackedSummarises(front, if f.Marked? then f.at else clock, id);
      if f.id != id {
        SummaryAfterOther(front, f, id, Tracked(front, id));
      } else if f.Evicted? {
        SummaryAfterEviction(front, id);
      } else {
        SummaryAfterMark(front, f.at, id, f.hook, f.at, Tracked(front, id));
      }
    }
  }

  lemma HoldsIffSummary(log: seq<Fact>, clock: int, id: MessageId, hook: WebhookId, now: int)
    requires Timed(log, clock)
    ensures var t := Tracked(log, id);
            Holds(log, id, hook, now) <==> t.Some? && !Expired(t.value, now) && hook in t.value.webhooks
  {
    var t := Tracked(log, id);
    TrackedSummarises(log, clock, id);
    if t.Some? {
      var m: nat :| LastMark(log, id, m) && log[m].at == t.value.seenAt && !EvictedSince(log, id, m);
      forall i | 0 <= i < |log| && MarkOf(log[i], id)
        ensures i <= m && (Near(log, id, i, |log|, now) <==> !Expired(t.value, now))
      {
        NearLast(log, clock, id, i, m, now);
      }
    }
  }

  // ----- main results -----

  /** REFINEMENT. After every run with a forward clock, what the cache reports for
      an id is exactly the set of webhooks marked in its live chain since the id was
      last evicted for capacity; sweeps never show. */
  lemma ServedExactly(clock: int, events: seq<Event>, id: MessageId, now: int)
    requires Ordered(clock, events) && Exec(clock, events).clock <= now
    ensures var r := Exec(clock, events);
            forall hook :: hook in ServedBy(r.state, id, now) <==> Holds(r.log, id, hook, now)
  {
    var r := Exec(clock, events);
    RunSound(clock, events);
    forall hook
      ensures hook in ServedBy(r.state, id, now) <==> Holds(r.log, id, hook, now)
    {
      HoldsIffSummary(r.log, r.clock, id, hook, now);
    }
  }

  /** Whatever was evicted, the cache never suppresses a webhook outside the chain;
      and when no capacity eviction hit the id it suppresses all of the chain. */
  lemma ServedWithinChain(clock: int, events: seq<Event>, id: MessageId, now: int)
    requires Ordered(clock, events) && Exec(clock, events).clock <= now
    ensures var r := Exec(clock, events);
            forall hook :: hook in ServedBy(r.state, id, now) ==> InChain(r.log, id, hook, now)
    ensures var r := Exec(clock, events);
            Evicted(id) !in r.log ==>
              forall hook :: hook in ServedBy(r.state, id, now) <==> InChain(r.log, id, hook, now)
  {
    ServedExactly(clock, events, id, now);
    var r := Exec(clock, events);
    forall hook
      ensures Holds(r.log, id, hook, now) ==> InChain(r.log, id, hook, now)
      ensures Evicted(id) !in r.log && InChain(r.log, id, hook, now) ==> Holds(r.log, id, hook, now)
    {
      if Evicted(id) !in r.log && InChain(r.log, id, hook, now) {
        var i :| 0 <= i < |r.log| && MarkOf(r.log[i], id) && r.log[i].hook == hook && Linked(r.log, id, i, now);
        assert !EvictedSince(r.log, id, i);
      }
    }
  }

  // ----- when the capacity matters -----

  predicate MarksOnly(events: seq<Event>, ids: set<MessageId>) {
    forall i :: 0 <= i < |events| && events[i].Marking? ==> events[i].id in ids
  }

  predicate NoneEvicted(log: seq<Fact>) {
    forall k :: 0 <= k < |log| ==> log[k].Marked?
  }

  lemma {:induction false} FewNeverEvict(clock: int, events: seq<Event>, ids: set<MessageId>)
    requires Ordered(clock, events) && MarksOnly(events, ids) && |ids| <= CAPACITY
    ensures NoneEvicted(Exec(clock, events).log) && Exec(clock, events).state.entries.Keys <= ids
  {
    if events != [] {
      var front, e := events[..|events| - 1], events[|events| - 1];
      FewNeverEvict(clock, front, ids);
      var s := Exec(clock, front).state;
      if e.Marking? && e.id !in s.entries {
        assert s.entries.Keys <= ids - {e.id};
        SubsetSize(s.entries.Keys, ids - {e.id});
      }
    }
  }

  function MarkEach(ids: seq<MessageId>, hook: WebhookId): seq<Event> {
    seq(|ids|, i requires 0 <= i < |ids| => Marking(ids[i], hook, 0))
  }

  ghost predicate FilledWith(s: State, ids: seq<MessageId>) {
    s.order == ids && |s.entries| == |ids| && forall id :: id in s.entries <==> id in ids
  }

  lemma FillsOneMore(s: State, ids: seq<MessageId>, id: MessageId, hook: WebhookId)
    requires FilledWith(s, ids) && id !in ids && |ids| < CAPACITY
    ensures FilledWith(AfterMark(s, id, hook, 0), ids + [id])
  {
  }

  lemma MarkEachOn(ids: seq<MessageId>, id: MessageId, hook: WebhookId)
    ensures MarkEach(ids + [id], hook) == MarkEach(ids, hook) + [Marking(id, hook, 0)]
  {
  }

  lemma LastIsNew(ids: seq<MessageId>, id: MessageId)
    requires Distinct(ids + [id])
    ensures Distinct(ids) && id !in ids
  {
    var all := ids + [id];
    assert forall i :: 0 <= i < |ids| ==> all[i] == ids[i] && all[i] != all[|ids|];
  }

  lemma ExecOn(clock: int, events: seq<Event>, e: Event)
    ensures Exec(clock, events + [e]) == Step(Exec(clock, events), e)
  {
    assert (events + [e])[..|events|] == events;
  }

  /** Different ids fill the cache one by one. */
  lemma {:induction false} Fills(ids: seq<MessageId>, hook: WebhookId)
    requires Distinct(ids) && |ids| <= CAPACITY
    ensures FilledWith(Exec(0, MarkEach(ids, hook)).state, ids)
  {
    if ids != [] {
      var front, last := ids[..|ids| - 1], ids[|ids| - 1];
      assert ids == front + [last];
      LastIsNew(front, last);
      Fills(front, hook);
      MarkEachOn(front, last, hook);
      ExecOn(0, MarkEach(front, hook), Marking(last, hook, 0));
      FillsOneMore(Exec(0, MarkEach(front, hook)).state, front, last, hook);
    }
  }

  lemma {:induction false} Pick(ids: set<MessageId>, n: nat) returns (picked: seq<MessageId>)
    requires n <= |ids|
    ensures |picked| == n && Distinct(picked) && forall id :: id in picked ==> id in ids
    decreases n
  {
    picked := [];
    if n > 0 {
      var id :| id in ids;
      picked := Pick(ids - {id}, n - 1);
      picked := picked + [id];
    }
  }

  lemma MarkingEvicts(r: Run, id: MessageId, hook: WebhookId, at: int)
    requires Full(r.state, id) && r.state.order != []
    ensures !NoneEvicted(Step(r, Marking(id, hook, at)).log)
  {
    assert Step(r, Marking(id, hook, at)).log[|r.log|] == Evicted(r.state.order[0]);
  }

  lemma ManyEvict(ids: set<MessageId>) returns (events: seq<Event>)
    requires CAPACITY < |ids|
    ensures Ordered(0, events) && MarksOnly(events, ids) && !NoneEvicted(Exec(0, events).log)
  {
    var picked := Pick(ids, CAPACITY + 1);
    var front, last, hook := picked[..CAPACITY], picked[CAPACITY], WebhookId("");
    assert picked == front + [last];
    events := MarkEach(picked, hook);
    LastIsNew(front, last);
    Fills(front, hook);
    MarkEachOn(front, last, hook);
    ExecOn(0, MarkEach(front, hook), Marking(last, hook, 0));
    MarkingEvicts(Exec(0, MarkEach(front, hook)), last, hook, 0);
  }

  ghost predicate NeverEvict(ids: set<MessageId>) {
    forall clock, events :: Ordered(clock, events) && MarksOnly(events, ids) ==> NoneEvicted(Exec(clock, events).log)
  }

  /** EXACTLY when the capacity matters: no run whose marks are of these ids evicts one of
      them if and only if they fit into the cache. */
  lemma NeverEvictIffFew(ids: set<MessageId>)
    ensures NeverEvict(ids) <==> |ids| <= 1024
  {
    if |ids| <= CAPACITY {
      forall clock, events | Ordered(clock, events) && MarksOnly(events, ids)
        ensures NoneEvicted(Exec(clock, events).log)
      {
        FewNeverEvict(clock, events, ids);
      }
    } else {
      var events := ManyEvict(ids);
    }
  }

  /** As long as they fit, the cache reports exactly the live chain. */
  lemma ServedIsChain(clock: int, events: seq<Event>, ids: set<MessageId>, id: MessageId, now: int)
    requires Ordered(clock, events) && MarksOnly(events, ids) && |ids| <= CAPACITY
    requires Exec(clock, events).clock <= now
    ensures var r := Exec(clock, events);
            forall hook :: hook in ServedBy(r.state, id, now) <==> InChain(r.log, id, hook, now)
  {
    FewNeverEvict(clock, events, ids);
    ServedWithinChain(clock, events, id, now);
  }

  // ----- whom an eviction hits -----

  /** The event that put the id into the cache, as it is now. */
  function InsertedAt(clock: int, events: seq<Event>, id: MessageId): (at: int)
    ensures at < |events|
  {
    if events == [] then -1
    else
      var front, e := events[..|events| - 1], events[|events| - 1];
      if e.Marking? && e.id == id && id !in Exec(clock, front).state.entries then |events| - 1
      else InsertedAt(clock, front, id)
  }

  lemma MarkOrder(s: State, id: MessageId, hook: WebhookId, at: int)
    requires WellFormed(s)
    ensures AfterMark(s, id, hook, at).order ==
              if id in s.entries then s.order
              else (if |s.entries| >= CAPACITY then s.order[1..] else s.order) + [id]
  {
    if Full(s, id) {
      EvictionDropsFirstInserted(s);
    }
  }

  function StateAfter(s: State, e: Event): State {
    if e.Sweeping? then AfterSweep(s, e.at) else AfterMark(s, e.id, e.hook, e.at)
  }

  /** Of two ids in the list either the latter was just put there, or both were in the list
      before, in that order. */
  lemma PairStays(s: State, e: Event, i: nat, j: nat) returns (a: nat, b: nat)
    requires WellFormed(s) && i < j < |StateAfter(s, e).order|
    ensures var x, y := StateAfter(s, e).order[i], StateAfter(s, e).order[j];
            if e.Marking? && y == e.id && y !in s.entries then x != y
            else
              && a < b < |s.order| && s.order[a] == x && s.order[b] == y
              && (e.Marking? ==> (e.id == x || e.id == y ==> e.id in s.entries))
  {
    a, b := i, j;
    if e.Sweeping? {
      KeptInOrder(s.entries, s.order, e.at);
      assert Before(s.order, StateAfter(s, e).order[i], StateAfter(s, e).order[j]);
      a, b :| a < b < |s.order| && s.order[a] == StateAfter(s, e).order[i] && s.order[b] == StateAfter(s, e).order[j];
    } else {
      MarkOrder(s, e.id, e.hook, e.at);
      if e.id !in s.entries && |s.entries| >= CAPACITY && j < |StateAfter(s, e).order| - 1 {
        a, b := i + 1, j + 1;
      }
    }
  }

  lemma InsertedOn(clock: int, events: seq<Event>, id: MessageId)
    requires events != []
    ensures var front, e := events[..|events| - 1], events[|events| - 1];
            InsertedAt(clock, events, id) ==
              if e.Marking? && e.id == id && id !in Exec(clock, front).state.entries then |events| - 1
              else InsertedAt(clock, front, id)
  {
  }

  /** In every run the order list names the remembered ids in the order in which they came
      into the cache: what a full cache gives up came first of all it holds. */
  lemma {:induction false} OrderIsInsertion(clock: int, events: seq<Event>, i: nat, j: nat)
    requires Ordered(clock, events) && i < j < |Exec(clock, events).state.order|
    ensures var order := Exec(clock, events).state.order;
            InsertedAt(clock, events, order[i]) < InsertedAt(clock, events, order[j])
  {
    var order := Exec(clock, events).state.order;
    var front, e := events[..|events| - 1], events[|events| - 1];
    RunSound(clock, front);
    InsertedOn(clock, events, order[i]);
    InsertedOn(clock, events, order[j]);
    var s := Exec(clock, front).state;
    var a, b := PairStays(s, e, i, j);
    if !(e.Marking? && order[j] == e.id && order[j] !in s.entries) {
      OrderIsInsertion(clock, front, a, b);
    }
  }

  /** The TTL slides on every mark of the id: a webhook marked once stays suppressed
      long past one TTL of its own mark when another webhook is marked meanwhile. */
  lemma OwnMarkOutlived(id: MessageId, first: WebhookId, second: WebhookId, at: int)
    ensures var r := Exec(at, [Marking(id, first, at), Marking(id, second, at + TTL - 1)]);
            first in ServedBy(r.state, id, at + 2 * TTL - 2)
  {
  }
}
