/**
  Emission of assembled messages to the registered webhooks: the tracked enqueue
  loop (internal/webhooks/service.go) driven by the dedupe cache
  (internal/inbox/service.go). The enqueue verdicts, which the database decides,
  are inputs.
 */
module Emission {
  import opened Collections
  import opened Options
  import opened Dedupe
  import opened DedupeHistory

  /** EnqueueResult: the verdict for one webhook that was really attempted. */
  datatype Verdict = Verdict(hook: WebhookId, insert: Insert)

  /** What an enqueue comes to: the item is stored, or not, or it is stored although the
      statement is reported to have failed. */
  datatype Insert = Stored | Refused | Stray

  /** One queue item, as far as the dedupe is concerned; a stray one is not confirmed. */
  datatype Item = Item(id: MessageId, hook: WebhookId, at: int, confirmed: bool)

  function Verdicts(selected: seq<WebhookId>, inserts: seq<Insert>, served: set<WebhookId>): seq<Verdict>
    requires |inserts| == |selected|
  {
    if selected == [] then []
    else
      var n := |selected| - 1;
      Verdicts(selected[..n], inserts[..n], served)
      + (if selected[n] in served then [] else [Verdict(selected[n], inserts[n])])
  }

  function Suppressed(selected: seq<WebhookId>, served: set<WebhookId>): nat {
    if selected == [] then 0
    else
      Suppressed(selected[..|selected| - 1], served) + if selected[|selected| - 1] in served then 1 else 0
  }

  /** emitTracked: attempts every selected webhook that is not already served. */
  method EmitTracked(selected: seq<WebhookId>, inserts: seq<Insert>, served: seq<WebhookId>)
      returns (results: seq<Verdict>, suppressed: nat)
    requires |inserts| == |selected|
    ensures results == Verdicts(selected, inserts, set hook | hook in served)
    ensures suppressed == Suppressed(selected, set hook | hook in served)
  {
    var skip: set<WebhookId> := {};
    for i := 0 to |served|
      invariant skip == set hook | hook in served[..i]
    {
      skip := skip + {served[i]};
    }
    assert served[..|served|] == served;
    results, suppressed := [], 0;
    for i := 0 to |selected|
      invariant results == Verdicts(selected[..i], inserts[..i], skip)
      invariant suppressed == Suppressed(selected[..i], skip)
    {
      assert selected[..i + 1][..i] == selected[..i];
      assert inserts[..i + 1][..i] == inserts[..i];
      if selected[i] in skip {
        suppressed := suppressed + 1;
      } else {
        results := results + [Verdict(selected[i], inserts[i])];
      }
    }
    assert selected[..|selected|] == selected;
    assert inserts[..|inserts|] == inserts;
  }

  predicate HasVerdict(verdicts: seq<Verdict>, hook: WebhookId) {
    exists k :: 0 <= k < |verdicts| && verdicts[k].hook == hook
  }

  predicate OnePerHook(verdicts: seq<Verdict>) {
    forall i, j :: 0 <= i < j < |verdicts| ==> verdicts[i].hook != verdicts[j].hook
  }

  lemma VerdictAppend(verdicts: seq<Verdict>, v: Verdict, hook: WebhookId)
    ensures HasVerdict(verdicts + [v], hook) <==> HasVerdict(verdicts, hook) || hook == v.hook
  {
    var all := verdicts + [v];
    assert all[|verdicts|] == v;
    if HasVerdict(verdicts, hook) {
      var k :| 0 <= k < |verdicts| && verdicts[k].hook == hook;
      assert all[k].hook == hook;
    }
  }

  lemma {:induction false} VerdictsExact(
      selected: seq<WebhookId>, inserts: seq<Insert>, served: set<WebhookId>, hook: WebhookId)
    requires |inserts| == |selected|
    ensures HasVerdict(Verdicts(selected, inserts, served), hook) <==> hook in selected && hook !in served
    ensures |Verdicts(selected, inserts, served)| + Suppressed(selected, served) == |selected|
  {
    if selected != [] {
      var n := |selected| - 1;
      VerdictsExact(selected[..n], inserts[..n], served, hook);
      var front := Verdicts(selected[..n], inserts[..n], served);
      VerdictAppend(front, Verdict(selected[n], inserts[n]), hook);
      assert front + [] == front;
      assert selected == selected[..n] + [selected[n]];
    }
  }

  lemma {:induction false} VerdictsOnce(selected: seq<WebhookId>, inserts: seq<Insert>, served: set<WebhookId>)
    requires |inserts| == |selected| && Distinct(selected)
    ensures OnePerHook(Verdicts(selected, inserts, served))
  {
    if selected != [] {
      var n := |selected| - 1;
      VerdictsOnce(selected[..n], inserts[..n], served);
      VerdictsExact(selected[..n], inserts[..n], served, selected[n]);
    }
  }

  lemma {:induction false} VerdictsOwn(selected: seq<WebhookId>, inserts: seq<Insert>, served: set<WebhookId>, i: nat)
    requires |inserts| == |selected| && i < |selected| && selected[i] !in served
    ensures Verdict(selected[i], inserts[i]) in Verdicts(selected, inserts, served)
  {
    if i < |selected| - 1 {
      VerdictsOwn(selected[..|selected| - 1], inserts[..|selected| - 1], served, i);
    }
  }

  /** Each selected webhook is either suppressed or attempted exactly once, and the
      verdict reported for it is its own. */
  lemma SuppressedOrAttemptedOnce(selected: seq<WebhookId>, inserts: seq<Insert>, served: set<WebhookId>)
    requires |inserts| == |selected| && Distinct(selected)
    ensures var v := Verdicts(selected, inserts, served);
            && OnePerHook(v)
            && |v| + Suppressed(selected, served) == |selected|
            && (forall hook :: HasVerdict(v, hook) <==> hook in selected && hook !in served)
            && (forall i :: 0 <= i < |selected| && selected[i] !in served ==>
                  Verdict(selected[i], inserts[i]) in v)
  {
    VerdictsOnce(selected, inserts, served);
    forall hook ensures HasVerdict(Verdicts(selected, inserts, served), hook) <==> hook in selected && hook !in served {
      VerdictsExact(selected, inserts, served, hook);
    }
    VerdictsExact(selected, inserts, served, WebhookId(""));
    forall i | 0 <= i < |selected| && selected[i] !in served
      ensures Verdict(selected[i], inserts[i]) in Verdicts(selected, inserts, served)
    {
      VerdictsOwn(selected, inserts, served, i);
    }
  }

  predicate Ahead(verdicts: seq<Verdict>, v: Verdict, w: Verdict) {
    exists a, b :: 0 <= a < b < |verdicts| && verdicts[a] == v && verdicts[b] == w
  }

  lemma AheadAt(verdicts: seq<Verdict>, a: nat, b: nat)
    requires a < b < |verdicts|
    ensures Ahead(verdicts, verdicts[a], verdicts[b])
  {
  }

  /** And the attempts are made in the order of selection. */
  lemma {:induction false} AttemptedInOrder(
      selected: seq<WebhookId>, inserts: seq<Insert>, served: set<WebhookId>, i: nat, j: nat)
    requires |inserts| == |selected| && i < j < |selected| && selected[i] !in served && selected[j] !in served
    ensures Ahead(Verdicts(selected, inserts, served),
                  Verdict(selected[i], inserts[i]), Verdict(selected[j], inserts[j]))
  {
    var n := |selected| - 1;
    var front, v := Verdicts(selected[..n], inserts[..n], served), Verdicts(selected, inserts, served);
    if j < n {
      AttemptedInOrder(selected[..n], inserts[..n], served, i, j);
      var a, b :| 0 <= a < b < |front|
                  && front[a] == Verdict(selected[i], inserts[i]) && front[b] == Verdict(selected[j], inserts[j]);
      AheadAt(v, a, b);
    } else {
      VerdictsOwn(selected[..n], inserts[..n], served, i);
      var a :| 0 <= a < |front| && front[a] == Verdict(selected[i], inserts[i]);
      AheadAt(v, a, |front|);
    }
  }

  // ----- runs of the inbox loop -----

  datatype Notice =
    | Emission(id: MessageId, at: int, selected: seq<WebhookId>, inserts: seq<Insert>)
    | Tick(at: int)

  predicate WellTyped(n: Notice) {
    n.Emission? ==> |n.inserts| == |n.selected| && Distinct(n.selected)
  }

  /** The marks emitInbound makes: one per stored item, in order, at one instant. */
  function MarksOf(id: MessageId, verdicts: seq<Verdict>, at: int): seq<Event> {
    if verdicts == [] then []
    else
      MarksOf(id, verdicts[..|verdicts| - 1], at)
      + (if verdicts[|verdicts| - 1].insert.Stored? then [Marking(id, verdicts[|verdicts| - 1].hook, at)] else [])
  }

  function ItemOf(id: MessageId, v: Verdict, at: int): seq<Item> {
    if v.insert.Refused? then [] else [Item(id, v.hook, at, v.insert.Stored?)]
  }

  /** The items an emission leaves in the queue. */
  function ItemsOf(id: MessageId, verdicts: seq<Verdict>, at: int): seq<Item> {
    if verdicts == [] then []
    else ItemsOf(id, verdicts[..|verdicts| - 1], at) + ItemOf(id, verdicts[|verdicts| - 1], at)
  }

  function ExecFrom(r: Run, events: seq<Event>): Run {
    if events == [] then r
    else Step(ExecFrom(r, events[..|events| - 1]), events[|events| - 1])
  }

  /** The dedupe run together with the queue items stored so far. */
  datatype Pipeline = Pipeline(run: Run, queue: seq<Item>)

  function Outcome(p: Pipeline, n: Notice): seq<Verdict>
    requires n.Emission? && WellTyped(n)
  {
    Verdicts(n.selected, n.inserts, ServedBy(p.run.state, n.id, n.at))
  }

  function Notify(p: Pipeline, n: Notice): Pipeline
    requires WellTyped(n)
  {
    match n
    case Tick(at) => Pipeline(Step(p.run, Sweeping(at)), p.queue)
    case Emission(id, at, _, _) =>
      var v := Outcome(p, n);
      Pipeline(ExecFrom(p.run, MarksOf(id, v, at)), p.queue + ItemsOf(id, v, at))
  }

  predicate Schedule(clock: int, notices: seq<Notice>) {
    && (forall i :: 0 <= i < |notices| ==> WellTyped(notices[i]) && clock <= notices[i].at)
    && (forall i, j :: 0 <= i <= j < |notices| ==> notices[i].at <= notices[j].at)
  }

  function Play(clock: int, notices: seq<Notice>): Pipeline
    requires Schedule(clock, notices)
  {
    if notices == [] then Pipeline(Start(clock), [])
    else Notify(Play(clock, notices[..|notices| - 1]), notices[|notices| - 1])
  }

  // ----- what a run keeps -----

  /** The queue items a log of marks stands for. */
  function Items(log: seq<Fact>): seq<Item> {
    if log == [] then []
    else
      var f := log[|log| - 1];
      Items(log[..|log| - 1]) + (if f.Marked? then [Item(f.id, f.hook, f.at, true)] else [])
  }

  function Confirmed(queue: seq<Item>): seq<Item> {
    if queue == [] then []
    else Confirmed(queue[..|queue| - 1]) + if queue[|queue| - 1].confirmed then [queue[|queue| - 1]] else []
  }

  lemma ConfirmedOn(queue: seq<Item>, item: Item)
    ensures Confirmed(queue + [item]) == Confirmed(queue) + if item.confirmed then [item] else []
  {
    assert (queue + [item])[..|queue|] == queue;
  }

  /** No item was stored for a webhook that the chain of its message already held. */
  ghost predicate NoDoubleStore(log: seq<Fact>) {
    forall k :: 0 <= k < |log| && log[k].Marked? ==> !Holds(log[..k], log[k].id, log[k].hook, log[k].at)
  }

  ghost predicate Held(log: seq<Fact>, id: MessageId, hook: WebhookId, now: int) {
    var t := Tracked(log, id);
    t.Some? && !Expired(t.value, now) && hook in t.value.webhooks
  }

  /** A webhook outside the chain stays outside until it is marked itself. */
  lemma NotHeldAfter(r: Run, e: Event, id: MessageId, hook: WebhookId, since: int, now: int)
    requires since <= e.at && since <= now
    requires e.Marking? ==> e.id != id || e.hook != hook
    requires !Held(r.log, id, hook, since)
    ensures !Held(Step(r, e).log, id, hook, now)
  {
    if e.Sweeping? {
      assert Step(r, e).log == r.log;
    } else {
      var f := Marked(e.id, e.hook, e.at);
      if Full(r.state, e.id) && r.state.order != [] {
        var mid := r.log + [Evicted(r.state.order[0])];
        assert Step(r, e).log == mid + [f];
        TrackedAppend(r.log, Evicted(r.state.order[0]), id);
        TrackedAppend(mid, f, id);
      } else {
        assert Step(r, e).log == r.log + [f];
        TrackedAppend(r.log, f, id);
      }
    }
  }

  lemma {:induction false} NotHeldAfterMarks(
      r: Run, marked: MessageId, verdicts: seq<Verdict>, at: int, id: MessageId, hook: WebhookId, since: int, now: int)
    requires since <= at && since <= now
    requires marked == id ==> Verdict(hook, Stored) !in verdicts
    requires !Held(r.log, id, hook, since)
    ensures !Held(ExecFrom(r, MarksOf(marked, verdicts, at)).log, id, hook, now)
  {
    if verdicts == [] {
    } else {
      var front, v := verdicts[..|verdicts| - 1], verdicts[|verdicts| - 1];
      if v.insert.Stored? {
        var e := Marking(marked, v.hook, at);
        assert MarksOf(marked, verdicts, at) == MarksOf(marked, front, at) + [e];
        assert (MarksOf(marked, front, at) + [e])[..|MarksOf(marked, front, at)|] == MarksOf(marked, front, at);
        NotHeldAfterMarks(r, marked, front, at, id, hook, since, since);
        NotHeldAfter(ExecFrom(r, MarksOf(marked, front, at)), e, id, hook, since, now);
      } else {
        assert MarksOf(marked, verdicts, at) == MarksOf(marked, front, at);
        NotHeldAfterMarks(r, marked, front, at, id, hook, since, now);
      }
    }
  }

  ghost predicate Consistent(p: Pipeline) {
    Sound(p.run) && NoDoubleStore(p.run.log) && Items(p.run.log) == Confirmed(p.queue)
  }

  lemma NoDoubleStoreAppend(log: seq<Fact>, f: Fact)
    requires NoDoubleStore(log)
    requires f.Marked? ==> !Holds(log, f.id, f.hook, f.at)
    ensures NoDoubleStore(log + [f])
  {
    var next := log + [f];
    forall k | 0 <= k < |next| && next[k].Marked?
      ensures !Holds(next[..k], next[k].id, next[k].hook, next[k].at)
    {
      assert next[..k] == log[..k];
      if k == |log| {
        assert log[..k] == log;
      } else {
        assert next[k] == log[k];
      }
    }
  }

  /** The log just before a mark is appended: a full cache first gives up an id. */
  function LogBefore(r: Run, id: MessageId): seq<Fact> {
    if Full(r.state, id) && r.state.order != [] then r.log + [Evicted(r.state.order[0])] else r.log
  }

  lemma MarkNoDouble(r: Run, id: MessageId, hook: WebhookId, at: int)
    requires WellFormed(r.state) && Timed(r.log, r.clock) && NoDoubleStore(r.log)
    requires !Held(r.log, id, hook, at)
    ensures NoDoubleStore(LogBefore(r, id) + [Marked(id, hook, at)])
  {
    var mid := LogBefore(r, id);
    if mid != r.log {
      var gone := Evicted(r.state.order[0]);
      TrackedAppend(r.log, gone, id);
      NoDoubleStoreAppend(r.log, gone);
    }
    HoldsIffSummary(mid, r.clock, id, hook, at);
    NoDoubleStoreAppend(mid, Marked(id, hook, at));
  }

  lemma MarkItems(r: Run, id: MessageId, hook: WebhookId, at: int)
    ensures Step(r, Marking(id, hook, at)).log == LogBefore(r, id) + [Marked(id, hook, at)]
    ensures Items(Step(r, Marking(id, hook, at)).log) == Items(r.log) + [Item(id, hook, at, true)]
  {
  }

  lemma MarkConsistent(p: Pipeline, id: MessageId, hook: WebhookId, at: int)
    requires Consistent(p) && p.run.clock <= at && !Held(p.run.log, id, hook, at)
    ensures Consistent(Pipeline(Step(p.run, Marking(id, hook, at)), p.queue + [Item(id, hook, at, true)]))
  {
    StepSound(p.run, Marking(id, hook, at));
    ConfirmedOn(p.queue, Item(id, hook, at, true));
    MarkItems(p.run, id, hook, at);
    MarkNoDouble(p.run, id, hook, at);
  }

  lemma MarksAppend(r: Run, id: MessageId, front: seq<Verdict>, v: Verdict, at: int)
    ensures v.insert.Stored? ==>
              ExecFrom(r, MarksOf(id, front + [v], at)) ==
                Step(ExecFrom(r, MarksOf(id, front, at)), Marking(id, v.hook, at))
    ensures ItemsOf(id, front + [v], at) == ItemsOf(id, front, at) + ItemOf(id, v, at)
    ensures !v.insert.Stored? ==> MarksOf(id, front + [v], at) == MarksOf(id, front, at)
  {
  }

  /** The state part way through the marks of one emission. */
  function Partial(p: Pipeline, id: MessageId, verdicts: seq<Verdict>, at: int): Pipeline {
    Pipeline(ExecFrom(p.run, MarksOf(id, verdicts, at)), p.queue + ItemsOf(id, verdicts, at))
  }

  /** One more verdict is one more mark and item, a stray item, or nothing. */
  lemma PartialAppend(p: Pipeline, id: MessageId, front: seq<Verdict>, v: Verdict, at: int)
    ensures var q := Partial(p, id, front, at);
            Partial(p, id, front + [v], at) ==
              Pipeline(if v.insert.Stored? then Step(q.run, Marking(id, v.hook, at)) else q.run,
                       q.queue + ItemOf(id, v, at))
  {
    MarksAppend(p.run, id, front, v, at);
    Regroup(p.queue, ItemsOf(id, front, at), ItemOf(id, v, at));
  }

  lemma Regroup(queue: seq<Item>, items: seq<Item>, more: seq<Item>)
    ensures queue + (items + more) == (queue + items) + more
  {
  }

  lemma {:induction false} MarksConsistent(p: Pipeline, id: MessageId, verdicts: seq<Verdict>, at: int)
    requires Consistent(p) && p.run.clock <= at && OnePerHook(verdicts)
    requires forall k :: 0 <= k < |verdicts| ==> !Held(p.run.log, id, verdicts[k].hook, at)
    ensures Consistent(Partial(p, id, verdicts, at))
    ensures p.run.clock <= Partial(p, id, verdicts, at).run.clock <= at
  {
    if verdicts == [] {
      assert p.queue + [] == p.queue;
    } else {
      var front, v := verdicts[..|verdicts| - 1], verdicts[|verdicts| - 1];
      assert verdicts == front + [v];
      MarksConsistent(p, id, front, at);
      PartialAppend(p, id, front, v, at);
      if v.insert.Stored? {
        NotHeldAfterMarks(p.run, id, front, at, id, v.hook, at, at);
        MarkConsistent(Partial(p, id, front, at), id, v.hook, at);
      } else if v.insert.Stray? {
        ConfirmedOn(Partial(p, id, front, at).queue, Item(id, v.hook, at, false));
      } else {
        assert Partial(p, id, front, at).queue + [] == Partial(p, id, front, at).queue;
      }
    }
  }

  lemma ServedIffHeld(r: Run, id: MessageId, hook: WebhookId, now: int)
    requires Sound(r) && r.clock <= now
    ensures hook in ServedBy(r.state, id, now) <==> Held(r.log, id, hook, now)
  {
  }

  lemma NotifyConsistent(p: Pipeline, n: Notice)
    requires Consistent(p) && WellTyped(n) && p.run.clock <= n.at
    ensures Consistent(Notify(p, n)) && p.run.clock <= Notify(p, n).run.clock <= n.at
  {
    match n
    case Tick(at) =>
      StepSound(p.run, Sweeping(at));
      assert Step(p.run, Sweeping(at)).log == p.run.log;
    case Emission(id, at, selected, inserts) =>
      var v := Outcome(p, n);
      SuppressedOrAttemptedOnce(selected, inserts, ServedBy(p.run.state, id, at));
      forall k | 0 <= k < |v| ensures !Held(p.run.log, id, v[k].hook, at) {
        assert HasVerdict(v, v[k].hook);
        ServedIffHeld(p.run, id, v[k].hook, at);
      }
      MarksConsistent(p, id, v, at);
  }

  /** Every run keeps: the marks in the log are exactly the items confirmed, in order,
      and no two items of one (message, webhook) fall into one chain, unless the
      message was evicted for capacity in between. */
  lemma {:induction false} PlayConsistent(clock: int, notices: seq<Notice>)
    requires Schedule(clock, notices)
    ensures Consistent(Play(clock, notices))
    ensures clock <= Play(clock, notices).run.clock
    ensures forall i :: 0 <= i < |notices| ==>
              notices[i].at <= notices[|notices| - 1].at && Play(clock, notices).run.clock <= notices[|notices| - 1].at
    ensures notices == [] ==> Play(clock, notices).run.clock == clock
  {
    if notices != [] {
      var front := notices[..|notices| - 1];
      PlayConsistent(clock, front);
      NotifyConsistent(Play(clock, front), notices[|notices| - 1]);
    }
  }

  lemma ReadyFor(clock: int, notices: seq<Notice>, n: Notice)
    requires Schedule(clock, notices + [n])
    ensures Schedule(clock, notices) && Consistent(Play(clock, notices))
    ensures WellTyped(n) && Play(clock, notices).run.clock <= n.at
  {
    var all := notices + [n];
    assert all[|notices|] == n;
    assert Schedule(clock, notices) by {
      assert forall i :: 0 <= i < |notices| ==> all[i] == notices[i];
    }
    PlayConsistent(clock, notices);
    if notices != [] {
      assert all[|notices| - 1] == notices[|notices| - 1];
    }
  }

  /** A webhook is suppressed only for a reason: an item of this very message was
      stored for it in the chain that reaches the notification. */
  lemma SuppressedWasStored(clock: int, notices: seq<Notice>, n: Notice, hook: WebhookId)
    requires Schedule(clock, notices + [n]) && n.Emission?
    requires Schedule(clock, notices) && WellTyped(n) && hook in n.selected
    requires !HasVerdict(Outcome(Play(clock, notices), n), hook)
    ensures var log := Play(clock, notices).run.log;
            exists i: nat :: i < |log| && log[i].Marked? && log[i].id == n.id && log[i].hook == hook
                             && Linked(log, n.id, i, n.at)
                             && Item(n.id, hook, log[i].at, true) in Play(clock, notices).queue
  {
    ReadyFor(clock, notices, n);
    var p := Play(clock, notices);
    SuppressedOrAttemptedOnce(n.selected, n.inserts, ServedBy(p.run.state, n.id, n.at));
    ServedIffHeld(p.run, n.id, hook, n.at);
    HoldsIffSummary(p.run.log, p.run.clock, n.id, hook, n.at);
    var i :| 0 <= i < |p.run.log| && MarkOf(p.run.log[i], n.id) && p.run.log[i].hook == hook
             && Linked(p.run.log, n.id, i, n.at) && !EvictedSince(p.run.log, n.id, i);
    MarkIsItem(p.run.log, i);
    ConfirmedIsQueued(p.queue);
  }

  lemma {:induction false} MarkIsItem(log: seq<Fact>, i: nat)
    requires i < |log| && log[i].Marked?
    ensures Item(log[i].id, log[i].hook, log[i].at, true) in Items(log)
  {
    if i < |log| - 1 {
      MarkIsItem(log[..|log| - 1], i);
    }
  }

  lemma {:induction false} ConfirmedIsQueued(queue: seq<Item>)
    ensures forall item :: item in Confirmed(queue) <==> item in queue && item.confirmed
  {
    if queue != [] {
      ConfirmedIsQueued(queue[..|queue| - 1]);
      assert queue == queue[..|queue| - 1] + [queue[|queue| - 1]];
    }
  }

  lemma UnstoredStaysUnserved(
      p: Pipeline, n: Notice, id: MessageId, hook: WebhookId, since: int, now: int)
    requires WellTyped(n) && since <= n.at && since <= now
    requires !Held(p.run.log, id, hook, since)
    requires n.Emission? && n.id == id ==> Verdict(hook, Stored) !in Outcome(p, n)
    ensures !Held(Notify(p, n).run.log, id, hook, now)
  {
    if n.Tick? {
      NotHeldAfter(p.run, Sweeping(n.at), id, hook, since, now);
    } else {
      NotHeldAfterMarks(p.run, n.id, Outcome(p, n), n.at, id, hook, since, now);
    }
  }

  lemma UnselectedIsUnstored(p: Pipeline, n: Notice, hook: WebhookId)
    requires n.Emission? && WellTyped(n) && hook !in n.selected
    ensures Verdict(hook, Stored) !in Outcome(p, n)
  {
    SuppressedOrAttemptedOnce(n.selected, n.inserts, ServedBy(p.run.state, n.id, n.at));
    assert !HasVerdict(Outcome(p, n), hook);
  }

  lemma ScheduleSplit(clock: int, front: seq<Notice>, back: seq<Notice>)
    requires Schedule(clock, front + back)
    ensures Schedule(clock, front)
    ensures forall i, j :: 0 <= i < |front| && 0 <= j < |back| ==> front[i].at <= back[j].at
    ensures forall j :: 0 <= j < |back| ==> WellTyped(back[j]) && clock <= back[j].at
  {
    var all := front + back;
    assert forall i :: 0 <= i < |front| ==> all[i] == front[i];
    assert forall j :: 0 <= j < |back| ==> all[|front| + j] == back[j];
  }

  lemma PlayAppend(clock: int, notices: seq<Notice>, n: Notice)
    requires Schedule(clock, notices + [n])
    ensures Schedule(clock, notices) && WellTyped(n)
    ensures Play(clock, notices + [n]) == Notify(Play(clock, notices), n)
  {
    ScheduleSplit(clock, notices, [n]);
    assert [n][0] == n;
    assert (notices + [n])[..|notices|] == notices;
  }

  /** Notices that never select the webhook for the message leave it unserved. */
  lemma {:induction false} StaysUnserved(
      clock: int, notices: seq<Notice>, later: seq<Notice>, id: MessageId, hook: WebhookId, since: int, now: int)
    requires Schedule(clock, notices + later) && Schedule(clock, notices) && since <= now
    requires forall k :: 0 <= k < |later| ==>
               since <= later[k].at && (later[k].Emission? && later[k].id == id ==> hook !in later[k].selected)
    requires !Held(Play(clock, notices).run.log, id, hook, since)
    ensures !Held(Play(clock, notices + later).run.log, id, hook, now)
  {
    if later == [] {
      assert notices + later == notices;
    } else {
      var front, n := later[..|later| - 1], later[|later| - 1];
      assert notices + later == notices + front + [n];
      PlayAppend(clock, notices + front, n);
      StaysUnserved(clock, notices, front, id, hook, since, since);
      var p := Play(clock, notices + front);
      if n.Emission? && n.id == id {
        UnselectedIsUnstored(p, n, hook);
      }
      UnstoredStaysUnserved(p, n, id, hook, since, now);
    }
  }

  /** A failed attempt leaves its webhook unserved. */
  lemma FailedIsUnserved(p: Pipeline, n: Notice, hook: WebhookId, insert: Insert)
    requires Consistent(p) && n.Emission? && WellTyped(n) && p.run.clock <= n.at
    requires Verdict(hook, insert) in Outcome(p, n) && !insert.Stored?
    ensures !Held(Notify(p, n).run.log, n.id, hook, n.at)
  {
    var v := Outcome(p, n);
    SuppressedOrAttemptedOnce(n.selected, n.inserts, ServedBy(p.run.state, n.id, n.at));
    assert HasVerdict(v, hook);
    ServedIffHeld(p.run, n.id, hook, n.at);
    OnlyVerdict(v, hook, insert);
    UnstoredStaysUnserved(p, n, n.id, hook, n.at, n.at);
  }

  /** A webhook whose enqueue failed is attempted again at the next notification of
      the message that selects it, whatever was marked, swept or evicted meanwhile. */
  lemma FailedIsRetried(
      clock: int, notices: seq<Notice>, failing: Notice, later: seq<Notice>, again: Notice, hook: WebhookId,
      insert: Insert)
    requires Schedule(clock, notices + [failing] + later + [again])
    requires Schedule(clock, notices) && Schedule(clock, notices + [failing] + later)
    requires failing.Emission? && again.Emission? && again.id == failing.id && hook in again.selected
    requires WellTyped(failing) && WellTyped(again)
    requires Verdict(hook, insert) in Outcome(Play(clock, notices), failing) && !insert.Stored?
    requires forall k :: 0 <= k < |later| && later[k].Emission? && later[k].id == failing.id ==>
               hook !in later[k].selected
    ensures HasVerdict(Outcome(Play(clock, notices + [failing] + later), again), hook)
  {
    var head := notices + [failing];
    ScheduleSplit(clock, head, later);
    assert head[|notices|] == failing;
    ReadyFor(clock, notices, failing);
    PlayAppend(clock, notices, failing);
    FailedIsUnserved(Play(clock, notices), failing, hook, insert);
    ReadyFor(clock, head + later, again);
    assert (head + later)[|notices|] == failing;
    assert failing.at <= again.at by {
      ScheduleSplit(clock, head + later, [again]);
      assert [again][0] == again;
    }
    StaysUnserved(clock, head, later, failing.id, hook, failing.at, again.at);
    AttemptedWhenUnserved(Play(clock, head + later), again, hook);
  }

  lemma AttemptedWhenUnserved(p: Pipeline, n: Notice, hook: WebhookId)
    requires Consistent(p) && n.Emission? && WellTyped(n) && p.run.clock <= n.at
    requires hook in n.selected && !Held(p.run.log, n.id, hook, n.at)
    ensures HasVerdict(Outcome(p, n), hook)
  {
    SuppressedOrAttemptedOnce(n.selected, n.inserts, ServedBy(p.run.state, n.id, n.at));
    ServedIffHeld(p.run, n.id, hook, n.at);
  }

  lemma OnlyVerdict(verdicts: seq<Verdict>, hook: WebhookId, insert: Insert)
    requires OnePerHook(verdicts) && Verdict(hook, insert) in verdicts && !insert.Stored?
    ensures Verdict(hook, Stored) !in verdicts
  {
  }

  lemma {:induction false} VerdictIsItem(id: MessageId, verdicts: seq<Verdict>, at: int, v: Verdict)
    requires v in verdicts && !v.insert.Refused?
    ensures Item(id, v.hook, at, v.insert.Stored?) in ItemsOf(id, verdicts, at)
  {
    var last := verdicts[|verdicts| - 1];
    assert verdicts == verdicts[..|verdicts| - 1] + [last];
    if v == last {
      assert Item(id, v.hook, at, v.insert.Stored?) in ItemOf(id, last, at);
    } else {
      VerdictIsItem(id, verdicts[..|verdicts| - 1], at, v);
    }
  }

  /** What is queued stays queued. */
  lemma {:induction false} QueueGrows(clock: int, notices: seq<Notice>, later: seq<Notice>, item: Item)
    requires Schedule(clock, notices) && Schedule(clock, notices + later) && item in Play(clock, notices).queue
    ensures item in Play(clock, notices + later).queue
  {
    if later == [] {
      assert notices + later == notices;
    } else {
      var front, n := later[..|later| - 1], later[|later| - 1];
      assert notices + later == notices + front + [n];
      PlayAppend(clock, notices + front, n);
      QueueGrows(clock, notices, front, item);
    }
  }

  /** A webhook that is not served is attempted with what its enqueue comes to. */
  lemma AttemptedAsIs(p: Pipeline, n: Notice, i: nat)
    requires n.Emission? && WellTyped(n) && i < |n.selected|
    requires HasVerdict(Outcome(p, n), n.selected[i])
    ensures Verdict(n.selected[i], n.inserts[i]) in Outcome(p, n)
  {
    SuppressedOrAttemptedOnce(n.selected, n.inserts, ServedBy(p.run.state, n.id, n.at));
  }

  /** A STRAY ITEM IS DOUBLED. An item that was stored although its enqueue is reported to
      have failed is not marked: the next notification that selects the webhook stores a
      second one for the same message, however soon it comes. */
  lemma StrayIsDoubled(
      clock: int, notices: seq<Notice>, failing: Notice, later: seq<Notice>, again: Notice, hook: WebhookId, i: nat)
    requires Schedule(clock, notices + [failing] + later + [again])
    requires Schedule(clock, notices) && Schedule(clock, notices + [failing] + later)
    requires failing.Emission? && again.Emission? && again.id == failing.id
    requires WellTyped(failing) && WellTyped(again)
    requires Verdict(hook, Stray) in Outcome(Play(clock, notices), failing)
    requires forall k :: 0 <= k < |later| && later[k].Emission? && later[k].id == failing.id ==>
               hook !in later[k].selected
    requires i < |again.selected| && again.selected[i] == hook && again.inserts[i].Stored?
    ensures var queue := Play(clock, notices + [failing] + later + [again]).queue;
            Item(again.id, hook, failing.at, false) in queue && Item(again.id, hook, again.at, true) in queue
  {
    var head := notices + [failing];
    FailedIsRetried(clock, notices, failing, later, again, hook, Stray);
    ScheduleSplit(clock, head, later);
    PlayAppend(clock, notices, failing);
    VerdictIsItem(failing.id, Outcome(Play(clock, notices), failing), failing.at, Verdict(hook, Stray));
    QueueGrows(clock, head, later, Item(again.id, hook, failing.at, false));
    PlayAppend(clock, head + later, again);
    AttemptedAsIs(Play(clock, head + later), again, i);
    VerdictIsItem(again.id, Outcome(Play(clock, head + later), again), again.at, Verdict(hook, Stored));
  }

  /** Two items stored for one webhook of one message are never in one chain, unless
      the cache evicted the message between them. */
  lemma StoredOncePerChain(clock: int, notices: seq<Notice>, i: nat, k: nat)
    requires Schedule(clock, notices)
    requires var log := Play(clock, notices).run.log;
             i < k < |log| && log[i].Marked? && log[k].Marked? && log[i].id == log[k].id && log[i].hook == log[k].hook
    ensures var log := Play(clock, notices).run.log;
            !Linked(log[..k], log[k].id, i, log[k].at) || EvictedSince(log[..k], log[k].id, i)
  {
    PlayConsistent(clock, notices);
    var log := Play(clock, notices).run.log;
    assert log[..k][i] == log[i];
    assert !Holds(log[..k], log[k].id, log[k].hook, log[k].at);
  }
}
