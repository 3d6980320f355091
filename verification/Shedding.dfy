/**
  Bounded shedding: with the consumer channel full throughout, three error-free sweeps
  delete every one of at most 64 entries whose budget keys are distinct - and what goes
  wrong when two entries share a key.
 */
module Shedding {
  import opened Collections
  import opened Options
  import opened Budget
  import opened StoreRoute

  /** Every read works and the first delete of every route is confirmed. */
  predicate ErrorFree(env: Env) {
    env.readOk && env.replies != [] && env.replies[0] == Confirmed
  }

  // ----- one visit -----

  /** The attempts a reference has spent, as the code sees them at a given time. */
  predicate Holds(budgets: Budgets, ref: StoredRef, attempts: nat, seenAt: int) {
    if attempts == 0 then ref !in budgets
    else ref in budgets && budgets[ref] == Spent(attempts, seenAt)
  }

  /** The visit of one entry leaves the budget of every other reference alone, as long as
      the other budget is inside its window. */
  lemma OtherVisit(w: World, slot: Slot, env: Env, refs: set<StoredRef>, ref: StoredRef, attempts: nat, seenAt: int)
    requires Full(w) && env.replies != [] && VictimChosen(w, slot, env)
    requires Few(w.budgets, refs) && RefOf(slot) in refs && ref != RefOf(slot)
    requires Holds(w.budgets, ref, attempts, seenAt) && env.now - seenAt < WINDOW
    ensures Holds(Route(w, slot, true, env).budgets, ref, attempts, seenAt)
  {
    NeverCrowded(w.budgets, refs, RefOf(slot), env.now);
    DeleteAllKeeps(Route1(w, slot, env).world, slot, env.replies);
  }

  /** A route up to its delete. */
  function Route1(w: World, slot: Slot, env: Env): Outcome {
    var read := AfterRead(w, slot, true, env.readOk, |env.replies|);
    if read.phase.Offering? then
      AfterOffer(read.world, slot, read.phase.entry, env.now, env.victim, |env.replies|)
    else read
  }

  lemma {:induction false} DeleteAllKeeps(w: World, slot: Slot, replies: seq<Reply>)
    requires replies != []
    ensures DeleteAll(w, slot, replies).budgets == w.budgets && DeleteAll(w, slot, replies).channel == w.channel
    ensures DeleteAll(w, slot, replies).store == w.store || DeleteAll(w, slot, replies).store == w.store - {slot}
    decreases |replies|
  {
    if replies[0].Refused? && |replies| > 1 {
      DeleteAllKeeps(if replies[0].applied then Removed(w, slot) else w, slot, replies[1..]);
    }
  }

  /** What any visit keeps while the channel is full. */
  lemma VisitKeeps(w: World, slot: Slot, env: Env, refs: set<StoredRef>)
    requires Full(w) && env.replies != [] && VictimChosen(w, slot, env)
    requires Few(w.budgets, refs) && RefOf(slot) in refs
    ensures var next := Route(w, slot, true, env);
            && Few(next.budgets, refs) && Full(next) && next.channel == w.channel
            && (next.store == w.store || next.store == w.store - {slot})
  {
    NeverCrowded(w.budgets, refs, RefOf(slot), env.now);
    DeleteAllKeeps(Route1(w, slot, env).world, slot, env.replies);
  }

  /** The first and second visit of an entry keep it and count channel_full; the third
      deletes it and counts channel_full_exhausted. */
  lemma OwnVisit(w: World, slot: Slot, env: Env, refs: set<StoredRef>, attempts: nat, seenAt: int)
    requires Full(w) && ErrorFree(env) && VictimChosen(w, slot, env)
    requires slot in w.store && w.store[slot].decodes
    requires Few(w.budgets, refs) && RefOf(slot) in refs
    requires Holds(w.budgets, RefOf(slot), attempts, seenAt) && attempts < RETRIES
    requires 0 < attempts ==> env.now - seenAt < WINDOW
    ensures var next := Route(w, slot, true, env);
            if attempts + 1 < RETRIES then
              && next == w.(budgets := next.budgets, tally := w.tally.(channelFull := w.tally.channelFull + 1))
              && Holds(next.budgets, RefOf(slot), attempts + 1, env.now)
            else
              && next == w.(budgets := next.budgets, store := w.store - {slot},
                            tally := w.tally.(exhausted := w.tally.exhausted + 1))
              && Holds(next.budgets, RefOf(slot), 0, env.now)
  {
  }

  // ----- runs of visits -----

  /** A run of sweeps, flattened: each visit names a slot and what its route meets. */
  predicate Script(slots: seq<Slot>, envs: seq<Env>, refs: set<StoredRef>) {
    && |slots| == |envs|
    && (forall i :: 0 <= i < |slots| ==> RefOf(slots[i]) in refs && ErrorFree(envs[i]))
    && (forall i, j :: 0 <= i <= j < |envs| ==> envs[i].now <= envs[j].now)
  }

  ghost predicate Starting(w: World, slots: seq<Slot>, envs: seq<Env>, refs: set<StoredRef>) {
    && Script(slots, envs, refs) && |refs| <= REFS
    && Full(w) && w.budgets == map[]
    && Answering(envs) && PassChosen(w, slots, envs)
  }

  /** The world before the k-th visit. */
  ghost function At(w: World, slots: seq<Slot>, envs: seq<Env>, k: nat): World
    requires |slots| == |envs| && Answering(envs) && k <= |slots|
  {
    Pass(w, slots[..k], envs[..k])
  }

  lemma {:induction false} ChosenPrefix(w: World, slots: seq<Slot>, envs: seq<Env>, k: nat)
    requires |slots| == |envs| && Answering(envs) && PassChosen(w, slots, envs) && k < |slots|
    ensures VictimChosen(At(w, slots, envs, k), slots[k], envs[k])
    ensures At(w, slots, envs, k + 1) == Route(At(w, slots, envs, k), slots[k], true, envs[k])
    decreases |slots|
  {
    var n := |slots| - 1;
    assert slots[..k + 1][..k] == slots[..k] && envs[..k + 1][..k] == envs[..k];
    if k < n {
      ChosenPrefix(w, slots[..n], envs[..n], k);
      assert slots[..n][..k] == slots[..k] && envs[..n][..k] == envs[..k];
      assert slots[..n][..k + 1] == slots[..k + 1] && envs[..n][..k + 1] == envs[..k + 1];
    } else {
      assert slots[..k + 1] == slots && envs[..k + 1] == envs;
    }
  }

  lemma {:induction false} RunKeeps(w: World, slots: seq<Slot>, envs: seq<Env>, refs: set<StoredRef>, k: nat)
    requires Starting(w, slots, envs, refs) && k <= |slots|
    ensures Few(At(w, slots, envs, k).budgets, refs) && Full(At(w, slots, envs, k))
  {
    if k == 0 {
      assert At(w, slots, envs, 0) == w;
    } else {
      RunKeeps(w, slots, envs, refs, k - 1);
      ChosenPrefix(w, slots, envs, k - 1);
      VisitKeeps(At(w, slots, envs, k - 1), slots[k - 1], envs[k - 1], refs);
    }
  }

  /** The three visits of one entry, in a run where nothing else shares its budget. */
  datatype Thrice = Thrice(slot: Slot, first: nat, second: nat, third: nat)

  predicate VisitedThrice(slots: seq<Slot>, envs: seq<Env>, v: Thrice)
    requires |slots| == |envs|
  {
    && v.first < v.second < v.third < |slots|
    && slots[v.first] == slots[v.second] == slots[v.third] == v.slot
    && (forall j :: 0 <= j < |slots| && RefOf(slots[j]) == RefOf(v.slot) ==> j in {v.first, v.second, v.third})
    && envs[v.second].now - envs[v.first].now < WINDOW
    && envs[v.third].now - envs[v.second].now < WINDOW
  }

  function AttemptsAt(v: Thrice, k: nat): nat {
    if k <= v.first then 0 else if k <= v.second then 1 else if k <= v.third then 2 else 0
  }

  function SeenAt(envs: seq<Env>, v: Thrice, k: nat): int
    requires v.first < |envs| && v.second < |envs|
  {
    if k <= v.second then envs[v.first].now else envs[v.second].now
  }

  /** How one entry fares: untouched until its third visit, gone after it. */
  ghost predicate OnTrack(w: World, slots: seq<Slot>, envs: seq<Env>, v: Thrice, k: nat)
    requires |slots| == |envs| && Answering(envs) && k <= |slots| && VisitedThrice(slots, envs, v)
    requires v.slot in w.store
  {
    var now := At(w, slots, envs, k);
    && Holds(now.budgets, RefOf(v.slot), AttemptsAt(v, k), SeenAt(envs, v, k))
    && (v.slot in now.store <==> k <= v.third)
    && (v.slot in now.store ==> now.store[v.slot] == w.store[v.slot])
  }

  lemma TrackOther(w: World, slots: seq<Slot>, envs: seq<Env>, refs: set<StoredRef>, v: Thrice, k: nat)
    requires Starting(w, slots, envs, refs) && k < |slots| && VisitedThrice(slots, envs, v)
    requires v.slot in w.store && OnTrack(w, slots, envs, v, k)
    requires k !in {v.first, v.second, v.third}
    ensures OnTrack(w, slots, envs, v, k + 1)
  {
    RunKeeps(w, slots, envs, refs, k);
    ChosenPrefix(w, slots, envs, k);
    var now := At(w, slots, envs, k);
    VisitKeeps(now, slots[k], envs[k], refs);
    assert slots[k] != v.slot;
    if AttemptsAt(v, k) == 0 {
      OtherVisit(now, slots[k], envs[k], refs, RefOf(v.slot), 0, envs[k].now);
    } else {
      OtherVisit(now, slots[k], envs[k], refs, RefOf(v.slot), AttemptsAt(v, k), SeenAt(envs, v, k));
    }
  }

  lemma TrackOwn(w: World, slots: seq<Slot>, envs: seq<Env>, refs: set<StoredRef>, v: Thrice, k: nat)
    requires Starting(w, slots, envs, refs) && k < |slots| && VisitedThrice(slots, envs, v)
    requires v.slot in w.store && w.store[v.slot].decodes && OnTrack(w, slots, envs, v, k)
    requires k in {v.first, v.second, v.third}
    ensures OnTrack(w, slots, envs, v, k + 1)
    ensures var now, next := At(w, slots, envs, k), At(w, slots, envs, k + 1);
            next == if k < v.third then
                      now.(budgets := next.budgets, tally := now.tally.(channelFull := now.tally.channelFull + 1))
                    else
                      now.(budgets := next.budgets, store := now.store - {v.slot},
                           tally := now.tally.(exhausted := now.tally.exhausted + 1))
  {
    RunKeeps(w, slots, envs, refs, k);
    ChosenPrefix(w, slots, envs, k);
    var now := At(w, slots, envs, k);
    if k == v.first {
      OwnVisit(now, slots[k], envs[k], refs, 0, 0);
    } else {
      OwnVisit(now, slots[k], envs[k], refs, AttemptsAt(v, k), SeenAt(envs, v, k));
    }
  }

  lemma {:induction false} StaysOnTrack(
      w: World, slots: seq<Slot>, envs: seq<Env>, refs: set<StoredRef>, v: Thrice, k: nat)
    requires Starting(w, slots, envs, refs) && k <= |slots| && VisitedThrice(slots, envs, v)
    requires v.slot in w.store && w.store[v.slot].decodes
    ensures OnTrack(w, slots, envs, v, k)
  {
    if k == 0 {
      assert At(w, slots, envs, 0) == w;
    } else {
      StaysOnTrack(w, slots, envs, refs, v, k - 1);
      if k - 1 in {v.first, v.second, v.third} {
        TrackOwn(w, slots, envs, refs, v, k - 1);
      } else {
        TrackOther(w, slots, envs, refs, v, k - 1);
      }
    }
  }

  /** The visit keeps the entry and counts it as channel_full. */
  predicate Kept(now: World, next: World) {
    next == now.(budgets := next.budgets, tally := now.tally.(channelFull := now.tally.channelFull + 1))
  }

  /** The visit deletes the entry and counts it as channel_full_exhausted. */
  predicate Shed(now: World, next: World, slot: Slot) {
    && slot in now.store
    && next == now.(budgets := next.budgets, store := now.store - {slot},
                    tally := now.tally.(exhausted := now.tally.exhausted + 1))
  }

  ghost predicate KeptAt(w: World, slots: seq<Slot>, envs: seq<Env>, k: nat)
    requires k < |slots| == |envs| && Answering(envs)
  {
    Kept(At(w, slots, envs, k), At(w, slots, envs, k + 1))
  }

  ghost predicate ShedAt(w: World, slots: seq<Slot>, envs: seq<Env>, k: nat, slot: Slot)
    requires k < |slots| == |envs| && Answering(envs)
  {
    Shed(At(w, slots, envs, k), At(w, slots, envs, k + 1), slot)
  }

  /** BOUNDED SHEDDING, entry by entry: its first two visits count it as channel_full and
      keep it, its third counts it as channel_full_exhausted and deletes it - whatever
      the other at most 63 references do in between. */
  lemma ShedAtThirdVisit(w: World, slots: seq<Slot>, envs: seq<Env>, refs: set<StoredRef>, v: Thrice)
    requires Starting(w, slots, envs, refs) && VisitedThrice(slots, envs, v)
    requires v.slot in w.store && w.store[v.slot].decodes
    ensures KeptAt(w, slots, envs, v.first) && KeptAt(w, slots, envs, v.second)
    ensures ShedAt(w, slots, envs, v.third, v.slot)
    ensures v.slot !in At(w, slots, envs, |slots|).store
  {
    OwnVisitCounts(w, slots, envs, refs, v, v.first);
    OwnVisitCounts(w, slots, envs, refs, v, v.second);
    OwnVisitCounts(w, slots, envs, refs, v, v.third);
    GoneAtLast(w, slots, envs, refs, v);
  }

  lemma GoneAtLast(w: World, slots: seq<Slot>, envs: seq<Env>, refs: set<StoredRef>, v: Thrice)
    requires Starting(w, slots, envs, refs) && VisitedThrice(slots, envs, v)
    requires v.slot in w.store && w.store[v.slot].decodes
    ensures v.slot !in At(w, slots, envs, |slots|).store
  {
    StaysOnTrack(w, slots, envs, refs, v, |slots|);
  }

  lemma OwnVisitCounts(w: World, slots: seq<Slot>, envs: seq<Env>, refs: set<StoredRef>, v: Thrice, k: nat)
    requires Starting(w, slots, envs, refs) && VisitedThrice(slots, envs, v)
    requires v.slot in w.store && w.store[v.slot].decodes
    requires k in {v.first, v.second, v.third}
    ensures k < v.third ==> KeptAt(w, slots, envs, k)
    ensures k == v.third ==> ShedAt(w, slots, envs, k, v.slot)
  {
    StaysOnTrack(w, slots, envs, refs, v, k);
    TrackOwn(w, slots, envs, refs, v, k);
  }

  // ----- three sweeps -----

  /** Every retained entry has its three visits, and nothing else is visited. */
  ghost predicate Plan(w: World, slots: seq<Slot>, envs: seq<Env>, plan: map<Slot, Thrice>)
    requires |slots| == |envs|
  {
    && plan.Keys == w.store.Keys
    && (forall slot :: slot in plan ==>
          plan[slot].slot == slot && VisitedThrice(slots, envs, plan[slot]) && w.store[slot].decodes)
    && (forall k :: 0 <= k < |slots| ==> slots[k] in plan)
  }

  /** k visits were counted, and every entry that left was counted exhausted. */
  predicate Counted(w: World, now: World, k: nat) {
    && now.tally == w.tally.(channelFull := now.tally.channelFull, exhausted := now.tally.exhausted)
    && now.tally.channelFull + now.tally.exhausted == w.tally.channelFull + w.tally.exhausted + k
    && now.tally.exhausted + |now.store| == w.tally.exhausted + |w.store|
    && now.store.Keys <= w.store.Keys && now.channel == w.channel
  }

  lemma CountNext(w: World, now: World, next: World, slot: Slot, k: nat)
    requires Counted(w, now, k) && (Kept(now, next) || Shed(now, next, slot))
    ensures Counted(w, next, k + 1)
  {
  }

  lemma VisitCounts(
      w: World, slots: seq<Slot>, envs: seq<Env>, refs: set<StoredRef>, plan: map<Slot, Thrice>, k: nat)
    requires Starting(w, slots, envs, refs) && Plan(w, slots, envs, plan) && k < |slots|
    ensures Kept(At(w, slots, envs, k), At(w, slots, envs, k + 1))
            || Shed(At(w, slots, envs, k), At(w, slots, envs, k + 1), slots[k])
  {
    assert slots[k] in plan;
    OwnVisitCounts(w, slots, envs, refs, plan[slots[k]], k);
  }

  ghost predicate EveryVisitCounts(w: World, slots: seq<Slot>, envs: seq<Env>)
    requires |slots| == |envs| && Answering(envs)
  {
    forall k: nat :: k < |slots| ==>
      Kept(At(w, slots, envs, k), At(w, slots, envs, k + 1))
      || Shed(At(w, slots, envs, k), At(w, slots, envs, k + 1), slots[k])
  }

  lemma {:induction false} Totals(w: World, slots: seq<Slot>, envs: seq<Env>, k: nat)
    requires |slots| == |envs| && Answering(envs) && k <= |slots| && EveryVisitCounts(w, slots, envs)
    ensures Counted(w, At(w, slots, envs, k), k)
  {
    if k == 0 {
      assert At(w, slots, envs, 0) == w;
    } else {
      Totals(w, slots, envs, k - 1);
      CountNext(w, At(w, slots, envs, k - 1), At(w, slots, envs, k), slots[k - 1], k - 1);
    }
  }

  lemma AllVisitsCount(w: World, slots: seq<Slot>, envs: seq<Env>, refs: set<StoredRef>, plan: map<Slot, Thrice>)
    requires Starting(w, slots, envs, refs) && Plan(w, slots, envs, plan)
    ensures EveryVisitCounts(w, slots, envs)
  {
    forall k: nat | k < |slots|
      ensures Kept(At(w, slots, envs, k), At(w, slots, envs, k + 1))
              || Shed(At(w, slots, envs, k), At(w, slots, envs, k + 1), slots[k])
    {
      VisitCounts(w, slots, envs, refs, plan, k);
    }
  }

  lemma EntryGone(
      w: World, slots: seq<Slot>, envs: seq<Env>, refs: set<StoredRef>, plan: map<Slot, Thrice>, slot: Slot)
    requires Starting(w, slots, envs, refs) && Plan(w, slots, envs, plan) && slot in w.store
    ensures slot !in At(w, slots, envs, |slots|).store && RefOf(slot) !in At(w, slots, envs, |slots|).budgets
  {
    StaysOnTrack(w, slots, envs, refs, plan[slot], |slots|);
  }

  predicate NoSharedBudget(slots: seq<Slot>) {
    forall i, j :: 0 <= i < j < |slots| ==> RefOf(slots[i]) != RefOf(slots[j])
  }

  /** Successive visits of one slot in two passes come less than the window apart. */
  predicate SoonAgain(p: seq<Slot>, e: seq<Env>, q: seq<Slot>, f: seq<Env>)
    requires |p| == |e| && |q| == |f|
  {
    forall i, j :: 0 <= i < |p| && 0 <= j < |q| && p[i] == q[j] ==> f[j].now - e[i].now < WINDOW
  }

  function IndexOf(slots: seq<Slot>, slot: Slot): (i: nat)
    requires slot in slots
    ensures i < |slots| && slots[i] == slot
  {
    if slots[0] == slot then 0 else IndexOf(slots[1..], slot) + 1
  }

  /** Where the three passes visit a slot. */
  function ThriceOf(p1: seq<Slot>, p2: seq<Slot>, p3: seq<Slot>, slot: Slot): Thrice
    requires slot in p1 && slot in p2 && slot in p3
  {
    Thrice(slot, IndexOf(p1, slot), |p1| + IndexOf(p2, slot), |p1| + |p2| + IndexOf(p3, slot))
  }

  ghost predicate SameSlots(p: seq<Slot>, q: seq<Slot>) {
    forall slot :: slot in p <==> slot in q
  }

  lemma VisitedByPasses(
      p1: seq<Slot>, e1: seq<Env>, p2: seq<Slot>, e2: seq<Env>, p3: seq<Slot>, e3: seq<Env>, slot: Slot)
    requires |p1| == |e1| && |p2| == |e2| && |p3| == |e3|
    requires NoSharedBudget(p1) && NoSharedBudget(p2) && NoSharedBudget(p3)
    requires slot in p1 && slot in p2 && slot in p3
    requires SoonAgain(p1, e1, p2, e2) && SoonAgain(p2, e2, p3, e3)
    ensures VisitedThrice(p1 + p2 + p3, e1 + e2 + e3, ThriceOf(p1, p2, p3, slot))
  {
  }

  lemma {:induction false} RefsCount(p: seq<Slot>) returns (refs: set<StoredRef>, slots: set<Slot>)
    requires NoSharedBudget(p)
    ensures |refs| == |p| == |slots|
    ensures forall slot :: slot in p ==> RefOf(slot) in refs
    ensures forall ref :: ref in refs ==> exists slot :: slot in p && RefOf(slot) == ref
    ensures forall slot :: slot in slots <==> slot in p
  {
    if p == [] {
      refs, slots := {}, {};
    } else {
      var front, last := p[..|p| - 1], p[|p| - 1];
      assert p == front + [last];
      refs, slots := RefsCount(front);
      forall slot | slot in front ensures RefOf(slot) != RefOf(last) {}
      refs, slots := refs + {RefOf(last)}, slots + {last};
    }
  }

  /** Three passes over the same slots, none sharing a budget, each slot again in time. */
  ghost predicate ThreePasses(p1: seq<Slot>, e1: seq<Env>, p2: seq<Slot>, e2: seq<Env>, p3: seq<Slot>, e3: seq<Env>) {
    && |p1| == |e1| && |p2| == |e2| && |p3| == |e3|
    && NoSharedBudget(p1) && NoSharedBudget(p2) && NoSharedBudget(p3)
    && SameSlots(p1, p2) && SameSlots(p2, p3)
    && SoonAgain(p1, e1, p2, e2) && SoonAgain(p2, e2, p3, e3)
  }

  /** The passes are over exactly the retained entries, all of which decode. */
  predicate Retained(w: World, p: seq<Slot>) {
    && (forall slot :: slot in p ==> slot in w.store)
    && (forall slot :: slot in w.store ==> slot in p && w.store[slot].decodes)
  }

  predicate Smooth(envs: seq<Env>) {
    && (forall i :: 0 <= i < |envs| ==> ErrorFree(envs[i]))
    && (forall i, j :: 0 <= i <= j < |envs| ==> envs[i].now <= envs[j].now)
  }

  lemma InSomePass(p1: seq<Slot>, p2: seq<Slot>, p3: seq<Slot>, k: nat)
    requires k < |p1 + p2 + p3| && SameSlots(p1, p2) && SameSlots(p2, p3)
    ensures (p1 + p2 + p3)[k] in p1
  {
  }

  lemma SweepsStart(
      w: World, p1: seq<Slot>, e1: seq<Env>, p2: seq<Slot>, e2: seq<Env>, p3: seq<Slot>, e3: seq<Env>,
      refs: set<StoredRef>)
    requires ThreePasses(p1, e1, p2, e2, p3, e3) && Smooth(e1 + e2 + e3)
    requires Full(w) && w.budgets == map[] && |refs| <= REFS
    requires forall slot :: slot in p1 ==> RefOf(slot) in refs
    requires Answering(e1 + e2 + e3) && PassChosen(w, p1 + p2 + p3, e1 + e2 + e3)
    ensures Starting(w, p1 + p2 + p3, e1 + e2 + e3, refs)
  {
    var all := p1 + p2 + p3;
    forall k | 0 <= k < |all| ensures RefOf(all[k]) in refs {
      InSomePass(p1, p2, p3, k);
    }
  }

  lemma SweepsArePlanned(
      w: World, p1: seq<Slot>, e1: seq<Env>, p2: seq<Slot>, e2: seq<Env>, p3: seq<Slot>, e3: seq<Env>,
      slots: set<Slot>)
      returns (plan: map<Slot, Thrice>)
    requires ThreePasses(p1, e1, p2, e2, p3, e3) && Retained(w, p1)
    requires forall slot :: slot in slots <==> slot in p1
    ensures Plan(w, p1 + p2 + p3, e1 + e2 + e3, plan)
  {
    plan := map slot | slot in slots :: ThriceOf(p1, p2, p3, slot);
    assert plan.Keys == w.store.Keys;
    var all := p1 + p2 + p3;
    forall k | 0 <= k < |all| ensures all[k] in plan {
      InSomePass(p1, p2, p3, k);
    }
    forall slot | slot in plan ensures VisitedThrice(all, e1 + e2 + e3, plan[slot]) {
      VisitedByPasses(p1, e1, p2, e2, p3, e3, slot);
    }
  }

  lemma EntriesGone(
      w: World, slots: seq<Slot>, envs: seq<Env>, refs: set<StoredRef>, plan: map<Slot, Thrice>)
    requires Starting(w, slots, envs, refs) && Plan(w, slots, envs, plan)
    ensures forall slot :: slot in w.store ==>
              slot !in At(w, slots, envs, |slots|).store && RefOf(slot) !in At(w, slots, envs, |slots|).budgets
  {
    forall slot | slot in w.store
      ensures slot !in At(w, slots, envs, |slots|).store && RefOf(slot) !in At(w, slots, envs, |slots|).budgets
    {
      EntryGone(w, slots, envs, refs, plan, slot);
    }
  }

  lemma WholeRun(w: World, slots: seq<Slot>, envs: seq<Env>)
    requires |slots| == |envs| && Answering(envs)
    ensures At(w, slots, envs, |slots|) == Pass(w, slots, envs)
  {
    assert slots[..|slots|] == slots && envs[..|envs|] == envs;
  }

  lemma RunTotals(
      w: World, slots: seq<Slot>, envs: seq<Env>, refs: set<StoredRef>, plan: map<Slot, Thrice>)
    requires Starting(w, slots, envs, refs) && Plan(w, slots, envs, plan)
    ensures Counted(w, At(w, slots, envs, |slots|), |slots|) && Few(At(w, slots, envs, |slots|).budgets, refs)
  {
    AllVisitsCount(w, slots, envs, refs, plan);
    Totals(w, slots, envs, |slots|);
    RunKeeps(w, slots, envs, refs, |slots|);
  }

  lemma AllGone(w: World, last: World, refs: set<StoredRef>)
    requires Few(last.budgets, refs) && last.store.Keys <= w.store.Keys
    requires forall slot :: slot in w.store ==> slot !in last.store && RefOf(slot) !in last.budgets
    requires forall ref :: ref in refs ==> exists slot :: slot in w.store && RefOf(slot) == ref
    ensures last.store == map[] && last.budgets == map[]
  {
  }

  lemma PlannedRunSheds(
      w: World, slots: seq<Slot>, envs: seq<Env>, refs: set<StoredRef>, plan: map<Slot, Thrice>)
    requires Starting(w, slots, envs, refs) && Plan(w, slots, envs, plan)
    requires forall ref :: ref in refs ==> exists slot :: slot in w.store && RefOf(slot) == ref
    ensures var last := Pass(w, slots, envs);
            last.store == map[] && last.budgets == map[] && Counted(w, last, |slots|)
  {
    WholeRun(w, slots, envs);
    EntriesGone(w, slots, envs, refs, plan);
    RunTotals(w, slots, envs, refs, plan);
    AllGone(w, Pass(w, slots, envs), refs);
  }

  lemma SameLength(p: seq<Slot>, q: seq<Slot>)
    requires NoSharedBudget(p) && NoSharedBudget(q) && SameSlots(p, q)
    ensures |p| == |q|
  {
    var _, s := RefsCount(p);
    var _, t := RefsCount(q);
    assert s == t;
  }

  /** Three passes over the same entries, in any order, shed them all. */
  lemma {:induction false} ThreePassesShedAll(
      w: World, p1: seq<Slot>, e1: seq<Env>, p2: seq<Slot>, e2: seq<Env>, p3: seq<Slot>, e3: seq<Env>)
    requires ThreePasses(p1, e1, p2, e2, p3, e3) && |p1| <= REFS && Retained(w, p1) && Smooth(e1 + e2 + e3)
    requires Full(w) && w.budgets == map[]
    requires Answering(e1 + e2 + e3) && PassChosen(w, p1 + p2 + p3, e1 + e2 + e3)
    ensures Pass(w, p1 + p2 + p3, e1 + e2 + e3) ==
            w.(store := map[],
               tally := w.tally.(channelFull := w.tally.channelFull + 2 * |w.store|,
                                 exhausted := w.tally.exhausted + |w.store|))
  {
    var refs, slots := RefsCount(p1);
    SweepsShed(w, p1, e1, p2, e2, p3, e3, refs, slots);
    SameLength(p1, p2);
    SameLength(p2, p3);
    assert w.store.Keys == slots;
    EmptiedWorld(w, Pass(w, p1 + p2 + p3, e1 + e2 + e3), |p1|);
  }

  lemma EmptiedWorld(w: World, last: World, n: nat)
    requires w.budgets == map[] && last.store == map[] && last.budgets == map[]
    requires n == |w.store| && Counted(w, last, 3 * n)
    ensures last == w.(store := map[],
                       tally := w.tally.(channelFull := w.tally.channelFull + 2 * |w.store|,
                                         exhausted := w.tally.exhausted + |w.store|))
  {
  }

  lemma SweepsShed(
      w: World, p1: seq<Slot>, e1: seq<Env>, p2: seq<Slot>, e2: seq<Env>, p3: seq<Slot>, e3: seq<Env>,
      refs: set<StoredRef>, slots: set<Slot>)
    requires ThreePasses(p1, e1, p2, e2, p3, e3) && Retained(w, p1) && Smooth(e1 + e2 + e3)
    requires Full(w) && w.budgets == map[] && |refs| <= REFS
    requires Answering(e1 + e2 + e3) && PassChosen(w, p1 + p2 + p3, e1 + e2 + e3)
    requires forall slot :: slot in slots <==> slot in p1
    requires forall slot :: slot in p1 ==> RefOf(slot) in refs
    requires forall ref :: ref in refs ==> exists slot :: slot in p1 && RefOf(slot) == ref
    ensures var last := Pass(w, p1 + p2 + p3, e1 + e2 + e3);
            last.store == map[] && last.budgets == map[] && Counted(w, last, |p1 + p2 + p3|)
  {
    SweepsStart(w, p1, e1, p2, e2, p3, e3, refs);
    var plan := SweepsArePlanned(w, p1, e1, p2, e2, p3, e3, slots);
    forall ref | ref in refs ensures exists slot :: slot in w.store && RefOf(slot) == ref {
      var slot :| slot in p1 && RefOf(slot) == ref;
      assert slot in w.store;
    }
    PlannedRunSheds(w, p1 + p2 + p3, e1 + e2 + e3, refs, plan);
  }

  // ----- what the sweeps list -----

  function VisitsOf(slots: seq<Slot>, ref: StoredRef): nat {
    if slots == [] then 0
    else VisitsOf(slots[..|slots| - 1], ref) + if RefOf(slots[|slots| - 1]) == ref then 1 else 0
  }

  /** No budget has more attempts than its reference had visits. */
  ghost predicate Sparing(budgets: Budgets, slots: seq<Slot>) {
    forall ref :: ref in budgets ==> budgets[ref].attempts <= VisitsOf(slots, ref)
  }

  /** A visit that is at most the second under its key keeps the store. */
  lemma SparingVisit(w: World, slots: seq<Slot>, slot: Slot, env: Env, refs: set<StoredRef>)
    requires Full(w) && ErrorFree(env) && VictimChosen(w, slot, env) && Few(w.budgets, refs) && RefOf(slot) in refs
    requires Sparing(w.budgets, slots) && VisitsOf(slots, RefOf(slot)) < 2
    requires slot in w.store ==> w.store[slot].decodes
    ensures Route(w, slot, true, env).store == w.store
    ensures Sparing(Route(w, slot, true, env).budgets, slots + [slot])
  {
    NeverCrowded(w.budgets, refs, RefOf(slot), env.now);
    assert (slots + [slot])[..|slots|] == slots;
  }

  predicate AllDecode(w: World) {
    forall slot :: slot in w.store ==> w.store[slot].decodes
  }

  ghost predicate AtMostTwice(slots: seq<Slot>) {
    forall ref :: VisitsOf(slots, ref) <= 2
  }

  lemma {:induction false} TwiceKeeps(w: World, slots: seq<Slot>, envs: seq<Env>, refs: set<StoredRef>, k: nat)
    requires Starting(w, slots, envs, refs) && AllDecode(w) && AtMostTwice(slots) && k <= |slots|
    ensures At(w, slots, envs, k).store == w.store && Sparing(At(w, slots, envs, k).budgets, slots[..k])
  {
    if k == 0 {
      assert At(w, slots, envs, 0) == w;
    } else {
      TwiceKeeps(w, slots, envs, refs, k - 1);
      RunKeeps(w, slots, envs, refs, k - 1);
      ChosenPrefix(w, slots, envs, k - 1);
      VisitsGrow(slots, k, RefOf(slots[k - 1]));
      assert slots[..k] == slots[..k - 1] + [slots[k - 1]];
      SparingVisit(At(w, slots, envs, k - 1), slots[..k - 1], slots[k - 1], envs[k - 1], refs);
    }
  }

  lemma {:induction false} VisitsGrow(slots: seq<Slot>, k: nat, ref: StoredRef)
    requires 0 < k <= |slots|
    ensures VisitsOf(slots[..k], ref) <= VisitsOf(slots, ref)
    ensures VisitsOf(slots[..k], ref) == VisitsOf(slots[..k - 1], ref) + if RefOf(slots[k - 1]) == ref then 1 else 0
  {
    assert slots[..k][..k - 1] == slots[..k - 1];
    if k < |slots| {
      VisitsGrow(slots[..|slots| - 1], k, ref);
      assert slots[..|slots| - 1][..k] == slots[..k];
    } else {
      assert slots[..k] == slots;
    }
  }

  lemma {:induction false} VisitsConcat(a: seq<Slot>, b: seq<Slot>, ref: StoredRef)
    ensures VisitsOf(a + b, ref) == VisitsOf(a, ref) + VisitsOf(b, ref)
  {
    if b == [] {
      assert a + b == a;
    } else {
      VisitsConcat(a, b[..|b| - 1], ref);
      assert (a + b)[..|a + b| - 1] == a + b[..|b| - 1];
    }
  }

  lemma {:induction false} OncePerBudget(p: seq<Slot>, ref: StoredRef)
    requires NoSharedBudget(p)
    ensures VisitsOf(p, ref) <= 1
    ensures VisitsOf(p, ref) == 1 ==> exists i :: 0 <= i < |p| && RefOf(p[i]) == ref
  {
    if p != [] {
      OncePerBudget(p[..|p| - 1], ref);
    }
  }

  /** Every tracked store can be listed, and is listed as it is. */
  ghost predicate Truthful(w: World, memories: seq<Memory>, listing: Memory -> Option<seq<nat>>) {
    forall memory :: memory in memories ==> TruthfulOne(w, memory, listing(memory))
  }

  ghost predicate TruthfulOne(w: World, memory: Memory, listed: Option<seq<nat>>) {
    && listed.Some? && Distinct(listed.value)
    && forall index: nat :: index in listed.value <==> Slot(memory, index) in w.store
  }

  lemma ListedExact(w: World, memory: Memory, listing: Memory -> Option<seq<nat>>)
    requires TruthfulOne(w, memory, listing(memory))
    ensures Distinct(Listed(memory, listing))
    ensures forall slot :: slot in Listed(memory, listing) <==> slot in w.store && slot.memory == memory
  {
    var indices := listing(memory).value;
    forall slot ensures slot in SlotsOf(memory, indices) <==> slot in w.store && slot.memory == memory {
      if slot.memory == memory && slot.index in indices {
        var i :| 0 <= i < |indices| && indices[i] == slot.index;
        assert SlotsOf(memory, indices)[i] == slot;
      }
    }
  }

  /** A truthful pass visits every entry of the tracked stores, each once, and no other. */
  lemma {:induction false} VisitsExact(w: World, memories: seq<Memory>, listing: Memory -> Option<seq<nat>>)
    requires Distinct(memories) && Truthful(w, memories, listing)
    ensures Distinct(Visits(memories, listing))
    ensures forall slot :: slot in Visits(memories, listing) <==> slot in w.store && slot.memory in memories
  {
    if memories != [] {
      var front, last := memories[..|memories| - 1], memories[|memories| - 1];
      assert memories == front + [last];
      VisitsExact(w, front, listing);
      ListedExact(w, last, listing);
      assert last !in front;
      DistinctConcat(Visits(front, listing), Listed(last, listing));
    }
  }

  /** All entries are in tracked stores, decode, and have a budget key each. */
  ghost predicate Retainable(w: World, memories: seq<Memory>) {
    && AllDecode(w)
    && (forall slot :: slot in w.store ==> slot.memory in memories)
    && (forall a, b :: a in w.store && b in w.store && RefOf(a) == RefOf(b) ==> a == b)
  }

  lemma TruthfulPass(w: World, now: World, memories: seq<Memory>, listing: Memory -> Option<seq<nat>>)
    requires Distinct(memories) && Retainable(w, memories) && now.store == w.store && Truthful(now, memories, listing)
    ensures NoSharedBudget(Visits(memories, listing)) && Retained(w, Visits(memories, listing))
  {
    VisitsExact(now, memories, listing);
    var p := Visits(memories, listing);
    forall i, j | 0 <= i < j < |p| ensures RefOf(p[i]) != RefOf(p[j]) {
      assert p[i] in w.store && p[j] in w.store && p[i] != p[j];
    }
  }

  /** One pass, or two, over slots without a shared budget keep the store. */
  lemma PassKeepsStore(w: World, p: seq<Slot>, e: seq<Env>, refs: set<StoredRef>)
    requires Starting(w, p, e, refs) && AllDecode(w) && AtMostTwice(p)
    ensures Pass(w, p, e).store == w.store
  {
    TwiceKeeps(w, p, e, refs, |p|);
    WholeRun(w, p, e);
  }

  lemma OnePassKeepsStore(w: World, p: seq<Slot>, e: seq<Env>, refs: set<StoredRef>)
    requires Starting(w, p, e, refs) && AllDecode(w) && NoSharedBudget(p)
    ensures Pass(w, p, e).store == w.store
  {
    forall ref ensures VisitsOf(p, ref) <= 2 {
      OncePerBudget(p, ref);
    }
    PassKeepsStore(w, p, e, refs);
  }

  lemma TwoPassesKeepStore(w: World, p: seq<Slot>, e: seq<Env>, q: seq<Slot>, f: seq<Env>, refs: set<StoredRef>)
    requires |p| == |e| && |q| == |f| && NoSharedBudget(p) && NoSharedBudget(q)
    requires Starting(w, p + q, e + f, refs) && AllDecode(w)
    ensures Pass(w, p + q, e + f).store == w.store
  {
    forall ref ensures VisitsOf(p + q, ref) <= 2 {
      VisitsConcat(p, q, ref);
      OncePerBudget(p, ref);
      OncePerBudget(q, ref);
    }
    PassKeepsStore(w, p + q, e + f, refs);
  }

  lemma StartingFrom(w: World, slots: seq<Slot>, envs: seq<Env>, refs: set<StoredRef>)
    requires |refs| <= REFS && Full(w) && w.budgets == map[] && Smooth(envs)
    requires |slots| == |envs| && Answering(envs) && PassChosen(w, slots, envs)
    requires forall slot :: slot in slots ==> RefOf(slot) in refs
    ensures Starting(w, slots, envs, refs)
  {
  }

  lemma SmoothPrefix(e: seq<Env>, f: seq<Env>)
    requires Smooth(e + f)
    ensures Smooth(e)
  {
    assert e == (e + f)[..|e|];
  }

  lemma SweptSlots(w: World, p: seq<Slot>, e: seq<Env>, mid: World, q: seq<Slot>, f: seq<Env>, last: World)
    requires Swept(w, p, e, mid) && Swept(mid, q, f, last)
    ensures Swept(w, p + q, e + f, last) && last == Pass(w, p + q, e + f)
  {
    SweptConcat(w, p, e, mid, q, f, last);
  }

  /** What the second and the third sweep find: the same entries as the first. */
  lemma SweepsFindAll(
      w: World, memories: seq<Memory>, l1: Memory -> Option<seq<nat>>, e1: seq<Env>, w1: World,
      l2: Memory -> Option<seq<nat>>, e2: seq<Env>, w2: World, refs: set<StoredRef>)
    requires Distinct(memories) && Retainable(w, memories) && Full(w) && w.budgets == map[] && |refs| <= REFS
    requires forall slot :: slot in w.store ==> RefOf(slot) in refs
    requires Truthful(w, memories, l1) && Swept(w, Visits(memories, l1), e1, w1)
    requires Truthful(w1, memories, l2) && Swept(w1, Visits(memories, l2), e2, w2)
    requires Smooth(e1 + e2)
    ensures w1.store == w.store && w2.store == w.store
  {
    var p1, p2 := Visits(memories, l1), Visits(memories, l2);
    TruthfulPass(w, w, memories, l1);
    SmoothPrefix(e1, e2);
    StartingFrom(w, p1, e1, refs);
    OnePassKeepsStore(w, p1, e1, refs);
    TruthfulPass(w, w1, memories, l2);
    SweptSlots(w, p1, e1, w1, p2, e2, w2);
    StartingFrom(w, p1 + p2, e1 + e2, refs);
    TwoPassesKeepStore(w, p1, e1, p2, e2, refs);
  }

  lemma EntriesCount(w: World, p: seq<Slot>)
    requires NoSharedBudget(p) && Retained(w, p)
    ensures |p| == |w.store|
  {
    var refs, slots := RefsCount(p);
    assert w.store.Keys == slots;
  }

  /** BOUNDED SHEDDING. From an empty budget map and with the channel full throughout,
      three error-free sweeps of the tracked stores, each of which lists them as they are,
      over at most 64 entries with distinct budget keys and a reference never waiting a
      whole window, empty the store, leave no budget behind, and count every entry twice as
      channel_full and once as exhausted. */
  lemma {:induction false} ThreeSweepsShedAll(
      w: World, memories: seq<Memory>, l1: Memory -> Option<seq<nat>>, e1: seq<Env>, w1: World,
      l2: Memory -> Option<seq<nat>>, e2: seq<Env>, w2: World, l3: Memory -> Option<seq<nat>>, e3: seq<Env>, w3: World)
    requires Distinct(memories) && Retainable(w, memories) && |w.store| <= REFS && Full(w) && w.budgets == map[]
    requires Truthful(w, memories, l1) && Swept(w, Visits(memories, l1), e1, w1)
    requires Truthful(w1, memories, l2) && Swept(w1, Visits(memories, l2), e2, w2)
    requires Truthful(w2, memories, l3) && Swept(w2, Visits(memories, l3), e3, w3)
    requires Smooth(e1 + e2 + e3)
    requires SoonAgain(Visits(memories, l1), e1, Visits(memories, l2), e2)
    requires SoonAgain(Visits(memories, l2), e2, Visits(memories, l3), e3)
    ensures w3 == w.(store := map[],
                     tally := w.tally.(channelFull := w.tally.channelFull + 2 * |w.store|,
                                       exhausted := w.tally.exhausted + |w.store|))
  {
    var p1, p2, p3 := Visits(memories, l1), Visits(memories, l2), Visits(memories, l3);
    TruthfulPass(w, w, memories, l1);
    EntriesCount(w, p1);
    var refs, _ := RefsCount(p1);
    SmoothPrefix(e1 + e2, e3);
    SweepsFindAll(w, memories, l1, e1, w1, l2, e2, w2, refs);
    TruthfulPass(w, w1, memories, l2);
    TruthfulPass(w, w2, memories, l3);
    SweptSlots(w, p1, e1, w1, p2, e2, w2);
    SweptSlots(w, p1 + p2, e1 + e2, w2, p3, e3, w3);
    ThreePassesShedAll(w, p1, e1, p2, e2, p3, e3);
  }

  // ----- a shared key -----

  /** A visit of any entry under this key counts against the same budget. */
  lemma SharedVisit(w: World, slot: Slot, env: Env, ref: StoredRef, attempts: nat, seenAt: int)
    requires Full(w) && ErrorFree(env) && VictimChosen(w, slot, env)
    requires slot in w.store && w.store[slot].decodes && RefOf(slot) == ref
    requires Few(w.budgets, {ref}) && Holds(w.budgets, ref, attempts, seenAt) && attempts < RETRIES
    requires 0 < attempts ==> env.now - seenAt < WINDOW
    ensures var next := Route(w, slot, true, env);
            && Full(next) && Few(next.budgets, {ref})
            && (if attempts + 1 < RETRIES then next.store == w.store && Holds(next.budgets, ref, attempts + 1, env.now)
                else slot !in next.store)
  {
    OwnVisit(w, slot, env, {ref}, attempts, seenAt);
    VisitKeeps(w, slot, env, {ref});
  }

  /** ME and SM share one budget per index: with an entry at the same index of both, the
      one in ME is deleted at its SECOND visit, one attempt early. */
  lemma {:induction false} SharedKeyShedsEarly(w: World, index: nat, envs: seq<Env>)
    requires var slots := [Slot(ME, index), Slot(SM, index), Slot(ME, index)];
             && |envs| == 3 && Answering(envs) && PassChosen(w, slots, envs)
             && (forall i :: 0 <= i < 3 ==> ErrorFree(envs[i]))
             && envs[0].now <= envs[1].now <= envs[2].now < envs[0].now + WINDOW
             && (forall i :: 0 <= i < 3 ==> slots[i] in w.store && w.store[slots[i]].decodes)
             && Full(w) && w.budgets == map[]
    ensures Slot(ME, index) !in Pass(w, [Slot(ME, index), Slot(SM, index), Slot(ME, index)], envs).store
  {
    var slots := [Slot(ME, index), Slot(SM, index), Slot(ME, index)];
    var ref := StoredRef(0, index);
    ChosenPrefix(w, slots, envs, 0);
    SharedVisit(At(w, slots, envs, 0), slots[0], envs[0], ref, 0, 0);
    ChosenPrefix(w, slots, envs, 1);
    SharedVisit(At(w, slots, envs, 1), slots[1], envs[1], ref, 1, envs[0].now);
    ChosenPrefix(w, slots, envs, 2);
    SharedVisit(At(w, slots, envs, 2), slots[2], envs[2], ref, 2, envs[1].now);
    WholeRun(w, slots, envs);
  }
}
