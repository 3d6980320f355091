/**
  Conservation of store entries when routes of several +CMTI handlers and of the sweep
  interleave step by step (internal/modem/service.go): one AT command, one hand-off or
  one channel receive is one atomic step.
 */
module Conservation {
  import opened Options
  import opened Budget
  import opened StoreRoute

  /** One running route, between two of its steps. */
  datatype Active = Active(slot: Slot, sweeping: bool, attempts: nat, phase: Phase)

  /** The shared world, the running routes, and what is known of every entry that ever
      arrived: placed on the channel, counted exhausted, or counted undecodable by a sweep. */
  datatype Machine = Machine(
    world: World,
    routes: map<nat, Active>,
    consumed: seq<Stored>,
    arrived: set<nat>,
    taken: set<nat>,
    shed: set<nat>,
    rejected: set<nat>)

  datatype Label =
    | Arrive(slot: Slot, entry: Stored)
    | Begin(rid: nat, slot: Slot, sweeping: bool, attempts: nat)
    | Read(rid: nat, ok: bool)
    | Offer(rid: nat, now: int, victim: Option<StoredRef>)
    | Delete(rid: nat, reply: Reply)
    | Consume
    | Reclaim(now: int)

  /** What the code and the modem can do. A message fills an empty slot, and carries a
      fresh identity. */
  predicate Enabled(m: Machine, l: Label) {
    match l
    case Arrive(slot, entry) => slot !in m.world.store && entry.id !in m.arrived
    case Begin(rid, _, _, attempts) => rid !in m.routes && 1 <= attempts
    case Read(rid, _) => rid in m.routes && m.routes[rid].phase.Reading?
    case Offer(rid, _, _) => rid in m.routes && m.routes[rid].phase.Offering?
    case Delete(rid, _) => rid in m.routes && m.routes[rid].phase.Deleting?
    case Consume => m.world.channel != []
    case Reclaim(_) => true
  }

  /** A route on the slot has read an entry, and is to offer or to delete it. */
  predicate PastRead(m: Machine, slot: Slot) {
    exists rid :: rid in m.routes && m.routes[rid].slot == slot && !m.routes[rid].phase.Reading?
  }

  /** The one thing the code does not enforce and conservation needs: the modem does not
      refill a slot between a route's read and the end of its delete. Routes may overlap, on
      one slot too, and a slot may be refilled before they read it. */
  predicate Undisturbed(m: Machine, l: Label) {
    l.Arrive? ==> !PastRead(m, l.slot)
  }

  /** The route leaves the machine once it is done. */
  function Advance(m: Machine, rid: nat, o: Outcome): Machine
    requires rid in m.routes
  {
    m.(world := o.world,
       routes := if o.phase.Done? then m.routes - {rid} else m.routes[rid := m.routes[rid].(phase := o.phase)])
  }

  /** Books the reason for which a route turns to deleting its entry. */
  function Account(m: Machine, o: Outcome): Machine {
    if !o.phase.Deleting? then m
    else
      match o.phase.why
      case Delivered => m.(taken := m.taken + {o.phase.entry.id})
      case Exhausted => m.(shed := m.shed + {o.phase.entry.id})
      case Undecodable => m.(rejected := m.rejected + {o.phase.entry.id})
  }

  function ReadOutcome(m: Machine, rid: nat, ok: bool): Outcome
    requires rid in m.routes
  {
    var r := m.routes[rid];
    AfterRead(m.world, r.slot, r.sweeping, ok, r.attempts)
  }

  function OfferOutcome(m: Machine, rid: nat, now: int, victim: Option<StoredRef>): Outcome
    requires rid in m.routes && m.routes[rid].phase.Offering?
  {
    var r := m.routes[rid];
    AfterOffer(m.world, r.slot, r.phase.entry, now, victim, r.attempts)
  }

  function Do(m: Machine, l: Label): Machine
    requires Enabled(m, l)
  {
    match l
    case Arrive(slot, entry) =>
      m.(world := m.world.(store := m.world.store[slot := entry]), arrived := m.arrived + {entry.id})
    case Begin(rid, slot, sweeping, attempts) =>
      m.(routes := m.routes[rid := Active(slot, sweeping, attempts, Reading)])
    case Read(rid, ok) =>
      var o := ReadOutcome(m, rid, ok);
      Account(Advance(m, rid, o), o)
    case Offer(rid, now, victim) =>
      var o := OfferOutcome(m, rid, now, victim);
      Account(Advance(m, rid, o), o)
    case Delete(rid, reply) =>
      Advance(m, rid, AfterDelete(m.world, m.routes[rid].slot, m.routes[rid].phase, reply))
    case Consume =>
      m.(world := m.world.(channel := m.world.channel[1..]), consumed := m.consumed + [m.world.channel[0]])
    case Reclaim(now) => m.(world := m.world.(budgets := Fresh(m.world.budgets, now)))
  }

  const INIT := Machine(World(map[], [], map[], ZERO), map[], [], {}, {}, {}, {})

  predicate Run(labels: seq<Label>) {
    labels == [] || (
      var front := labels[..|labels| - 1];
      && Run(front)
      && Enabled(After(front), labels[|labels| - 1]) && Undisturbed(After(front), labels[|labels| - 1]))
  }

  /** The machine after a run; labels that are not enabled are skipped. */
  function After(labels: seq<Label>): Machine {
    if labels == [] then INIT
    else
      var m := After(labels[..|labels| - 1]);
      if Enabled(m, labels[|labels| - 1]) then Do(m, labels[|labels| - 1]) else m
  }

  // ----- the invariant -----

  ghost predicate Stocked(m: Machine, id: nat) {
    exists slot :: slot in m.world.store && m.world.store[slot].id == id
  }

  predicate Accounted(m: Machine, id: nat) {
    id in m.taken || id in m.shed || id in m.rejected
  }

  predicate AccountedFor(m: Machine, why: Why, id: nat) {
    match why
    case Delivered => id in m.taken
    case Exhausted => id in m.shed
    case Undecodable => id in m.rejected
  }

  /** A route that knows an entry knows the one its slot still holds, if any; a route that
      deletes has booked the reason. */
  predicate Informed(m: Machine, r: Active) {
    match r.phase
    case Reading => true
    case Done => false
    case Offering(entry) => r.slot in m.world.store ==> m.world.store[r.slot] == entry
    case Deleting(entry, why, attempts) =>
      && (r.slot in m.world.store ==> m.world.store[r.slot] == entry)
      && AccountedFor(m, why, entry.id) && 1 <= attempts
  }

  ghost predicate Placed(m: Machine, id: nat) {
    exists e :: (e in m.consumed || e in m.world.channel) && e.id == id
  }

  ghost predicate NoneLost(m: Machine) {
    forall id :: id in m.arrived ==> Stocked(m, id) || Accounted(m, id)
  }

  predicate AllInformed(m: Machine) {
    forall rid :: rid in m.routes ==> Informed(m, m.routes[rid]) && 1 <= m.routes[rid].attempts
  }

  ghost predicate AllPlaced(m: Machine) {
    forall id :: id in m.taken ==> Placed(m, id)
  }

  predicate Counted(m: Machine) {
    |m.shed| <= m.world.tally.exhausted && |m.rejected| <= m.world.tally.decodeFailed
  }

  ghost predicate Conserved(m: Machine) {
    NoneLost(m) && AllInformed(m) && AllPlaced(m) && Counted(m)
  }

  // ----- every undisturbed step keeps it -----

  lemma ArriveConserves(m: Machine, slot: Slot, entry: Stored)
    requires Conserved(m) && Enabled(m, Arrive(slot, entry)) && !PastRead(m, slot)
    ensures Conserved(Do(m, Arrive(slot, entry)))
  {
    var n := Do(m, Arrive(slot, entry));
    forall id | id in n.arrived ensures Stocked(n, id) || Accounted(n, id) {
      if id == entry.id {
        assert n.world.store[slot].id == id;
      } else if Stocked(m, id) {
        var s :| s in m.world.store && m.world.store[s].id == id;
        assert n.world.store[s].id == id;
      }
    }
    forall rid | rid in n.routes ensures Informed(n, n.routes[rid]) {
      assert Informed(m, m.routes[rid]) && (m.routes[rid].slot != slot || m.routes[rid].phase.Reading?);
    }
    forall id | id in n.taken ensures Placed(n, id) {
      assert Placed(m, id);
    }
  }

  lemma BeginConserves(m: Machine, rid: nat, slot: Slot, sweeping: bool, attempts: nat)
    requires Conserved(m) && Enabled(m, Begin(rid, slot, sweeping, attempts))
    ensures Conserved(Do(m, Begin(rid, slot, sweeping, attempts)))
  {
  }

  /** The step of a route that leaves the store alone: it may place its entry on the
      channel, and it books a reason before it turns to deleting. */
  predicate Harmless(m: Machine, r: Active, o: Outcome) {
    && o.world.store == m.world.store
    && (o.world.channel == m.world.channel
        || (o.phase.Deleting? && o.phase.why.Delivered? && o.world.channel == m.world.channel + [o.phase.entry]))
    && (o.phase.Deleting? && o.phase.why.Delivered? ==> o.phase.entry in o.world.channel)
    && m.world.tally.exhausted <= o.world.tally.exhausted && m.world.tally.decodeFailed <= o.world.tally.decodeFailed
    && (o.phase.Deleting? && o.phase.why.Exhausted? ==> m.world.tally.exhausted < o.world.tally.exhausted)
    && (o.phase.Deleting? && o.phase.why.Undecodable? ==> m.world.tally.decodeFailed < o.world.tally.decodeFailed)
    && !o.phase.Reading?
    && ((o.phase.Offering? || o.phase.Deleting?) && r.slot in m.world.store ==>
          m.world.store[r.slot] == o.phase.entry)
    && (o.phase.Deleting? ==> o.phase.attempts == r.attempts)
  }

  lemma StepInformed(m: Machine, rid: nat, o: Outcome)
    requires AllInformed(m) && rid in m.routes && Harmless(m, m.routes[rid], o)
    ensures AllInformed(Account(Advance(m, rid, o), o))
  {
  }

  lemma StepPlaces(m: Machine, rid: nat, o: Outcome)
    requires AllPlaced(m) && NoneLost(m) && rid in m.routes && Harmless(m, m.routes[rid], o)
    ensures AllPlaced(Account(Advance(m, rid, o), o)) && NoneLost(Account(Advance(m, rid, o), o))
  {
  }

  lemma StepCounts(m: Machine, rid: nat, o: Outcome)
    requires Counted(m) && rid in m.routes && Harmless(m, m.routes[rid], o)
    ensures Counted(Account(Advance(m, rid, o), o))
  {
  }

  lemma HarmlessConserves(m: Machine, rid: nat, o: Outcome)
    requires Conserved(m) && rid in m.routes && Harmless(m, m.routes[rid], o)
    ensures Conserved(Account(Advance(m, rid, o), o))
  {
    StepInformed(m, rid, o);
    StepPlaces(m, rid, o);
    StepCounts(m, rid, o);
  }

  lemma ReadHarmless(m: Machine, rid: nat, ok: bool)
    requires AllInformed(m) && Enabled(m, Read(rid, ok))
    ensures Harmless(m, m.routes[rid], ReadOutcome(m, rid, ok))
  {
  }

  lemma OfferHarmless(m: Machine, rid: nat, now: int, victim: Option<StoredRef>)
    requires AllInformed(m) && Enabled(m, Offer(rid, now, victim))
    ensures Harmless(m, m.routes[rid], OfferOutcome(m, rid, now, victim))
  {
  }

  /** A delete removes at most the entry its route has accounted for. */
  lemma DeleteKeepsEntries(m: Machine, rid: nat, reply: Reply)
    requires NoneLost(m) && AllInformed(m) && Enabled(m, Delete(rid, reply))
    ensures NoneLost(Do(m, Delete(rid, reply)))
  {
    var n, slot := Do(m, Delete(rid, reply)), m.routes[rid].slot;
    assert Informed(m, m.routes[rid]);
    forall id | id in n.arrived ensures Stocked(n, id) || Accounted(n, id) {
      if !Accounted(m, id) {
        var s :| s in m.world.store && m.world.store[s].id == id;
        assert s != slot;
        assert n.world.store[s].id == id;
      }
    }
  }

  lemma DeleteConserves(m: Machine, rid: nat, reply: Reply)
    requires Conserved(m) && Enabled(m, Delete(rid, reply))
    ensures Conserved(Do(m, Delete(rid, reply)))
  {
    DeleteKeepsEntries(m, rid, reply);
    var n := Do(m, Delete(rid, reply));
    forall r | r in n.routes ensures Informed(n, n.routes[r]) && 1 <= n.routes[r].attempts {
      assert Informed(m, m.routes[r]);
    }
    forall id | id in n.taken ensures Placed(n, id) {
      assert Placed(m, id);
    }
  }

  lemma ConsumeConserves(m: Machine)
    requires Conserved(m) && Enabled(m, Consume)
    ensures Conserved(Do(m, Consume))
  {
  }

  lemma ReclaimConserves(m: Machine, now: int)
    requires Conserved(m)
    ensures Conserved(Do(m, Reclaim(now)))
  {
  }

  lemma StepConserves(m: Machine, l: Label)
    requires Conserved(m) && Enabled(m, l) && Undisturbed(m, l)
    ensures Conserved(Do(m, l))
  {
    match l
    case Arrive(slot, entry) => ArriveConserves(m, slot, entry);
    case Begin(rid, slot, sweeping, attempts) => BeginConserves(m, rid, slot, sweeping, attempts);
    case Read(rid, ok) =>
      ReadHarmless(m, rid, ok);
      HarmlessConserves(m, rid, ReadOutcome(m, rid, ok));
    case Offer(rid, now, victim) =>
      OfferHarmless(m, rid, now, victim);
      HarmlessConserves(m, rid, OfferOutcome(m, rid, now, victim));
    case Delete(rid, reply) => DeleteConserves(m, rid, reply);
    case Consume => ConsumeConserves(m);
    case Reclaim(now) => ReclaimConserves(m, now);
  }

  /** CONSERVATION. In every undisturbed run, however its routes interleave, each entry
      that ever arrived is still in the store, or was placed on the channel, or was counted
      channel_full_exhausted, or was counted decode_failed by a sweep. */
  lemma {:induction false} RunConserves(labels: seq<Label>)
    requires Run(labels)
    ensures Conserved(After(labels))
  {
    if labels != [] {
      RunConserves(labels[..|labels| - 1]);
      StepConserves(After(labels[..|labels| - 1]), labels[|labels| - 1]);
    }
  }

  /** An entry leaves the store only by the delete of a route that has accounted for it:
      a failed read, an undecodable +CMTI read and a retryable drop never delete. */
  lemma LeavesOnlyAccounted(m: Machine, l: Label, slot: Slot)
    requires Conserved(m) && Enabled(m, l)
    requires slot in m.world.store && slot !in Do(m, l).world.store
    ensures l.Delete? && Accounted(m, m.world.store[slot].id)
  {
  }

  // ----- the uninterrupted route is a run of the machine -----

  /** The labels lead from one machine to the other, without an arrival. */
  ghost predicate Leads(m: Machine, labels: seq<Label>, n: Machine)
    decreases |labels|
  {
    if labels == [] then m == n
    else
      && !labels[0].Arrive? && Enabled(m, labels[0])
      && Leads(Do(m, labels[0]), labels[1..], n)
  }

  lemma LeadsCons(m: Machine, l: Label, labels: seq<Label>, n: Machine)
    requires !l.Arrive? && Enabled(m, l) && Leads(Do(m, l), labels, n)
    ensures Leads(m, [l] + labels, n)
  {
  }

  lemma {:induction false} DeletesRun(m: Machine, rid: nat, replies: seq<Reply>) returns (labels: seq<Label>)
    requires rid in m.routes && m.routes[rid].phase.Deleting?
    requires replies != [] && m.routes[rid].phase.attempts == |replies|
    ensures Leads(m, labels, m.(world := DeleteAll(m.world, m.routes[rid].slot, replies), routes := m.routes - {rid}))
    decreases |replies|
  {
    var n := Do(m, Delete(rid, replies[0]));
    if replies[0].Refused? && |replies| > 1 {
      var rest := DeletesRun(n, rid, replies[1..]);
      assert n.routes - {rid} == m.routes - {rid};
      labels := [Delete(rid, replies[0])] + rest;
      LeadsCons(m, Delete(rid, replies[0]), rest, m.(world := DeleteAll(m.world, m.routes[rid].slot, replies),
                                                     routes := m.routes - {rid}));
    } else {
      labels := [Delete(rid, replies[0])] + [];
      LeadsCons(m, Delete(rid, replies[0]), [], n);
    }
  }

  lemma OfferRun(m: Machine, rid: nat, env: Env) returns (labels: seq<Label>, n: Machine)
    requires rid in m.routes && m.routes[rid].phase.Offering?
    requires env.replies != [] && m.routes[rid].attempts == |env.replies|
    ensures Leads(m, labels, n) && n.routes == m.routes - {rid}
    ensures var o := OfferOutcome(m, rid, env.now, env.victim);
            n.world == if o.phase.Deleting? then DeleteAll(o.world, m.routes[rid].slot, env.replies) else o.world
  {
    var offer := Offer(rid, env.now, env.victim);
    n := Do(m, offer);
    labels := [];
    if rid in n.routes {
      labels := DeletesRun(n, rid, env.replies);
      assert n.routes - {rid} == m.routes - {rid};
      n := n.(world := DeleteAll(n.world, m.routes[rid].slot, env.replies), routes := n.routes - {rid});
    }
    LeadsCons(m, offer, labels, n);
    labels := [offer] + labels;
  }

  lemma ReadRun(m: Machine, rid: nat, env: Env) returns (labels: seq<Label>, n: Machine)
    requires rid in m.routes && m.routes[rid].phase.Reading?
    requires env.replies != [] && m.routes[rid].attempts == |env.replies|
    ensures Leads(m, labels, n) && n.routes == m.routes - {rid}
    ensures n.world == Route(m.world, m.routes[rid].slot, m.routes[rid].sweeping, env)
  {
    var read := Read(rid, env.readOk);
    n := Do(m, read);
    var after := n;
    labels := [];
    if rid in n.routes && n.routes[rid].phase.Offering? {
      labels, n := OfferRun(after, rid, env);
    } else if rid in n.routes {
      labels := DeletesRun(after, rid, env.replies);
      n := after.(world := DeleteAll(after.world, m.routes[rid].slot, env.replies), routes := after.routes - {rid});
    }
    assert n.routes == m.routes - {rid};
    LeadsCons(m, read, labels, n);
    labels := [read] + labels;
  }

  /** What processStoredEntry does in one go is one interleaving of the machine: the
      object's methods and the interleaved protocol speak of the same route. */
  lemma RouteIsRun(m: Machine, rid: nat, slot: Slot, sweeping: bool, env: Env)
      returns (labels: seq<Label>, n: Machine)
    requires rid !in m.routes && env.replies != []
    ensures Leads(m, labels, n) && n.world == Route(m.world, slot, sweeping, env) && n.routes == m.routes
  {
    var begin := Begin(rid, slot, sweeping, |env.replies|);
    var rest;
    rest, n := ReadRun(Do(m, begin), rid, env);
    assert Do(m, begin).routes - {rid} == m.routes;
    LeadsCons(m, begin, rest, n);
    labels := [begin] + rest;
  }

  // ----- the assumption is exact -----

  /** What is stored or accounted for has arrived, and the channel is within its bound. */
  predicate Known(m: Machine) {
    && (forall slot :: slot in m.world.store ==> m.world.store[slot].id in m.arrived)
    && m.taken <= m.arrived && m.shed <= m.arrived && m.rejected <= m.arrived
    && (forall rid :: rid in m.routes ==> KnownRoute(m, m.routes[rid].phase))
    && |m.world.channel| <= CHANNEL_SIZE
  }

  predicate KnownRoute(m: Machine, phase: Phase) {
    phase.Offering? || phase.Deleting? ==> phase.entry.id in m.arrived
  }

  lemma RouteStepKnown(m: Machine, rid: nat, o: Outcome)
    requires Known(m) && rid in m.routes && KnownRoute(m, o.phase)
    requires o.world.store == m.world.store && |o.world.channel| <= CHANNEL_SIZE
    ensures Known(Account(Advance(m, rid, o), o))
  {
  }

  lemma DeleteKnown(m: Machine, rid: nat, reply: Reply)
    requires Known(m) && Enabled(m, Delete(rid, reply))
    ensures Known(Do(m, Delete(rid, reply)))
  {
    assert KnownRoute(m, m.routes[rid].phase);
  }

  lemma StepKnown(m: Machine, l: Label)
    requires Known(m) && Enabled(m, l)
    ensures Known(Do(m, l))
  {
    match l
    case Read(rid, ok) => RouteStepKnown(m, rid, ReadOutcome(m, rid, ok));
    case Offer(rid, now, victim) =>
      assert KnownRoute(m, m.routes[rid].phase);
      RouteStepKnown(m, rid, OfferOutcome(m, rid, now, victim));
    case Delete(rid, reply) => DeleteKnown(m, rid, reply);
    case _ =>
  }

  lemma {:induction false} RunKnown(labels: seq<Label>)
    requires Run(labels)
    ensures Known(After(labels))
  {
    if labels != [] {
      RunKnown(labels[..|labels| - 1]);
      StepKnown(After(labels[..|labels| - 1]), labels[|labels| - 1]);
    }
  }

  /** The labels lead on from one machine to the other, undisturbed. */
  ghost predicate GoesOn(m: Machine, labels: seq<Label>, n: Machine)
    decreases |labels|
  {
    if labels == [] then m == n
    else Enabled(m, labels[0]) && Undisturbed(m, labels[0]) && GoesOn(Do(m, labels[0]), labels[1..], n)
  }

  lemma {:induction false} GoesOnConserves(m: Machine, labels: seq<Label>, n: Machine)
    requires Conserved(m) && GoesOn(m, labels, n)
    ensures Conserved(n)
    decreases |labels|
  {
    if labels != [] {
      StepConserves(m, labels[0]);
      GoesOnConserves(Do(m, labels[0]), labels[1..], n);
    }
  }

  lemma GoesOnCons(m: Machine, l: Label, labels: seq<Label>, n: Machine)
    requires Enabled(m, l) && Undisturbed(m, l) && GoesOn(Do(m, l), labels, n)
    ensures GoesOn(m, [l] + labels, n)
  {
    assert ([l] + labels)[1..] == labels;
  }

  ghost predicate Lost(m: Machine, id: nat) {
    id in m.arrived && !Stocked(m, id) && !Accounted(m, id)
  }

  ghost predicate MayLose(m: Machine, id: nat) {
    exists labels, n :: GoesOn(m, labels, n) && Lost(n, id)
  }

  /** The new entry, unread, in the slot of a route that is past its read. */
  predicate Exposed(m: Machine, rid: nat, id: nat) {
    && rid in m.routes && !m.routes[rid].phase.Reading? && !m.routes[rid].phase.Done?
    && m.routes[rid].slot in m.world.store && m.world.store[m.routes[rid].slot].id == id
    && id in m.arrived && !Accounted(m, id)
    && (forall s :: s in m.world.store && m.world.store[s].id == id ==> s == m.routes[rid].slot)
    && (m.routes[rid].phase.Offering? || m.routes[rid].phase.Deleting? ==> m.routes[rid].phase.entry.id != id)
  }

  /** A confirmed delete removes it. */
  lemma DeleteLoses(m: Machine, rid: nat, id: nat)
    requires Exposed(m, rid, id) && m.routes[rid].phase.Deleting?
    ensures MayLose(m, id)
  {
    var n := Do(m, Delete(rid, Confirmed));
    assert GoesOn(n, [], n);
    GoesOnCons(m, Delete(rid, Confirmed), [], n);
    assert Lost(n, id);
  }

  lemma MayLoseBefore(m: Machine, l: Label, id: nat)
    requires Enabled(m, l) && Undisturbed(m, l) && MayLose(Do(m, l), id)
    ensures MayLose(m, id)
  {
    var labels, n :| GoesOn(Do(m, l), labels, n) && Lost(n, id);
    GoesOnCons(m, l, labels, n);
  }

  /** An accepted hand-off turns the route to its delete; the consumer makes room for it. */
  lemma OfferLoses(m: Machine, rid: nat, id: nat)
    requires Exposed(m, rid, id) && m.routes[rid].phase.Offering? && |m.world.channel| <= CHANNEL_SIZE
    ensures MayLose(m, id)
  {
    var room := if Full(m.world) then Do(m, Consume) else m;
    assert !Full(room.world);
    var offer := Offer(rid, 0, None);
    DeleteLoses(Do(room, offer), rid, id);
    MayLoseBefore(room, offer, id);
    if Full(m.world) {
      MayLoseBefore(m, Consume, id);
    }
  }

  lemma RefillExposes(m: Machine, slot: Slot, entry: Stored, rid: nat)
    requires Known(m) && Conserved(m) && Enabled(m, Arrive(slot, entry))
    requires rid in m.routes && m.routes[rid].slot == slot && !m.routes[rid].phase.Reading?
    ensures Exposed(Do(m, Arrive(slot, entry)), rid, entry.id)
  {
    assert Informed(m, m.routes[rid]) && KnownRoute(m, m.routes[rid].phase);
  }

  /** EXACTLY when a refill is dangerous. After any undisturbed run a message that fills an
      empty slot can be lost in what follows, all of it undisturbed, if and only if a route
      on the slot is past its read: a delete that was refused but happened is retried, or is
      still to come, and then removes a message nobody has read. */
  lemma RefillLosesIffPastRead(labels: seq<Label>, slot: Slot, entry: Stored)
    requires Run(labels) && Enabled(After(labels), Arrive(slot, entry))
    ensures MayLose(Do(After(labels), Arrive(slot, entry)), entry.id) <==> PastRead(After(labels), slot)
  {
    var m := After(labels);
    var n := Do(m, Arrive(slot, entry));
    RunConserves(labels);
    RunKnown(labels);
    if PastRead(m, slot) {
      var rid :| rid in m.routes && m.routes[rid].slot == slot && !m.routes[rid].phase.Reading?;
      RefillExposes(m, slot, entry, rid);
      if n.routes[rid].phase.Deleting? {
        DeleteLoses(n, rid, entry.id);
      } else {
        OfferLoses(n, rid, entry.id);
      }
    } else {
      StepConserves(m, Arrive(slot, entry));
      forall rest, last | GoesOn(n, rest, last) ensures !Lost(last, entry.id) {
        GoesOnConserves(n, rest, last);
      }
    }
  }

  /** And such a refill is possible: a read, a hand-off and a refused delete that happened
      leave an empty slot to a route that is past its read. */
  lemma RefillIsPossible(slot: Slot)
    ensures exists labels :: Run(labels) && slot !in After(labels).world.store && PastRead(After(labels), slot)
  {
    var labels := AboutToDelete(slot);
    RunAppend(labels, Delete(0, Refused(true)));
    var last := After(labels + [Delete(0, Refused(true))]);
    assert slot !in last.world.store && last.routes[0].slot == slot && !last.routes[0].phase.Reading?;
  }

  lemma RunAppend(labels: seq<Label>, l: Label)
    requires Run(labels) && Enabled(After(labels), l) && Undisturbed(After(labels), l)
    ensures Run(labels + [l]) && After(labels + [l]) == Do(After(labels), l)
  {
    assert (labels + [l])[..|labels|] == labels;
  }

  const FIRST := Stored(1, true)

  /** One route has read and handed off the entry and is about to delete it. */
  lemma AboutToDelete(slot: Slot) returns (labels: seq<Label>)
    ensures Run(labels)
    ensures After(labels) ==
            Machine(World(map[slot := FIRST], [FIRST], map[], ZERO),
                    map[0 := Active(slot, false, 2, Deleting(FIRST, Delivered, 2))], [], {1}, {1}, {}, {})
  {
    var l1 := [Arrive(slot, FIRST)];
    assert l1 == [] + l1;
    RunAppend([], Arrive(slot, FIRST));
    assert After(l1) == INIT.(world := INIT.world.(store := map[slot := FIRST]), arrived := {1});
    var l2 := l1 + [Begin(0, slot, false, 2)];
    RunAppend(l1, Begin(0, slot, false, 2));
    var l3 := l2 + [Read(0, true)];
    RunAppend(l2, Read(0, true));
    assert After(l3).routes == map[0 := Active(slot, false, 2, Offering(FIRST))];
    labels := l3 + [Offer(0, 0, None)];
    RunAppend(l3, Offer(0, 0, None));
  }
}
