/**
  The inbound route of one modem store entry - read, decode, hand off, delete - and
  the retained-entry sweep (internal/modem/service.go). What the modem answers, and the
  clock, are inputs; decoding is a fixed property of the stored entry.
 */
module StoreRoute {
  import opened Options
  import opened Budget

  // inboundChannelSize, inboundHandlerLimit
  const CHANNEL_SIZE: nat := 64
  const HANDLER_LIMIT: nat := 4

  datatype Memory = ME | SM | MT | Other(name: string)

  datatype Slot = Slot(memory: Memory, index: nat)

  /** One stored PDU: its identity, and whether it decodes as an SMS-DELIVER. */
  datatype Stored = Stored(id: nat, decodes: bool)

  /** The drop counters of the modem metrics. */
  datatype Tally = Tally(
    readFailed: nat, decodeFailed: nat, channelFull: nat, exhausted: nat, deleteFailed: nat,
    malformed: nat, saturated: nat, disconnected: nat)

  const ZERO := Tally(0, 0, 0, 0, 0, 0, 0, 0)

  datatype World = World(store: map<Slot, Stored>, channel: seq<Stored>, budgets: Budgets, tally: Tally)

  /** storedMemoryID: ME and SM share the number 0, as does a name it does not know. */
  function RefOf(slot: Slot): StoredRef {
    StoredRef(if slot.memory.MT? then 1 else 0, slot.index)
  }

  datatype Why = Delivered | Exhausted | Undecodable

  datatype Phase = Reading | Offering(entry: Stored) | Deleting(entry: Stored, why: Why, attempts: nat) | Done

  /** A delete the modem confirms, or one it does not - which may still have happened. */
  datatype Reply = Confirmed | Refused(applied: bool)

  datatype Outcome = Outcome(world: World, phase: Phase)

  function AfterRead(w: World, slot: Slot, sweeping: bool, ok: bool, attempts: nat): Outcome {
    if !ok || slot !in w.store then
      Outcome(w.(tally := w.tally.(readFailed := w.tally.readFailed + 1)), Done)
    else if !w.store[slot].decodes then
      Outcome(w.(tally := w.tally.(decodeFailed := w.tally.decodeFailed + 1)),
              if sweeping then Deleting(w.store[slot], Undecodable, attempts) else Done)
    else Outcome(w, Offering(w.store[slot]))
  }

  predicate Full(w: World) {
    |w.channel| >= CHANNEL_SIZE
  }

  function AfterOffer(
      w: World, slot: Slot, entry: Stored, now: int, victim: Option<StoredRef>, attempts: nat): Outcome
  {
    if !Full(w) then
      Outcome(w.(channel := w.channel + [entry], budgets := w.budgets - {RefOf(slot)}),
              Deleting(entry, Delivered, attempts))
    else
      var booking := Spend(w.budgets, RefOf(slot), now, victim);
      if booking.retry then
        Outcome(w.(budgets := booking.budgets, tally := w.tally.(channelFull := w.tally.channelFull + 1)), Done)
      else
        Outcome(w.(budgets := booking.budgets, tally := w.tally.(exhausted := w.tally.exhausted + 1)),
                Deleting(entry, Exhausted, attempts))
  }

  function Removed(w: World, slot: Slot): World {
    w.(store := w.store - {slot})
  }

  /** One AT+CMGD attempt; the last refused one counts a store-command failure. */
  function AfterDelete(w: World, slot: Slot, phase: Phase, reply: Reply): Outcome
    requires phase.Deleting?
  {
    match reply
    case Confirmed => Outcome(Removed(w, slot), Done)
    case Refused(applied) =>
      var next := if applied then Removed(w, slot) else w;
      if phase.attempts <= 1 then
        Outcome(next.(tally := next.tally.(deleteFailed := next.tally.deleteFailed + 1)), Done)
      else Outcome(next, phase.(attempts := phase.attempts - 1))
  }

  /** What one route meets: the read, the time of the hand-off and the replies to its
      deletes. attempts is max(Cmgd.RetryAttempts, 1). */
  datatype Env = Env(readOk: bool, now: int, victim: Option<StoredRef>, replies: seq<Reply>)

  function DeleteAll(w: World, slot: Slot, replies: seq<Reply>): World
    requires replies != []
    decreases |replies|
  {
    match replies[0]
    case Confirmed => Removed(w, slot)
    case Refused(applied) =>
      var next := if applied then Removed(w, slot) else w;
      if |replies| == 1 then next.(tally := next.tally.(deleteFailed := next.tally.deleteFailed + 1))
      else DeleteAll(next, slot, replies[1..])
  }

  /** The whole route of one entry, run without interruption. */
  function Route(w: World, slot: Slot, sweeping: bool, env: Env): World
    requires env.replies != []
  {
    var read := AfterRead(w, slot, sweeping, env.readOk, |env.replies|);
    var offered :=
      if read.phase.Offering? then
        AfterOffer(read.world, slot, read.phase.entry, env.now, env.victim, |env.replies|)
      else read;
    if offered.phase.Deleting? then DeleteAll(offered.world, slot, env.replies) else offered.world
  }

  /** What the deletes come to: the entry is gone if one of them was confirmed, or refused and
      done, and a failure is counted if none was confirmed. */
  lemma {:induction false} DeleteExact(w: World, slot: Slot, replies: seq<Reply>)
    requires replies != []
    ensures var n := DeleteAll(w, slot, replies);
            && n.channel == w.channel && n.budgets == w.budgets
            && ((exists k :: 0 <= k < |replies| && replies[k] != Refused(false)) ==> n.store == w.store - {slot})
            && ((forall k :: 0 <= k < |replies| ==> replies[k] == Refused(false)) ==> n.store == w.store)
            && n.tally ==
                 if Confirmed in replies then w.tally else w.tally.(deleteFailed := w.tally.deleteFailed + 1)
    decreases |replies|
  {
    if replies[0].Refused? && |replies| > 1 {
      var next := if replies[0].applied then Removed(w, slot) else w;
      DeleteExact(next, slot, replies[1..]);
      assert replies == [replies[0]] + replies[1..];
      assert (w.store - {slot}) - {slot} == w.store - {slot};
      if forall k :: 0 <= k < |replies[1..]| ==> replies[1..][k] == Refused(false) {
        assert forall k :: 0 < k < |replies| ==> replies[k] == replies[1..][k - 1];
      }
    }
  }

  /** Only the entry of the slot, and the failures of deletes, may differ. */
  predicate Deleted(w: World, n: World, slot: Slot) {
    && n.channel == w.channel && n.budgets == w.budgets
    && (n.store == w.store || n.store == w.store - {slot})
    && n.tally == w.tally.(deleteFailed := n.tally.deleteFailed)
    && w.tally.deleteFailed <= n.tally.deleteFailed <= w.tally.deleteFailed + 1
  }

  /** What a route comes to, case by case: what could not be read, or decoded, is counted; a
      part is placed if the channel has room, and otherwise booked as a failure. */
  lemma RouteExact(w: World, slot: Slot, sweeping: bool, env: Env)
    requires env.replies != []
    ensures var n, t := Route(w, slot, sweeping, env), w.tally;
            if !env.readOk || slot !in w.store then
              n == w.(tally := t.(readFailed := t.readFailed + 1))
            else if !w.store[slot].decodes then
              var counted := w.(tally := t.(decodeFailed := t.decodeFailed + 1));
              if sweeping then Deleted(counted, n, slot) else n == counted
            else if |w.channel| < CHANNEL_SIZE then
              Deleted(w.(channel := w.channel + [w.store[slot]], budgets := w.budgets - {RefOf(slot)}), n, slot)
            else
              var booking := Spend(w.budgets, RefOf(slot), env.now, env.victim);
              if booking.retry then
                n == w.(budgets := booking.budgets, tally := t.(channelFull := t.channelFull + 1))
              else
                Deleted(w.(budgets := booking.budgets, tally := t.(exhausted := t.exhausted + 1)), n, slot)
  {
    var read := AfterRead(w, slot, sweeping, env.readOk, |env.replies|);
    DeleteExact(read.world, slot, env.replies);
    if read.phase.Offering? {
      var offered := AfterOffer(read.world, slot, read.phase.entry, env.now, env.victim, |env.replies|);
      DeleteExact(offered.world, slot, env.replies);
    }
  }

  /** The budget given up during a route is one the code can pick. */
  ghost predicate VictimChosen(w: World, slot: Slot, env: Env) {
    env.readOk && slot in w.store && w.store[slot].decodes && Full(w) ==>
      VictimOk(w.budgets, RefOf(slot), env.now, env.victim)
  }

  // ----- sweeps -----

  /** The slots one sweep visits: every listed index of every tracked store that can be
      listed, in order. None stands for a store whose AT+CMGL failed. */
  function Visits(memories: seq<Memory>, listing: Memory -> Option<seq<nat>>): seq<Slot> {
    if memories == [] then []
    else
      var last := memories[|memories| - 1];
      Visits(memories[..|memories| - 1], listing) + Listed(last, listing)
  }

  /** The entries of one store; none of a store that cannot be listed. */
  function Listed(memory: Memory, listing: Memory -> Option<seq<nat>>): seq<Slot> {
    match listing(memory)
    case None => []
    case Some(indices) => SlotsOf(memory, indices)
  }

  function SlotsOf(memory: Memory, indices: seq<nat>): seq<Slot> {
    seq(|indices|, i requires 0 <= i < |indices| => Slot(memory, indices[i]))
  }

  predicate Answering(envs: seq<Env>) {
    forall i :: 0 <= i < |envs| ==> envs[i].replies != []
  }

  function Pass(w: World, slots: seq<Slot>, envs: seq<Env>): World
    requires |slots| == |envs| && Answering(envs)
  {
    if slots == [] then w
    else
      var n := |slots| - 1;
      Route(Pass(w, slots[..n], envs[..n]), slots[n], true, envs[n])
  }

  /** Every budget given up during the pass is one the code can pick. */
  ghost predicate PassChosen(w: World, slots: seq<Slot>, envs: seq<Env>)
    requires |slots| == |envs| && Answering(envs)
  {
    slots == [] || (
      var n := |slots| - 1;
      && PassChosen(w, slots[..n], envs[..n])
      && VictimChosen(Pass(w, slots[..n], envs[..n]), slots[n], envs[n]))
  }

  lemma PassAppend(w: World, slots: seq<Slot>, envs: seq<Env>, slot: Slot, env: Env)
    requires |slots| == |envs| && Answering(envs) && env.replies != []
    ensures Answering(envs + [env])
    ensures Pass(w, slots + [slot], envs + [env]) == Route(Pass(w, slots, envs), slot, true, env)
    ensures PassChosen(w, slots + [slot], envs + [env])
            <==> PassChosen(w, slots, envs) && VictimChosen(Pass(w, slots, envs), slot, env)
  {
  }

  lemma {:induction false} PassConcat(w: World, a: seq<Slot>, ea: seq<Env>, b: seq<Slot>, eb: seq<Env>)
    requires |a| == |ea| && |b| == |eb| && Answering(ea) && Answering(eb)
    ensures Answering(ea + eb)
    ensures Pass(w, a + b, ea + eb) == Pass(Pass(w, a, ea), b, eb)
    ensures PassChosen(w, a + b, ea + eb) <==> PassChosen(w, a, ea) && PassChosen(Pass(w, a, ea), b, eb)
  {
    if b == [] {
      assert a + b == a && ea + eb == ea;
    } else {
      var n := |b| - 1;
      var ab, eab := a + b[..n], ea + eb[..n];
      PassConcat(w, a, ea, b[..n], eb[..n]);
      PassAppend(w, ab, eab, b[n], eb[n]);
      assert a + b == ab + [b[n]] && ea + eb == eab + [eb[n]];
      LastOfPass(Pass(w, a, ea), b, eb);
    }
  }

  lemma LastOfPass(w: World, slots: seq<Slot>, envs: seq<Env>)
    requires |slots| == |envs| > 0 && Answering(envs)
    ensures var n := |slots| - 1;
            && Pass(w, slots, envs) == Route(Pass(w, slots[..n], envs[..n]), slots[n], true, envs[n])
            && (PassChosen(w, slots, envs) <==>
                  && PassChosen(w, slots[..n], envs[..n])
                  && VictimChosen(Pass(w, slots[..n], envs[..n]), slots[n], envs[n]))
  {
  }

  /** The world after is that of a sweep over these slots, met by these answers. */
  ghost predicate Swept(w: World, slots: seq<Slot>, envs: seq<Env>, after: World) {
    && |envs| == |slots| && Answering(envs)
    && PassChosen(w, slots, envs)
    && after == Pass(w, slots, envs)
  }

  /** The answers met are those of the script; only the budget given up is the code's own
      choice. */
  predicate Met(envs: seq<Env>, answer: nat -> Env) {
    forall i :: 0 <= i < |envs| ==> envs[i] == answer(i).(victim := envs[i].victim)
  }

  /** How far a sweep of these slots got, under the answers of the script. */
  ghost predicate Underway(w: World, visits: seq<Slot>, answer: nat -> Env, envs: seq<Env>, now: World) {
    |envs| <= |visits| && Swept(w, visits[..|envs|], envs, now) && Met(envs, answer)
  }

  /** The stores a sweep lists: the remembered ones, or the default before any is known. */
  function Tracked(memories: seq<Memory>): seq<Memory> {
    if memories == [] then [SM] else memories
  }

  lemma SweptAppend(w: World, slots: seq<Slot>, envs: seq<Env>, mid: World, slot: Slot, env: Env)
    requires Swept(w, slots, envs, mid) && env.replies != [] && VictimChosen(mid, slot, env)
    ensures Swept(w, slots + [slot], envs + [env], Route(mid, slot, true, env))
  {
  }

  lemma VisitGoesOn(w: World, visits: seq<Slot>, answer: nat -> Env, envs: seq<Env>, mid: World, env: Env)
    requires |envs| < |visits| && Underway(w, visits, answer, envs, mid)
    requires env.replies != [] && VictimChosen(mid, visits[|envs|], env)
    requires env == answer(|envs|).(victim := env.victim)
    ensures Underway(w, visits, answer, envs + [env], Route(mid, visits[|envs|], true, env))
  {
    assert visits[..|envs| + 1] == visits[..|envs|] + [visits[|envs|]];
    SweptAppend(w, visits[..|envs|], envs, mid, visits[|envs|], env);
  }

  lemma SweptConcat(w: World, a: seq<Slot>, ea: seq<Env>, mid: World, b: seq<Slot>, eb: seq<Env>, after: World)
    requires Swept(w, a, ea, mid) && Swept(mid, b, eb, after)
    ensures Swept(w, a + b, ea + eb, after)
  {
    PassConcat(w, a, ea, b, eb);
  }

  /** How many entries of a pass are visited. */
  function Reach(listed: nat, connected: bool, stop: Option<nat>): nat {
    if !connected then 0 else if stop.Some? && stop.value < listed then stop.value else listed
  }

  lemma {:induction false} VisitsPrefix(memories: seq<Memory>, m: nat, listing: Memory -> Option<seq<nat>>)
    requires m <= |memories|
    ensures Visits(memories[..m], listing) <= Visits(memories, listing)
  {
    if m < |memories| {
      var front := memories[..|memories| - 1];
      VisitsPrefix(front, m, listing);
      assert front[..m] == memories[..m];
    } else {
      assert memories[..m] == memories;
    }
  }

  lemma VisitsAppend(memories: seq<Memory>, m: nat, listing: Memory -> Option<seq<nat>>)
    requires m < |memories|
    ensures Visits(memories[..m + 1], listing) == Visits(memories[..m], listing) + Listed(memories[m], listing)
  {
    assert memories[..m + 1][..m] == memories[..m];
  }

  /** Where the turn of a store begins in a sweep. */
  predicate Before(memories: seq<Memory>, m: nat, listing: Memory -> Option<seq<nat>>, count: nat)
    requires m <= |memories|
  {
    count == |Visits(memories[..m], listing)|
  }

  /** The slots visited from there on are those listed. */
  lemma TurnVisits(memories: seq<Memory>, m: nat, listing: Memory -> Option<seq<nat>>, count: nat)
    requires m < |memories| && Before(memories, m, listing, count)
    ensures At(Visits(memories, listing), count, Listed(memories[m], listing))
    ensures Before(memories, m + 1, listing, count + |Listed(memories[m], listing)|)
  {
    VisitsAppend(memories, m, listing);
    VisitsPrefix(memories, m + 1, listing);
    PrefixAt(Visits(memories[..m], listing), Listed(memories[m], listing), Visits(memories, listing));
  }

  lemma PrefixAt(before: seq<Slot>, slots: seq<Slot>, visits: seq<Slot>)
    requires before + slots <= visits
    ensures At(visits, |before|, slots)
  {
    assert (before + slots)[|before|..] == slots;
  }

  /** These slots stand at that place of a sweep. */
  predicate At(visits: seq<Slot>, from: nat, slots: seq<Slot>) {
    from + |slots| <= |visits| && visits[from..from + |slots|] == slots
  }

  lemma AllVisited(memories: seq<Memory>, listing: Memory -> Option<seq<nat>>, n: nat)
    requires Before(memories, |memories|, listing, n)
    ensures n == |Visits(memories, listing)|
  {
    assert memories[..|memories|] == memories;
  }

  // ----- the service object -----

  datatype Handoff = HandoffDelivered | HandoffRetry | HandoffDropped

  class ModemService {
    // the modem's own message store, as the AT commands see it
    var store: map<Slot, Stored>
    var inboundParts: seq<Stored>
    var channelFullDrops: Budgets
    var storeMemories: seq<Memory>
    var tally: Tally

    ghost function Abs(): World
      reads this
    {
      World(store, inboundParts, channelFullDrops, tally)
    }

    constructor (configured: Memory, entries: map<Slot, Stored>)
      ensures Abs() == World(entries, [], map[], ZERO)
      ensures storeMemories == [configured]
    {
      store, inboundParts, channelFullDrops := entries, [], map[];
      storeMemories := [configured];
      tally := ZERO;
    }

    /** sweepChannelFullBudgetsLocked */
    method SweepChannelFullBudgets(now: int)
      modifies `channelFullDrops
      ensures channelFullDrops == Fresh(old(channelFullDrops), now)
      ensures forall ref :: ref in channelFullDrops <==>
                ref in old(channelFullDrops) && now - old(channelFullDrops)[ref].seenAt < WINDOW
    {
      ghost var was := channelFullDrops;
      var rest := channelFullDrops.Keys;
      while rest != {}
        invariant rest <= was.Keys
        invariant channelFullDrops == map ref | ref in was && (ref in rest || !Elapsed(was[ref], now)) :: was[ref]
        decreases |rest|
      {
        var ref :| ref in rest;
        rest := rest - {ref};
        if now - channelFullDrops[ref].seenAt >= WINDOW {
          channelFullDrops := channelFullDrops - {ref};
        }
      }
    }

    /** evictOldestChannelFullBudgetLocked */
    method EvictOldestChannelFullBudget() returns (ghost victim: Option<StoredRef>)
      modifies `channelFullDrops
      ensures old(channelFullDrops) == map[] ==> victim.None? && channelFullDrops == map[]
      ensures old(channelFullDrops) != map[] ==>
                && victim.Some? && victim.value in old(channelFullDrops)
                && (forall ref :: ref in old(channelFullDrops) ==>
                      old(channelFullDrops)[victim.value].seenAt <= old(channelFullDrops)[ref].seenAt)
                && channelFullDrops == old(channelFullDrops) - {victim.value}
    {
      var oldest := None;
      var rest := channelFullDrops.Keys;
      while rest != {}
        invariant rest <= channelFullDrops.Keys
        invariant oldest.None? ==> rest == channelFullDrops.Keys
        invariant oldest.Some? ==> oldest.value in channelFullDrops
        invariant oldest.Some? ==> forall r :: r in channelFullDrops && r !in rest ==>
                                     channelFullDrops[oldest.value].seenAt <= channelFullDrops[r].seenAt
        decreases |rest|
      {
        var ref :| ref in rest;
        rest := rest - {ref};
        if oldest == None || channelFullDrops[ref].seenAt < channelFullDrops[oldest.value].seenAt {
          oldest := Some(ref);
        }
      }
      victim := oldest;
      if oldest != None {
        channelFullDrops := channelFullDrops - {oldest.value};
      }
    }

    /** Books one failed hand-off. A budget is evicted only when the map is full of
        budgets that are all still inside the window. */
    method SpendChannelFull(ref: StoredRef, now: int) returns (retry: bool, ghost victim: Option<StoredRef>)
      modifies `channelFullDrops
      ensures VictimOk(old(channelFullDrops), ref, now, victim)
      ensures Booking(channelFullDrops, retry) == Spend(old(channelFullDrops), ref, now, victim)
    {
      SweepChannelFullBudgets(now);
      victim := None;
      var budget;
      if ref in channelFullDrops {
        budget := Spent(channelFullDrops[ref].attempts + 1, now);
      } else {
        budget := Spent(1, now);
        if |channelFullDrops| >= REFS {
          victim := EvictOldestChannelFullBudget();
        }
      }
      ghost var room := channelFullDrops;
      channelFullDrops := channelFullDrops[ref := budget];
      if budget.attempts >= RETRIES {
        channelFullDrops := channelFullDrops - {ref};
        assert channelFullDrops == room - {ref};
        return false, victim;
      }
      return true, victim;
    }

    method ForgetChannelFull(ref: StoredRef)
      modifies `channelFullDrops
      ensures channelFullDrops == old(channelFullDrops) - {ref}
    {
      channelFullDrops := channelFullDrops - {ref};
    }

    /** Offers a part without blocking, and says what becomes of its store entry. */
    method HandOffInboundPart(slot: Slot, entry: Stored, now: int)
        returns (handoff: Handoff, ghost victim: Option<StoredRef>)
      modifies this
      ensures Full(old(Abs())) ==> VictimOk(old(channelFullDrops), RefOf(slot), now, victim)
      ensures forall attempts: nat ::
                var offered := AfterOffer(old(Abs()), slot, entry, now, victim, attempts);
                && Abs() == offered.world
                && offered.phase == (match handoff
                                     case HandoffDelivered => Deleting(entry, Delivered, attempts)
                                     case HandoffRetry => Done
                                     case HandoffDropped => Deleting(entry, Exhausted, attempts))
      ensures storeMemories == old(storeMemories)
    {
      var ref := StoredRef(if slot.memory.MT? then 1 else 0, slot.index);
      victim := None;
      if |inboundParts| < CHANNEL_SIZE {
        inboundParts := inboundParts + [entry];
        ForgetChannelFull(ref);
        return HandoffDelivered, victim;
      }
      var retry;
      retry, victim := SpendChannelFull(ref, now);
      if retry {
        tally := tally.(channelFull := tally.channelFull + 1);
        return HandoffRetry, victim;
      }
      tally := tally.(exhausted := tally.exhausted + 1);
      return HandoffDropped, victim;
    }

    /** deleteStoredMessage: bounded retries; the replies are the modem's. */
    method DeleteStoredMessage(slot: Slot, replies: seq<Reply>)
      requires replies != []
      modifies `store, `tally
      ensures Abs() == DeleteAll(old(Abs()), slot, replies)
    {
      for attempt := 0 to |replies|
        invariant Abs().channel == old(Abs()).channel && Abs().budgets == old(Abs()).budgets
        invariant attempt < |replies| ==>
                    DeleteAll(Abs(), slot, replies[attempt..]) == DeleteAll(old(Abs()), slot, replies)
        invariant attempt == |replies| ==>
                    Abs().(tally := tally.(deleteFailed := tally.deleteFailed + 1))
                    == DeleteAll(old(Abs()), slot, replies)
      {
        ghost var rest := replies[attempt..];
        assert rest[0] == replies[attempt] && rest[1..] == replies[attempt + 1..];
        match replies[attempt] {
          case Confirmed =>
            store := store - {slot};
            return;
          case Refused(applied) =>
            if applied {
              store := store - {slot};
            }
        }
      }
      tally := tally.(deleteFailed := tally.deleteFailed + 1);
    }

    /** processStoredEntry */
    method ProcessStoredEntry(slot: Slot, sweeping: bool, readOk: bool, now: int, replies: seq<Reply>)
        returns (ghost env: Env)
      requires replies != []
      modifies this
      ensures env == Env(readOk, now, env.victim, replies) && VictimChosen(old(Abs()), slot, env)
      ensures Abs() == Route(old(Abs()), slot, sweeping, env)
      ensures storeMemories == old(storeMemories)
    {
      env := Env(readOk, now, None, replies);
      if !readOk || slot !in store {
        tally := tally.(readFailed := tally.readFailed + 1);
        return;
      }
      var entry := store[slot];
      if !entry.decodes {
        tally := tally.(decodeFailed := tally.decodeFailed + 1);
        if sweeping {
          DeleteStoredMessage(slot, replies);
        }
        return;
      }
      var handoff;
      ghost var victim;
      handoff, victim := HandOffInboundPart(slot, entry, now);
      env := env.(victim := victim);
      ghost var offered := AfterOffer(old(Abs()), slot, entry, now, victim, |replies|);
      assert Abs() == offered.world;
      if handoff == HandoffRetry {
        return;
      }
      DeleteStoredMessage(slot, replies);
    }

    method SetStoreMemory(memory: Memory)
      modifies `storeMemories
      ensures storeMemories == if memory in old(storeMemories) then old(storeMemories)
                               else old(storeMemories) + [memory]
    {
      if memory in storeMemories {
        return;
      }
      storeMemories := storeMemories + [memory];
    }

    method TrackedStoreMemories() returns (memories: seq<Memory>)
      ensures memories == Tracked(storeMemories)
      ensures memories == if storeMemories == [] then [SM] else storeMemories
    {
      memories := if |storeMemories| == 0 then [SM] else storeMemories;
    }

    /** sweepStore, one store: every listed entry takes the route, until the context is
        cancelled - once `stop` entries of the whole sweep have been visited. */
    method SweepListed(
        memory: Memory, indices: seq<nat>, answer: nat -> Env, visited: nat, stop: Option<nat>,
        ghost w: World, ghost visits: seq<Slot>, ghost before: seq<Env>)
        returns (ghost envs: seq<Env>, after: nat, stopped: bool)
      requires visited == |before| && (stop.Some? ==> visited <= stop.value)
      requires At(visits, visited, SlotsOf(memory, indices)) && forall i :: answer(i).replies != []
      requires Underway(w, visits, answer, before, Abs())
      modifies this
      ensures Underway(w, visits, answer, envs, Abs()) && after == |envs| && (stop.Some? ==> after <= stop.value)
      ensures if stopped then stop == Some(after) else after == visited + |indices|
      ensures storeMemories == old(storeMemories)
    {
      envs, stopped := before, false;
      for k := 0 to |indices|
        invariant storeMemories == old(storeMemories) && |envs| == visited + k
        invariant Underway(w, visits, answer, envs, Abs())
        invariant stop.Some? ==> visited + k <= stop.value
      {
        if stop.Some? && visited + k >= stop.value {
          return envs, visited + k, true;
        }
        assert visits[visited + k] == SlotsOf(memory, indices)[k];
        var met := answer(visited + k);
        ghost var mid := Abs();
        ghost var env;
        env := ProcessStoredEntry(Slot(memory, indices[k]), true, met.readOk, met.now, met.replies);
        VisitGoesOn(w, visits, answer, envs, mid, env);
        envs := envs + [env];
      }
      after := visited + |indices|;
    }

    /** The turn of one store, listed with its own name. */
    method SweepMemory(
        memory: Memory, listing: Memory -> Option<seq<nat>>, answer: nat -> Env, visited: nat, stop: Option<nat>,
        ghost w: World, ghost visits: seq<Slot>, ghost before: seq<Env>)
        returns (ghost envs: seq<Env>, after: nat, stopped: bool)
      requires visited == |before| && (stop.Some? ==> visited <= stop.value)
      requires At(visits, visited, Listed(memory, listing)) && forall i :: answer(i).replies != []
      requires Underway(w, visits, answer, before, Abs())
      modifies this
      ensures Underway(w, visits, answer, envs, Abs()) && after == |envs| && (stop.Some? ==> after <= stop.value)
      ensures if stopped then stop == Some(after) else after == visited + |Listed(memory, listing)|
      ensures storeMemories == old(storeMemories)
    {
      envs, after, stopped := before, visited, false;
      if stop.Some? && visited >= stop.value {
        stopped := true;
        return;
      }
      var listed := listing(memory);
      if listed == None {
        return;
      }
      envs, after, stopped := SweepListed(memory, listed.value, answer, visited, stop, w, visits, before);
    }

    /** The turns of the stores, one after the other. */
    method SweepMemories(
        memories: seq<Memory>, listing: Memory -> Option<seq<nat>>, answer: nat -> Env, stop: Option<nat>)
        returns (ghost envs: seq<Env>)
      requires forall i :: answer(i).replies != []
      modifies this
      ensures |envs| == Reach(|Visits(memories, listing)|, true, stop)
      ensures Underway(old(Abs()), Visits(memories, listing), answer, envs, Abs())
      ensures storeMemories == old(storeMemories)
    {
      envs := [];
      ghost var w, visits := Abs(), Visits(memories, listing);
      var visited, stopped := 0, false;
      for m := 0 to |memories|
        invariant storeMemories == old(storeMemories)
        invariant visited == |envs| && (stop.Some? ==> visited <= stop.value)
        invariant Before(memories, m, listing, visited)
        invariant Underway(w, visits, answer, envs, Abs())
      {
        TurnVisits(memories, m, listing, visited);
        envs, visited, stopped := SweepMemory(memories[m], listing, answer, visited, stop, w, visits, envs);
        if stopped {
          return;
        }
      }
      AllVisited(memories, listing, visited);
    }

    /** sweepStore: every tracked store is listed with its own name, a store that cannot
        be listed is skipped. answer(i) is what the i-th route of the pass meets; nothing is
        swept of a disconnected modem, and nothing after `stop` entries. */
    method SweepStore(
        listing: Memory -> Option<seq<nat>>, answer: nat -> Env, connected: bool, stop: Option<nat>)
        returns (ghost envs: seq<Env>)
      requires forall i :: answer(i).replies != []
      modifies this
      ensures var visits := Visits(Tracked(old(storeMemories)), listing);
              && |envs| == Reach(|visits|, connected, stop)
              && Underway(old(Abs()), visits, answer, envs, Abs())
      ensures storeMemories == old(storeMemories)
    {
      envs := [];
      var memories := TrackedStoreMemories();
      if connected {
        envs := SweepMemories(memories, listing, answer, stop);
      }
    }

    /** handleCMTI, with the parsed head, the handlers already running and whether the
        modem is connected as inputs. Only a complete route can touch the store. */
    method HandleCMTI(
        head: Option<Slot>, running: nat, connected: bool, readOk: bool, now: int, replies: seq<Reply>)
        returns (ghost env: Env)
      requires replies != []
      modifies this
      ensures env == Env(readOk, now, env.victim, replies)
      ensures head.None? ==>
                Abs() == old(Abs()).(tally := old(tally).(malformed := old(tally).malformed + 1))
      ensures head.Some? && running >= HANDLER_LIMIT ==>
                Abs() == old(Abs()).(tally := old(tally).(saturated := old(tally).saturated + 1))
      ensures head.Some? && running < HANDLER_LIMIT && !connected ==>
                Abs() == old(Abs()).(tally := old(tally).(disconnected := old(tally).disconnected + 1))
      ensures head.Some? && running < HANDLER_LIMIT && connected ==>
                Abs() == Route(old(Abs()), head.value, false, env) && VictimChosen(old(Abs()), head.value, env)
      ensures storeMemories == if head.Some? && head.value.memory !in old(storeMemories)
                               then old(storeMemories) + [head.value.memory] else old(storeMemories)
    {
      env := Env(readOk, now, None, replies);
      if head == None {
        tally := tally.(malformed := tally.malformed + 1);
        return;
      }
      SetStoreMemory(head.value.memory);
      if running >= HANDLER_LIMIT {
        tally := tally.(saturated := tally.saturated + 1);
        return;
      }
      if !connected {
        tally := tally.(disconnected := tally.disconnected + 1);
        return;
      }
      env := ProcessStoredEntry(head.value, false, readOk, now, replies);
    }
  }
}
