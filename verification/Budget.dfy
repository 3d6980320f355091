/**
  The full-channel hand-off budget of modem store entries (internal/modem/service.go):
  three attempts per reference, at most 64 references, a five-minute window. Times are
  integers in nanoseconds.
 */
module Budget {
  import opened Collections
  import opened Options

  // inboundChannelFullRetries, inboundChannelFullRefs, inboundChannelFullBudgetWindow
  const RETRIES: nat := 3
  const REFS: nat := 64
  const WINDOW: int := 300_000_000_000

  datatype StoredRef = StoredRef(memory: int, index: int)

  datatype Spent = Spent(attempts: nat, seenAt: int)

  type Budgets = map<StoredRef, Spent>

  predicate Elapsed(b: Spent, now: int) {
    now - b.seenAt >= WINDOW
  }

  function Fresh(budgets: Budgets, now: int): Budgets {
    map ref | ref in budgets && !Elapsed(budgets[ref], now) :: budgets[ref]
  }

  predicate IsOldest(budgets: Budgets, ref: StoredRef) {
    ref in budgets && forall r :: r in budgets ==> budgets[ref].seenAt <= budgets[r].seenAt
  }

  /** A new reference needs room although every expired budget is already gone. */
  predicate Crowded(budgets: Budgets, ref: StoredRef, now: int) {
    ref !in Fresh(budgets, now) && |Fresh(budgets, now)| >= REFS
  }

  /** The budget given up to make room: one with minimal seenAt. Go's map iteration
      order decides between ties, so the victim is a choice. */
  predicate VictimOk(budgets: Budgets, ref: StoredRef, now: int, victim: Option<StoredRef>) {
    if Crowded(budgets, ref, now) then victim.Some? && IsOldest(Fresh(budgets, now), victim.value)
    else victim.None?
  }

  datatype Booking = Booking(budgets: Budgets, retry: bool)

  /** One failed hand-off, booked. */
  function Spend(budgets: Budgets, ref: StoredRef, now: int, victim: Option<StoredRef>): Booking {
    var live := Fresh(budgets, now);
    var room := if victim.Some? then live - {victim.value} else live;
    var attempts := if ref in live then live[ref].attempts + 1 else 1;
    if attempts >= RETRIES then Booking(room - {ref}, false)
    else Booking(room[ref := Spent(attempts, now)], true)
  }

  /** A failure is final exactly if two attempts were booked before, the last of them inside
      the window; otherwise one more is booked, now. Of the other budgets those go whose
      window elapsed, and the one given up. */
  lemma SpendExact(budgets: Budgets, ref: StoredRef, now: int, victim: Option<StoredRef>)
    requires VictimOk(budgets, ref, now, victim)
    ensures var n := Spend(budgets, ref, now, victim);
            var live := ref in budgets && now - budgets[ref].seenAt < WINDOW;
            && (n.retry <==> !(live && budgets[ref].attempts >= RETRIES - 1))
            && (ref in n.budgets <==> n.retry)
            && (n.retry ==> n.budgets[ref] == Spent(if live then budgets[ref].attempts + 1 else 1, now))
            && (forall x :: x in n.budgets && x != ref <==>
                  x in budgets && x != ref && now - budgets[x].seenAt < WINDOW && victim != Some(x))
            && (forall x :: x in n.budgets && x != ref ==> n.budgets[x] == budgets[x])
  {
  }

  /** One is given up exactly if the reference has none inside its window and 64 others do,
      and it is one of those that were booked longest ago. */
  lemma VictimExact(budgets: Budgets, ref: StoredRef, now: int, victim: Option<StoredRef>)
    requires VictimOk(budgets, ref, now, victim)
    ensures var live := set x | x in budgets && now - budgets[x].seenAt < WINDOW;
            && (victim.Some? <==> ref !in live && |live| >= REFS)
            && (victim.Some? ==>
                  victim.value in live && forall x :: x in live ==> budgets[victim.value].seenAt <= budgets[x].seenAt)
  {
    assert Fresh(budgets, now).Keys == set x | x in budgets && now - budgets[x].seenAt < WINDOW;
  }

  /** At most 64 budgets are live, each with one or two attempts spent. */
  predicate Bounded(budgets: Budgets) {
    |budgets| <= REFS && forall ref :: ref in budgets ==> 1 <= budgets[ref].attempts < RETRIES
  }

  lemma FreshSmaller(budgets: Budgets, now: int)
    ensures |Fresh(budgets, now)| <= |budgets|
  {
    var live := Fresh(budgets, now);
    assert live.Keys <= budgets.Keys;
    assert budgets.Keys == live.Keys + (budgets.Keys - live.Keys);
  }

  lemma RemoveSize(budgets: Budgets, ref: StoredRef)
    ensures |budgets - {ref}| == if ref in budgets then |budgets| - 1 else |budgets|
  {
  }

  lemma UpdateSize(budgets: Budgets, ref: StoredRef, b: Spent)
    ensures |budgets[ref := b]| == if ref in budgets then |budgets| else |budgets| + 1
  {
  }

  lemma SpendBounded(budgets: Budgets, ref: StoredRef, now: int, victim: Option<StoredRef>)
    requires Bounded(budgets) && VictimOk(budgets, ref, now, victim)
    ensures Bounded(Spend(budgets, ref, now, victim).budgets)
  {
    var live := Fresh(budgets, now);
    FreshSmaller(budgets, now);
    var room := if victim.Some? then live - {victim.value} else live;
    if victim.Some? {
      RemoveSize(live, victim.value);
    }
    RemoveSize(room, ref);
    UpdateSize(room, ref, Spent(if ref in live then live[ref].attempts + 1 else 1, now));
  }

  // ----- few references never crowd the map -----

  /** The budgets in play belong to at most 64 references. */
  predicate Few(budgets: Budgets, refs: set<StoredRef>) {
    budgets.Keys <= refs && |refs| <= REFS
  }

  lemma NeverCrowded(budgets: Budgets, refs: set<StoredRef>, ref: StoredRef, now: int)
    requires Few(budgets, refs) && ref in refs
    ensures !Crowded(budgets, ref, now)
  {
    var live := Fresh(budgets, now);
    if ref !in live {
      assert live.Keys <= refs - {ref};
      SubsetSize(live.Keys, refs - {ref});
    }
  }
}
