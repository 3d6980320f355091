/**
  What the retry budget means over whole runs: a counter over the history of each
  reference, and when the three-attempt bound really sheds entries.
 */
module BudgetRuns {
  import opened Options
  import opened Budget

  /** What happens to the budget map: a full-channel failure, an accepted hand-off,
      or the periodic reclamation. */
  datatype Event =
    | Fail(ref: StoredRef, at: int, victim: Option<StoredRef>)
    | Accept(ref: StoredRef)
    | Reclaim(at: int)

  /** What is worth remembering; retry is the answer the failure got. */
  datatype Fact = Failed(ref: StoredRef, at: int, retry: bool) | Accepted(ref: StoredRef) | Evicted(ref: StoredRef)

  datatype Run = Run(budgets: Budgets, log: seq<Fact>, clock: int)

  function Step(r: Run, e: Event): Run {
    match e
    case Fail(ref, at, victim) =>
      var booking := Spend(r.budgets, ref, at, victim);
      Run(booking.budgets,
          r.log + (if victim.Some? then [Evicted(victim.value)] else []) + [Failed(ref, at, booking.retry)],
          at)
    case Accept(ref) => Run(r.budgets - {ref}, r.log + [Accepted(ref)], r.clock)
    case Reclaim(at) => Run(Fresh(r.budgets, at), r.log, at)
  }

  /** The clock runs forward and the victim is one the code can pick. */
  ghost predicate Enabled(r: Run, e: Event) {
    match e
    case Fail(ref, at, victim) => r.clock <= at && VictimOk(r.budgets, ref, at, victim)
    case Accept(_) => true
    case Reclaim(at) => r.clock <= at
  }

  function Exec(r: Run, events: seq<Event>): Run {
    if events == [] then r else Step(Exec(r, events[..|events| - 1]), events[|events| - 1])
  }

  ghost predicate Possible(r: Run, events: seq<Event>) {
    events == [] || (
      && Possible(r, events[..|events| - 1])
      && Enabled(Exec(r, events[..|events| - 1]), events[|events| - 1]))
  }

  function Start(clock: int): Run {
    Run(map[], [], clock)
  }

  // ----- the specification: a look at the last two facts about a reference -----

  function About(log: seq<Fact>, ref: StoredRef): seq<Fact> {
    if log == [] then []
    else
      About(log[..|log| - 1], ref) + (if log[|log| - 1].ref == ref then [log[|log| - 1]] else [])
  }

  /** The last fact about the reference is a retryable failure inside the window. */
  predicate Following(history: seq<Fact>, at: int) {
    && history != []
    && var last := history[|history| - 1];
       last.Failed? && last.retry && at - last.at < WINDOW
  }

  /** A failure now is the third of its chain: the two facts before it are retryable
      failures, each inside the window of the next - so no accepted hand-off, eviction
      or earlier exhaustion of the reference lies in between. */
  predicate Third(history: seq<Fact>, at: int) {
    && Following(history, at)
    && Following(history[..|history| - 1], history[|history| - 1].at)
  }

  /** What the map should hold for a reference with this history. */
  function Owed(history: seq<Fact>): Option<Spent> {
    if history == [] then None
    else
      var last := history[|history| - 1];
      if !last.Failed? || !last.retry then None
      else Some(Spent(if Following(history[..|history| - 1], last.at) then 2 else 1, last.at))
  }

  /** The map agrees with the history of every reference; elapsed budgets may be gone. */
  ghost predicate Agrees(r: Run) {
    forall ref ::
      if ref in r.budgets then Owed(About(r.log, ref)) == Some(r.budgets[ref])
      else Owed(About(r.log, ref)).Some? ==> Elapsed(Owed(About(r.log, ref)).value, r.clock)
  }

  /** Every failure got the answer the history demands. */
  predicate Answered(log: seq<Fact>) {
    forall k :: 0 <= k < |log| && log[k].Failed? ==>
      (log[k].retry <==> !Third(About(log[..k], log[k].ref), log[k].at))
  }

  ghost predicate Sound(r: Run) {
    Bounded(r.budgets) && Agrees(r) && Answered(r.log)
  }

  lemma AboutAppend(log: seq<Fact>, f: Fact, ref: StoredRef)
    ensures About(log + [f], ref) == if f.ref == ref then About(log, ref) + [f] else About(log, ref)
  {
  }

  lemma AnsweredAppend(log: seq<Fact>, f: Fact)
    requires Answered(log)
    requires f.Failed? ==> (f.retry <==> !Third(About(log, f.ref), f.at))
    ensures Answered(log + [f])
  {
    var next := log + [f];
    forall k | 0 <= k < |next| && next[k].Failed?
      ensures next[k].retry <==> !Third(About(next[..k], next[k].ref), next[k].at)
    {
      assert next[..k] == log[..k];
      if k == |log| {
        assert log[..k] == log;
      } else {
        assert next[k] == log[k];
      }
    }
  }

  lemma OwedAppend(history: seq<Fact>, f: Fact)
    ensures Owed(history + [f]) ==
            if f.Failed? && f.retry then Some(Spent(if Following(history, f.at) then 2 else 1, f.at)) else None
  {
  }

  lemma EvictionAgrees(r: Run, victim: StoredRef)
    requires Agrees(r)
    ensures Agrees(Run(r.budgets - {victim}, r.log + [Evicted(victim)], r.clock))
  {
  }

  lemma ReclaimAgrees(r: Run, at: int)
    requires Agrees(r) && r.clock <= at
    ensures Agrees(Run(Fresh(r.budgets, at), r.log, at))
  {
  }

  /** What a look-up tells: whether the failure follows another one in the window, and
      whether it is the third. */
  lemma LookupExact(r: Run, ref: StoredRef, at: int)
    requires Agrees(r) && r.clock <= at && r.budgets == Fresh(r.budgets, at)
    requires forall x :: x in r.budgets ==> 1 <= r.budgets[x].attempts < RETRIES
    ensures ref in r.budgets <==> Following(About(r.log, ref), at)
    ensures ref in r.budgets && r.budgets[ref].attempts == 2 <==> Third(About(r.log, ref), at)
  {
  }

  /** A budget, and the history it stands for. */
  predicate AgreesAt(history: seq<Fact>, b: Option<Spent>, clock: int) {
    if b.Some? then Owed(history) == b else Owed(history).Some? ==> Elapsed(Owed(history).value, clock)
  }

  function BudgetOf(budgets: Budgets, ref: StoredRef): Option<Spent> {
    if ref in budgets then Some(budgets[ref]) else None
  }

  /** The budget of the failing reference: one attempt more, or none left. */
  lemma OwnFailureAgrees(history: seq<Fact>, b: Option<Spent>, ref: StoredRef, at: int)
    requires b.Some? <==> Following(history, at)
    requires b.Some? && b.value.attempts == 2 <==> Third(history, at)
    requires b.Some? ==> 1 <= b.value.attempts < RETRIES
    ensures var third := Third(history, at);
            AgreesAt(history + [Failed(ref, at, !third)],
                     if third then None else Some(Spent(if b.Some? then b.value.attempts + 1 else 1, at)), at)
  {
    OwedAppend(history, Failed(ref, at, !Third(history, at)));
  }

  /** Any other budget stays, and what had elapsed has still. */
  lemma OtherFailureAgrees(r: Run, f: Fact, ref: StoredRef)
    requires Agrees(r) && f.Failed? && f.ref != ref && r.clock <= f.at
    ensures AgreesAt(About(r.log + [f], ref), BudgetOf(r.budgets, ref), f.at)
  {
    AboutAppend(r.log, f, ref);
  }

  lemma FailureAgrees(r: Run, ref: StoredRef, at: int)
    requires Agrees(r) && r.clock <= at && r.budgets == Fresh(r.budgets, at)
    requires forall x :: x in r.budgets ==> 1 <= r.budgets[x].attempts < RETRIES
    ensures var booking := Spend(r.budgets, ref, at, None);
            && (booking.retry <==> !Third(About(r.log, ref), at))
            && Agrees(Run(booking.budgets, r.log + [Failed(ref, at, booking.retry)], at))
  {
    LookupExact(r, ref, at);
    var third := Third(About(r.log, ref), at);
    var budgets := Spend(r.budgets, ref, at, None).budgets;
    var f := Failed(ref, at, !third);
    assert budgets == if third then r.budgets - {ref}
                      else r.budgets[ref := Spent(if ref in r.budgets then r.budgets[ref].attempts + 1 else 1, at)];
    OwnFailureAgrees(About(r.log, ref), BudgetOf(r.budgets, ref), ref, at);
    AboutAppend(r.log, f, ref);
    forall x ensures AgreesAt(About(r.log + [f], x), BudgetOf(budgets, x), at) {
      if x != ref {
        OtherFailureAgrees(r, f, x);
        assert BudgetOf(budgets, x) == BudgetOf(r.budgets, x);
      }
    }
    AllAgree(Run(budgets, r.log + [f], at));
  }

  lemma AllAgree(r: Run)
    requires forall x :: AgreesAt(About(r.log, x), BudgetOf(r.budgets, x), r.clock)
    ensures Agrees(r)
  {
    forall x
      ensures if x in r.budgets then Owed(About(r.log, x)) == Some(r.budgets[x])
              else Owed(About(r.log, x)).Some? ==> Elapsed(Owed(About(r.log, x)).value, r.clock)
    {
      assert AgreesAt(About(r.log, x), BudgetOf(r.budgets, x), r.clock);
    }
  }

  lemma SpendFromFresh(budgets: Budgets, ref: StoredRef, at: int, victim: Option<StoredRef>)
    requires VictimOk(budgets, ref, at, victim)
    ensures var room := if victim.Some? then Fresh(budgets, at) - {victim.value} else Fresh(budgets, at);
            Spend(budgets, ref, at, victim) == Spend(room, ref, at, None) && room == Fresh(room, at)
  {
  }

  lemma FailSound(r: Run, ref: StoredRef, at: int, victim: Option<StoredRef>)
    requires Sound(r) && Enabled(r, Fail(ref, at, victim))
    ensures Sound(Step(r, Fail(ref, at, victim)))
  {
    SpendBounded(r.budgets, ref, at, victim);
    SpendFromFresh(r.budgets, ref, at, victim);
    ReclaimAgrees(r, at);
    var swept := Run(Fresh(r.budgets, at), r.log, at);
    var mid := swept;
    if victim.Some? {
      EvictionAgrees(swept, victim.value);
      AnsweredAppend(r.log, Evicted(victim.value));
      mid := Run(swept.budgets - {victim.value}, r.log + [Evicted(victim.value)], at);
    }
    FailureAgrees(mid, ref, at);
    AnsweredAppend(mid.log, Failed(ref, at, Spend(mid.budgets, ref, at, None).retry));
    assert mid.log == r.log + if victim.Some? then [Evicted(victim.value)] else [];
  }

  lemma AcceptSound(r: Run, ref: StoredRef)
    requires Sound(r)
    ensures Sound(Step(r, Accept(ref)))
  {
    RemoveSize(r.budgets, ref);
    AnsweredAppend(r.log, Accepted(ref));
    var t := Step(r, Accept(ref));
    forall x
      ensures if x in t.budgets then Owed(About(t.log, x)) == Some(t.budgets[x])
              else Owed(About(t.log, x)).Some? ==> Elapsed(Owed(About(t.log, x)).value, t.clock)
    {
      AboutAppend(r.log, Accepted(ref), x);
      OwedAppend(About(r.log, x), Accepted(ref));
    }
  }

  lemma StepSound(r: Run, e: Event)
    requires Sound(r) && Enabled(r, e)
    ensures Sound(Step(r, e))
  {
    match e
    case Fail(ref, at, victim) => FailSound(r, ref, at, victim);
    case Accept(ref) => AcceptSound(r, ref);
    case Reclaim(at) =>
      ReclaimAgrees(r, at);
      FreshSmaller(r.budgets, at);
  }

  // ----- main results -----

  /** In every reachable state at most 64 budgets are live, each with one or two
      attempts, and the map agrees with the history of every reference. */
  lemma {:induction false} RunSound(clock: int, events: seq<Event>)
    requires Possible(Start(clock), events)
    ensures Sound(Exec(Start(clock), events))
  {
    if events != [] {
      RunSound(clock, events[..|events| - 1]);
      StepSound(Exec(Start(clock), events[..|events| - 1]), events[|events| - 1]);
    }
  }

  /** REFINEMENT. A failure is answered "no more retries" exactly when it is the third
      of a chain of failures of its reference whose gaps are all below the window, with
      no accepted hand-off, eviction or earlier exhaustion of the reference in between. */
  lemma SpentExactlyAtThird(clock: int, events: seq<Event>, ref: StoredRef, at: int, victim: Option<StoredRef>)
    requires Possible(Start(clock), events) && Enabled(Exec(Start(clock), events), Fail(ref, at, victim))
    ensures var r := Exec(Start(clock), events);
            !Spend(r.budgets, ref, at, victim).retry <==> Third(About(r.log, ref), at)
  {
    var r := Exec(Start(clock), events);
    RunSound(clock, events);
    SpendFromFresh(r.budgets, ref, at, victim);
    ReclaimAgrees(r, at);
    var swept := Run(Fresh(r.budgets, at), r.log, at);
    if victim.Some? {
      EvictionAgrees(swept, victim.value);
      var mid := Run(swept.budgets - {victim.value}, r.log + [Evicted(victim.value)], at);
      AboutAppend(r.log, Evicted(victim.value), ref);
      assert victim.value != ref;
      LookupExact(mid, ref, at);
    } else {
      LookupExact(swept, ref, at);
    }
  }

  // ----- the bound is a bound on few references only -----

  type Failure = e: Event | e.Fail? witness Fail(StoredRef(0, 0), 0, None)

  predicate Rising(events: seq<Failure>) {
    forall i, j :: 0 <= i < j < |events| ==> events[i].at < events[j].at
  }

  /** At least 64 failures of other references lie between two of the same one; a round
      robin over more than 64 references is such a run. */
  predicate Spread(events: seq<Failure>) {
    forall i, j :: 0 <= i < j < |events| && j - i <= REFS ==> events[i].ref != events[j].ref
  }

  predicate DistinctRefs(events: seq<Failure>) {
    forall i, j :: 0 <= i < j < |events| ==> events[i].ref != events[j].ref
  }

  /** The budgets are those of these failures, one attempt each. */
  predicate Recent(budgets: Budgets, events: seq<Failure>) {
    && (forall e :: e in events ==> e.ref in budgets && budgets[e.ref] == Spent(1, e.at))
    && (forall ref :: ref in budgets ==> exists e :: e in events && e.ref == ref)
  }

  lemma {:induction false} RecentSize(budgets: Budgets, events: seq<Failure>)
    requires DistinctRefs(events) && Recent(budgets, events)
    ensures |budgets| == |events|
  {
    if events == [] {
      assert budgets == map[];
    } else {
      RemoveSize(budgets, events[0].ref);
      RecentTail(budgets, events);
      RecentSize(budgets - {events[0].ref}, events[1..]);
    }
  }

  lemma RecentTail(budgets: Budgets, events: seq<Failure>)
    requires events != [] && DistinctRefs(events) && Recent(budgets, events)
    ensures Recent(budgets - {events[0].ref}, events[1..]) && events[0].ref in budgets
  {
  }

  /** The failures whose budgets have not elapsed: the latest ones, as times rise. */
  function LiveTail(events: seq<Failure>, at: int): (tail: seq<Failure>)
    ensures |tail| <= |events| && tail == events[|events| - |tail|..]
  {
    if events == [] || at - events[0].at < WINDOW then events else LiveTail(events[1..], at)
  }

  lemma AllLive(budgets: Budgets, events: seq<Failure>, at: int)
    requires Rising(events) && Recent(budgets, events) && (events == [] || at - events[0].at < WINDOW)
    ensures Fresh(budgets, at) == budgets
  {
  }

  lemma FreshSkips(budgets: Budgets, ref: StoredRef, at: int)
    requires ref in budgets ==> Elapsed(budgets[ref], at)
    ensures Fresh(budgets, at) == Fresh(budgets - {ref}, at)
  {
  }

  lemma TailKeeps(events: seq<Failure>)
    requires events != [] && Rising(events) && DistinctRefs(events)
    ensures Rising(events[1..]) && DistinctRefs(events[1..])
  {
  }

  lemma {:induction false} RecentFresh(budgets: Budgets, events: seq<Failure>, at: int)
    requires Rising(events) && DistinctRefs(events) && Recent(budgets, events)
    ensures Recent(Fresh(budgets, at), LiveTail(events, at))
    ensures Rising(LiveTail(events, at)) && DistinctRefs(LiveTail(events, at))
  {
    if events == [] || at - events[0].at < WINDOW {
      AllLive(budgets, events, at);
    } else {
      FirstSpent(budgets, events);
      FreshSkips(budgets, events[0].ref, at);
      RecentTail(budgets, events);
      TailKeeps(events);
      RecentFresh(budgets - {events[0].ref}, events[1..], at);
    }
  }

  lemma FirstSpent(budgets: Budgets, events: seq<Failure>)
    requires events != [] && Recent(budgets, events)
    ensures events[0].ref in budgets && budgets[events[0].ref] == Spent(1, events[0].at)
  {
  }

  lemma RecentAppend(budgets: Budgets, events: seq<Failure>, e: Failure)
    requires Recent(budgets, events) && e.ref !in budgets
    ensures Recent(budgets[e.ref := Spent(1, e.at)], events + [e])
  {
  }

  lemma OldestOfRecent(budgets: Budgets, events: seq<Failure>, ref: StoredRef)
    requires events != [] && Rising(events) && Recent(budgets, events) && IsOldest(budgets, ref)
    ensures ref == events[0].ref
  {
  }

  predicate NoneAbout(events: seq<Failure>, ref: StoredRef) {
    forall s :: 0 <= s < |events| ==> events[s].ref != ref
  }

  lemma RecentMisses(budgets: Budgets, events: seq<Failure>, ref: StoredRef)
    requires Recent(budgets, events) && NoneAbout(events, ref)
    ensures ref !in budgets
  {
  }

  lemma SuffixMisses(events: seq<Failure>, k: nat, ref: StoredRef)
    requires k <= |events| && NoneAbout(events, ref)
    ensures NoneAbout(events[k..], ref)
  {
  }

  /** Room for one more: past the cap it is the oldest failure that is forgotten. */
  lemma RoomForOne(live: Budgets, tail: seq<Failure>, ref: StoredRef, victim: Option<StoredRef>)
      returns (room: Budgets, next: seq<Failure>)
    requires Rising(tail) && DistinctRefs(tail) && Recent(live, tail) && |tail| <= REFS
    requires ref !in live
    requires if |live| >= REFS then victim.Some? && IsOldest(live, victim.value) else victim.None?
    ensures room == if victim.Some? then live - {victim.value} else live
    ensures |next| <= |tail| && |next| < REFS && next == tail[|tail| - |next|..] && Recent(room, next)
  {
    RecentSize(live, tail);
    room, next := live, tail;
    if |tail| == REFS {
      OldestOfRecent(live, tail, victim.value);
      RecentTail(live, tail);
      room, next := live - {tail[0].ref}, tail[1..];
    }
  }

  /** One more failure of a spread run: it finds no budget of its own, and the one it
      pushes out at the cap is the oldest. */
  lemma SpreadStep(budgets: Budgets, events: seq<Failure>, e: Failure) returns (next: seq<Failure>)
    requires |events| <= REFS && Rising(events) && DistinctRefs(events) && NoneAbout(events, e.ref)
    requires Recent(budgets, events) && VictimOk(budgets, e.ref, e.at, e.victim)
    ensures Spend(budgets, e.ref, e.at, e.victim).retry
    ensures |next| <= |events| && |next| < REFS && next == events[|events| - |next|..]
    ensures Recent(Spend(budgets, e.ref, e.at, e.victim).budgets, next + [e])
  {
    var live, tail := Fresh(budgets, e.at), LiveTail(events, e.at);
    RecentFresh(budgets, events, e.at);
    SuffixMisses(events, |events| - |tail|, e.ref);
    RecentMisses(live, tail, e.ref);
    var room;
    room, next := RoomForOne(live, tail, e.ref, e.victim);
    RecentAppend(room, next, e);
  }

  /** Up to 64 failures before a given one are of different references, and none is of its. */
  predicate WindowOk(events: seq<Failure>, lo: int, k: int) {
    0 <= lo <= k < |events| && k - lo <= REFS ==>
      var w := events[lo..k];
      Rising(w) && DistinctRefs(w) && NoneAbout(w, events[k].ref)
  }

  ghost predicate Windows(events: seq<Failure>) {
    forall lo, k :: WindowOk(events, lo, k)
  }

  lemma SpreadWindows(events: seq<Failure>)
    requires Spread(events) && Rising(events)
    ensures Windows(events)
  {
  }

  lemma SpreadNext(budgets: Budgets, events: seq<Failure>, was: nat, k: nat) returns (lo: nat)
    requires was <= k < |events| && k - was <= REFS && Windows(events)
    requires Recent(budgets, events[was..k])
    requires VictimOk(budgets, events[k].ref, events[k].at, events[k].victim)
    ensures lo <= k + 1 && k + 1 - lo <= REFS
    ensures Recent(Spend(budgets, events[k].ref, events[k].at, events[k].victim).budgets, events[lo..k + 1])
  {
    var window := events[was..k];
    assert WindowOk(events, was, k);
    var next := SpreadStep(budgets, window, events[k]);
    lo := k - |next|;
    WindowExtends(events, was, k, window, next);
  }

  /** After k failures the budgets are those of the last few. */
  predicate Remembers(clock: int, events: seq<Failure>, lo: nat, k: nat) {
    lo <= k <= |events| && k - lo <= REFS && Recent(Exec(Start(clock), events[..k]).budgets, events[lo..k])
  }

  lemma RemembersOn(clock: int, events: seq<Failure>, was: nat, k: nat) returns (lo: nat)
    requires Windows(events) && k < |events| && Remembers(clock, events, was, k)
    requires Possible(Start(clock), events[..k + 1])
    ensures Remembers(clock, events, lo, k + 1)
  {
    LastEnabled(Start(clock), events, k);
    lo := SpreadNext(Exec(Start(clock), events[..k]).budgets, events, was, k);
  }

  lemma {:induction false} SpreadRecent(clock: int, events: seq<Failure>, k: nat) returns (lo: nat)
    requires Windows(events) && k <= |events| && Possible(Start(clock), events[..k])
    ensures Remembers(clock, events, lo, k)
  {
    lo := 0;
    if k > 0 {
      assert events[..k][..k - 1] == events[..k - 1];
      var was := SpreadRecent(clock, events, k - 1);
      lo := RemembersOn(clock, events, was, k - 1);
    }
  }

  lemma LastEnabled(r: Run, events: seq<Failure>, k: nat)
    requires k < |events| && Possible(r, events[..k + 1])
    ensures Possible(r, events[..k]) && Enabled(Exec(r, events[..k]), events[k])
    ensures Exec(r, events[..k + 1]) == Step(Exec(r, events[..k]), events[k])
  {
    assert events[..k + 1][..k] == events[..k];
  }

  lemma WindowExtends(events: seq<Failure>, was: nat, k: nat, window: seq<Failure>, next: seq<Failure>)
    requires was <= k < |events| && window == events[was..k]
    requires |next| <= |window| && next == window[|window| - |next|..]
    ensures next + [events[k]] == events[k - |next|..k + 1]
  {
  }

  /** With more than 64 failing references the three-attempt bound fails for ever: in a
      run that spreads its failures over them, every failure is answered "retry", so no
      entry is ever shed, however long the run. */
  lemma SpreadNeverSheds(clock: int, events: seq<Failure>, k: nat)
    requires Spread(events) && Rising(events) && k < |events| && Possible(Start(clock), events[..k + 1])
    ensures var r := Exec(Start(clock), events[..k]);
            Spend(r.budgets, events[k].ref, events[k].at, events[k].victim).retry
  {
    LastEnabled(Start(clock), events, k);
    SpreadWindows(events);
    var lo := SpreadRecent(clock, events, k);
    assert WindowOk(events, lo, k);
    var next := SpreadStep(Exec(Start(clock), events[..k]).budgets, events[lo..k], events[k]);
  }

  lemma ResiduesApart(i: nat, j: nat, n: nat)
    requires 0 < j - i < n
    ensures i % n != j % n
  {
    Multiples(j / n - i / n, n);
    assert j - i == (j / n - i / n) * n + (j % n - i % n);
  }

  /** A round robin over 65 or more references spreads its failures. */
  lemma RoundRobinSpreads(refs: seq<StoredRef>, events: seq<Failure>)
    requires REFS < |refs| && forall i, j :: 0 <= i < j < |refs| ==> refs[i] != refs[j]
    requires forall i :: 0 <= i < |events| ==> events[i].ref == refs[i % |refs|]
    ensures Spread(events)
  {
    forall i, j | 0 <= i < j < |events| && j - i <= REFS ensures events[i].ref != events[j].ref {
      ResiduesApart(i, j, |refs|);
    }
  }

  // ----- such runs exist, of any length -----

  lemma {:induction false} OldestExists(budgets: Budgets) returns (oldest: StoredRef)
    requires budgets != map[]
    ensures IsOldest(budgets, oldest)
    decreases |budgets|
  {
    oldest :| oldest in budgets;
    var rest := budgets - {oldest};
    if rest != map[] {
      RemoveSize(budgets, oldest);
      var other := OldestExists(rest);
      forall r | r in budgets ensures r == oldest || budgets[other].seenAt <= budgets[r].seenAt {
        if r != oldest {
          assert r in rest;
        }
      }
      if budgets[other].seenAt < budgets[oldest].seenAt {
        oldest := other;
      }
    }
  }

  /** Whatever the budgets are, a failure finds a budget to give up if it needs one. */
  lemma VictimExists(budgets: Budgets, ref: StoredRef, at: int) returns (victim: Option<StoredRef>)
    ensures VictimOk(budgets, ref, at, victim)
  {
    victim := None;
    if Crowded(budgets, ref, at) {
      assert Fresh(budgets, at) != map[];
      var oldest := OldestExists(Fresh(budgets, at));
      victim := Some(oldest);
    }
  }

  lemma {:induction false} ClockOf(clock: int, events: seq<Failure>)
    ensures Exec(Start(clock), events).clock == if events == [] then clock else events[|events| - 1].at
  {
  }

  /** The references fail in turn, one nanosecond apart. */
  predicate InTurn(clock: int, refs: seq<StoredRef>, events: seq<Failure>)
    requires refs != []
  {
    forall i :: 0 <= i < |events| ==> events[i].ref == refs[i % |refs|] && events[i].at == clock + i
  }

  lemma InTurnOn(clock: int, refs: seq<StoredRef>, before: seq<Failure>, e: Failure)
    requires refs != [] && InTurn(clock, refs, before)
    requires e.ref == refs[|before| % |refs|] && e.at == clock + |before|
    ensures InTurn(clock, refs, before + [e])
  {
  }

  lemma {:induction false} TurnsPossible(clock: int, refs: seq<StoredRef>, n: nat) returns (events: seq<Failure>)
    requires refs != []
    ensures |events| == n && InTurn(clock, refs, events) && Possible(Start(clock), events)
  {
    events := [];
    if n > 0 {
      var before := TurnsPossible(clock, refs, n - 1);
      ClockOf(clock, before);
      var r := Exec(Start(clock), before);
      var ref := refs[(n - 1) % |refs|];
      var victim := VictimExists(r.budgets, ref, clock + n - 1);
      var e: Failure := Fail(ref, clock + n - 1, victim);
      events := before + [e];
      InTurnOn(clock, refs, before, e);
      assert events[..n - 1] == before;
    }
  }

  predicate AllRetried(clock: int, events: seq<Failure>) {
    forall k :: 0 <= k < |events| ==> Retried(clock, events, k)
  }

  /** The k-th failure is answered "retry". */
  predicate Retried(clock: int, events: seq<Failure>, k: nat)
    requires k < |events|
  {
    Spend(Exec(Start(clock), events[..k]).budgets, events[k].ref, events[k].at, events[k].victim).retry
  }

  lemma {:induction false} PossiblePrefix(r: Run, events: seq<Event>, k: nat)
    requires Possible(r, events) && k <= |events|
    ensures Possible(r, events[..k])
  {
    if k < |events| {
      PossiblePrefix(r, events[..|events| - 1], k);
      assert events[..|events| - 1][..k] == events[..k];
    } else {
      assert events[..k] == events;
    }
  }

  /** The bound really fails: 65 or more references that fail in turn, each again well
      inside its window, are never given up. Such runs are possible at any length. */
  lemma TurnsNeverShed(clock: int, refs: seq<StoredRef>, n: nat)
    requires REFS < |refs| < WINDOW && forall i, j :: 0 <= i < j < |refs| ==> refs[i] != refs[j]
    ensures exists events: seq<Failure> ::
              && |events| == n && InTurn(clock, refs, events)
              && Possible(Start(clock), events) && AllRetried(clock, events)
  {
    var events := TurnsPossible(clock, refs, n);
    RoundRobinSpreads(refs, events);
    forall k | 0 <= k < |events| ensures Retried(clock, events, k) {
      PossiblePrefix(Start(clock), events, k + 1);
      SpreadNeverSheds(clock, events, k);
    }
  }

  /** In such a run every failure but the first of its reference follows one of the same
      reference inside the window: it is the evictions alone that undo the count. */
  lemma TurnsRevisit(clock: int, refs: seq<StoredRef>, events: seq<Failure>, k: nat)
    requires refs != [] && |refs| < WINDOW && InTurn(clock, refs, events) && |refs| <= k < |events|
    ensures events[k - |refs|].ref == events[k].ref && events[k].at - events[k - |refs|].at < WINDOW
  {
    SameTurn(k, |refs|);
  }

  lemma SameTurn(k: nat, n: nat)
    requires 0 < n <= k
    ensures (k - n) % n == k % n
  {
    var gap := k / n - (k - n) / n - 1;
    assert gap * n == (k - n) % n - k % n;
    Multiples(gap, n);
  }

  lemma Multiples(gap: int, n: int)
    requires 0 < n
    ensures gap >= 1 ==> gap * n >= n
    ensures gap <= -1 ==> gap * n <= -n
  {
  }
}
