/**
  When three attempts are a bound (internal/modem/service.go): over runs of failed hand-offs
  that follow one another inside the window, exactly for up to 64 references.
 */
module BudgetBound {
  import opened Collections
  import opened Options
  import opened Budget
  import opened BudgetRuns

  predicate Over(events: seq<Failure>, refs: set<StoredRef>) {
    forall i :: 0 <= i < |events| ==> events[i].ref in refs
  }

  /** Two failures of one reference with none of it in between. */
  predicate Successive(events: seq<Failure>, i: nat, j: nat) {
    && i < j < |events| && events[i].ref == events[j].ref
    && forall k :: i < k < j ==> events[k].ref != events[i].ref
  }

  /** Every failure finds the budget of the one before it still inside its window. */
  ghost predicate Inside(events: seq<Failure>) {
    forall i: nat, j: nat :: Successive(events, i, j) ==> events[j].at - events[i].at < WINDOW
  }

  predicate RetriedThrice(clock: int, events: seq<Failure>, i: nat, j: nat, k: nat) {
    && Successive(events, i, j) && Successive(events, j, k)
    && Retried(clock, events, i) && Retried(clock, events, j) && Retried(clock, events, k)
  }

  /** Of any three successive failures of a reference one is final. */
  ghost predicate Bound(clock: int, events: seq<Failure>) {
    forall i: nat, j: nat, k: nat :: !RetriedThrice(clock, events, i, j, k)
  }

  // ----- few references keep their budgets -----

  function After(clock: int, events: seq<Failure>, k: nat): Budgets
    requires k <= |events|
  {
    Exec(Start(clock), events[..k]).budgets
  }

  lemma AfterNext(clock: int, events: seq<Failure>, k: nat)
    requires k < |events| && Possible(Start(clock), events)
    ensures VictimOk(After(clock, events, k), events[k].ref, events[k].at, events[k].victim)
    ensures After(clock, events, k + 1) ==
              Spend(After(clock, events, k), events[k].ref, events[k].at, events[k].victim).budgets
  {
    PossiblePrefix(Start(clock), events, k + 1);
    LastEnabled(Start(clock), events, k);
  }

  lemma {:induction false} KeysOver(clock: int, events: seq<Failure>, refs: set<StoredRef>, k: nat)
    requires k <= |events| && Possible(Start(clock), events) && Over(events, refs)
    ensures After(clock, events, k).Keys <= refs
  {
    if k > 0 {
      KeysOver(clock, events, refs, k - 1);
      AfterNext(clock, events, k - 1);
    } else {
      assert events[..0] == [];
    }
  }

  /** No failure of the run evicts. */
  lemma NoVictim(clock: int, events: seq<Failure>, refs: set<StoredRef>, k: nat)
    requires k < |events| && Possible(Start(clock), events) && Over(events, refs) && |refs| <= REFS
    ensures events[k].victim == None
  {
    KeysOver(clock, events, refs, k);
    AfterNext(clock, events, k);
    NeverCrowded(After(clock, events, k), refs, events[k].ref, events[k].at);
  }

  lemma {:induction false} Forward(clock: int, events: seq<Failure>, i: nat, j: nat)
    requires i <= j < |events| && Possible(Start(clock), events)
    ensures events[i].at <= events[j].at
    decreases j
  {
    if i < j {
      Forward(clock, events, i, j - 1);
      PossiblePrefix(Start(clock), events, j + 1);
      LastEnabled(Start(clock), events, j);
      ClockOf(clock, events[..j]);
    }
  }

  predicate Held(budgets: Budgets, ref: StoredRef, attempts: nat, at: int) {
    ref in budgets && budgets[ref].attempts >= attempts && budgets[ref].seenAt == at
  }

  /** A failure of another reference leaves a budget alone that is inside its window. */
  lemma OtherSpendHolds(budgets: Budgets, e: Failure, ref: StoredRef, attempts: nat, at: int)
    requires Held(budgets, ref, attempts, at) && e.ref != ref && e.at - at < WINDOW && e.victim == None
    ensures Held(Spend(budgets, e.ref, e.at, e.victim).budgets, ref, attempts, at)
  {
  }

  lemma HeldOn(
      clock: int, events: seq<Failure>, refs: set<StoredRef>, k: nat, ref: StoredRef, attempts: nat, at: int)
    requires k < |events| && Possible(Start(clock), events) && Over(events, refs) && |refs| <= REFS
    requires events[k].ref != ref && events[k].at - at < WINDOW && Held(After(clock, events, k), ref, attempts, at)
    ensures Held(After(clock, events, k + 1), ref, attempts, at)
  {
    AfterNext(clock, events, k);
    NoVictim(clock, events, refs, k);
    OtherSpendHolds(After(clock, events, k), events[k], ref, attempts, at);
  }

  /** A budget stays as it is up to the next failure of its reference. */
  lemma {:induction false} HeldUntil(
      clock: int, events: seq<Failure>, refs: set<StoredRef>, i: nat, j: nat, m: nat, attempts: nat)
    requires Possible(Start(clock), events) && Over(events, refs) && |refs| <= REFS
    requires Successive(events, i, j) && events[j].at - events[i].at < WINDOW && i < m <= j
    requires Held(After(clock, events, i + 1), events[i].ref, attempts, events[i].at)
    ensures Held(After(clock, events, m), events[i].ref, attempts, events[i].at)
    decreases m
  {
    if m > i + 1 {
      HeldUntil(clock, events, refs, i, j, m - 1, attempts);
      Forward(clock, events, m - 1, j);
      HeldOn(clock, events, refs, m - 1, events[i].ref, attempts, events[i].at);
    }
  }

  /** A failure that is retried books one more attempt than the budget held. */
  lemma RetryHolds(clock: int, events: seq<Failure>, refs: set<StoredRef>, k: nat)
    requires k < |events| && Possible(Start(clock), events) && Retried(clock, events, k)
    requires Over(events, refs) && |refs| <= REFS
    ensures Held(After(clock, events, k + 1), events[k].ref, 1, events[k].at)
  {
    AfterNext(clock, events, k);
  }

  lemma NextRetryHolds(
      clock: int, events: seq<Failure>, refs: set<StoredRef>, i: nat, j: nat, attempts: nat)
    requires Possible(Start(clock), events) && Over(events, refs) && |refs| <= REFS && Inside(events)
    requires Successive(events, i, j) && Retried(clock, events, j)
    requires Held(After(clock, events, i + 1), events[i].ref, attempts, events[i].at)
    ensures attempts + 1 < RETRIES && Held(After(clock, events, j + 1), events[j].ref, attempts + 1, events[j].at)
  {
    HeldUntil(clock, events, refs, i, j, j, attempts);
    AfterNext(clock, events, j);
    assert events[j].at - events[i].at < WINDOW;
  }

  lemma FewAreBounded(clock: int, events: seq<Failure>, refs: set<StoredRef>)
    requires Possible(Start(clock), events) && Over(events, refs) && |refs| <= REFS && Inside(events)
    ensures Bound(clock, events)
  {
    forall i: nat, j: nat, k: nat ensures !RetriedThrice(clock, events, i, j, k) {
      if RetriedThrice(clock, events, i, j, k) {
        RetryHolds(clock, events, refs, i);
        NextRetryHolds(clock, events, refs, i, j, 1);
        NextRetryHolds(clock, events, refs, j, k, 2);
        assert false;
      }
    }
  }

  // ----- more are not -----

  lemma {:induction false} Pick(refs: set<StoredRef>, n: nat) returns (picked: seq<StoredRef>)
    requires n <= |refs|
    ensures |picked| == n && Distinct(picked) && forall ref :: ref in picked ==> ref in refs
    decreases n
  {
    picked := [];
    if n > 0 {
      var ref :| ref in refs;
      picked := Pick(refs - {ref}, n - 1);
      picked := picked + [ref];
    }
  }

  /** References that fail in turn, 65 of them, are each again inside the window. */
  lemma TurnsInside(clock: int, refs: seq<StoredRef>, events: seq<Failure>)
    requires |refs| == REFS + 1 && Distinct(refs) && InTurn(clock, refs, events)
    ensures Inside(events)
  {
    forall i: nat, j: nat | Successive(events, i, j) ensures events[j].at - events[i].at < WINDOW {
      if j - i > |refs| {
        TurnsRevisit(clock, refs, events, i + |refs|);
        assert false;
      }
    }
  }

  lemma TurnsSucceed(clock: int, refs: seq<StoredRef>, events: seq<Failure>, i: nat)
    requires |refs| == REFS + 1 && Distinct(refs) && InTurn(clock, refs, events) && i + |refs| < |events|
    ensures Successive(events, i, i + |refs|)
  {
    RoundRobinSpreads(refs, events);
    TurnsRevisit(clock, refs, events, i + |refs|);
  }

  lemma TurnsThrice(clock: int, refs: seq<StoredRef>, events: seq<Failure>)
    requires |refs| == REFS + 1 && Distinct(refs) && InTurn(clock, refs, events) && 2 * |refs| < |events|
    requires AllRetried(clock, events)
    ensures RetriedThrice(clock, events, 0, |refs|, 2 * |refs|)
  {
    TurnsSucceed(clock, refs, events, 0);
    TurnsSucceed(clock, refs, events, |refs|);
  }

  lemma TurnsOver(clock: int, picked: seq<StoredRef>, events: seq<Failure>, refs: set<StoredRef>)
    requires picked != [] && InTurn(clock, picked, events) && forall ref :: ref in picked ==> ref in refs
    ensures Over(events, refs)
  {
  }

  ghost predicate Breaks(clock: int, events: seq<Failure>, refs: set<StoredRef>) {
    Possible(Start(clock), events) && Over(events, refs) && Inside(events) && !Bound(clock, events)
  }

  lemma TurnsBreak(clock: int, picked: seq<StoredRef>, events: seq<Failure>, refs: set<StoredRef>)
    requires |picked| == REFS + 1 && Distinct(picked) && forall ref :: ref in picked ==> ref in refs
    requires InTurn(clock, picked, events) && 2 * |picked| < |events|
    requires Possible(Start(clock), events) && AllRetried(clock, events)
    ensures Breaks(clock, events, refs)
  {
    TurnsOver(clock, picked, events, refs);
    TurnsInside(clock, picked, events);
    TurnsThrice(clock, picked, events);
  }

  lemma ManyAreNot(refs: set<StoredRef>) returns (events: seq<Failure>)
    requires |refs| > REFS
    ensures Breaks(0, events, refs)
  {
    var picked := Pick(refs, REFS + 1);
    TurnsNeverShed(0, picked, 3 * |picked|);
    events :| |events| == 3 * |picked| && InTurn(0, picked, events)
              && Possible(Start(0), events) && AllRetried(0, events);
    TurnsBreak(0, picked, events, refs);
  }

  // ----- main result -----

  ghost predicate Bounds(refs: set<StoredRef>) {
    forall clock, events: seq<Failure> ::
      Possible(Start(clock), events) && Over(events, refs) && Inside(events) ==> Bound(clock, events)
  }

  /** EXACTLY when three attempts are a bound: in every run of failures of these references,
      each inside the window of the one before, one of any three successive failures of a
      reference is final - if and only if there are at most 64 of them. */
  lemma ThreeAttemptsIffFew(refs: set<StoredRef>)
    ensures Bounds(refs) <==> |refs| <= 64
  {
    if |refs| <= REFS {
      forall clock, events: seq<Failure> | Possible(Start(clock), events) && Over(events, refs) && Inside(events)
        ensures Bound(clock, events)
      {
        FewAreBounded(clock, events, refs);
      }
    } else {
      var events := ManyAreNot(refs);
    }
  }
}
