/**
  Settled messages (internal/messages): without failures, and with cancels between passes
  only, the state of every message is the resolution of the states of its recipients
  whenever the worker is idle - across sends, reports, cancels and expiry.
 */
module OutboxSettled {
  import opened Options
  import opened Outbox
  import opened OutboxMachine

  predicate SettledRow(m: Message) {
    m.recipients != [] ==> m.state == Resolve(Currents(m.recipients))
  }

  /** A step that nothing disturbs. */
  predicate Undisturbed(m: Machine, l: Label) {
    match l
    case Cancel(_, _) => m.phase.Idle?
    case Load(ok) => ok
    case Begin(_, _, ok) => ok
    case Record(_, _, ok) => ok
    case Finish(_, applied) => applied
    case Reload(ok) => ok
    case Rederive(_, applied) => applied
    case Stop => false
    case _ => true
  }

  ghost predicate LeadsUndisturbed(m: Machine, labels: seq<Label>, n: Machine)
    decreases |labels|
  {
    if labels == [] then m == n
    else
      && Enabled(m, labels[0]) && Undisturbed(m, labels[0])
      && LeadsUndisturbed(Do(m, labels[0]), labels[1..], n)
  }

  /** The recipients done are as recorded; those not begun are as loaded. */
  predicate InStep(t: Table, job: Job, begun: nat) {
    && job.index < |t| && |job.results| + begun <= |job.loaded.recipients| == |t[job.index].recipients|
    && (forall j :: 0 <= j < |job.results| ==> job.results[j] == Current(t[job.index].recipients[j]))
    && (forall j :: |job.results| + begun <= j < |job.loaded.recipients| ==>
          Current(job.loaded.recipients[j]) == Current(t[job.index].recipients[j]))
  }

  predicate PhaseInStep(t: Table, phase: Phase) {
    match phase
    case Idle => true
    case Loading(i) => i < |t|
    case Working(job) => InStep(t, job, 0)
    case Sending(job) => InStep(t, job, 1)
    case Recording(job, outcome, _, _) => InStep(t, job, 1) && (outcome.Sent? || outcome.Failed?)
    case Reloading(i) => i < |t|
    case Rederiving(i, final) => i < |t| && final == Resolve(Currents(t[i].recipients))
  }

  /** The message the worker is at. */
  predicate Busy(phase: Phase, i: nat) {
    match phase
    case Idle => false
    case Loading(n) => i == n
    case Working(job) => i == job.index
    case Sending(job) => i == job.index
    case Recording(job, _, _, _) => i == job.index
    case Reloading(n) => i == n
    case Rederiving(n, _) => i == n
  }

  predicate OthersSettled(t: Table, phase: Phase) {
    forall i :: 0 <= i < |t| && !Busy(phase, i) ==> SettledRow(t[i])
  }

  predicate Settled(m: Machine) {
    PhaseInStep(m.table, m.phase) && OthersSettled(m.table, m.phase)
  }

  // ----- rows -----

  lemma NewSettles(input: Input, now: int)
    ensures SettledRow(NewMessage(input, now))
  {
  }

  lemma SweptState(r: Recipient, state: State, now: int)
    ensures Current(Swept(r, state, now)) == if Current(r).Failed? then Failed else state
  {
  }

  lemma {:induction false} CancelSettles(m: Message, now: int)
    requires SettledRow(m)
    ensures SettledRow(CancelledRow(m, now))
  {
    var n := CancelledRow(m, now);
    if m.recipients != [] && Cancellable(m) {
      var before, after := Currents(m.recipients), Currents(n.recipients);
      assert !Resolve(before).Failed?;
      var j :| 0 <= j < |before| && before[j] != Failed;
      forall k | 0 <= k < |after| ensures after[k] == if before[k].Failed? then Failed else Cancelled {
        SweptState(m.recipients[k], Cancelled, now);
      }
      assert after[j] in after;
      assert Pending !in after;
    }
  }

  lemma {:induction false} ExpirySettles(m: Message, now: int)
    requires SettledRow(m)
    ensures SettledRow(ExpiredRow(m, now))
  {
    var n := ExpiredRow(m, now);
    if m.recipients != [] && Overdue(m, now) {
      forall j | 0 <= j < |n.recipients| ensures Currents(n.recipients)[j] == Failed {
        assert n.recipients[j] == Swept(m.recipients[j], Failed, now);
      }
    }
  }

  // ----- steps -----

  lemma DequeueSettled(t: Table, now: int, at: Option<nat>)
    requires OthersSettled(t, Idle) && NextDue(Expired(t, now), now, at)
    ensures OthersSettled(Claimed(Expired(t, now), at, now), if at.Some? then Loading(at.value) else Idle)
  {
    var u := Expired(t, now);
    forall i | 0 <= i < |u| ensures SettledRow(u[i]) {
      ExpirySettles(t[i], now);
    }
  }

  lemma RecordInStep(m: Machine, l: Label)
    requires Settled(m) && Enabled(m, l) && Undisturbed(m, l) && l.Record?
    ensures Settled(Do(m, l))
  {
  }

  lemma FinishSettled(m: Machine, now: int)
    requires Settled(m) && Enabled(m, Finish(now, true))
    ensures Settled(Do(m, Finish(now, true)))
  {
    var job := m.phase.job;
    assert job.results == Currents(m.table[job.index].recipients);
  }

  lemma AddedInStep(t: Table, phase: Phase, n: Message)
    requires PhaseInStep(t, phase) && OthersSettled(t, phase) && SettledRow(n)
    ensures PhaseInStep(t + [n], phase) && OthersSettled(t + [n], phase)
  {
  }

  lemma CreateInStep(m: Machine, l: Label)
    requires Settled(m) && Enabled(m, l) && l.Create?
    ensures Settled(Do(m, l))
  {
    NewSettles(l.input, l.now);
    AddedInStep(m.table, m.phase, NewMessage(l.input, l.now));
  }

  lemma CancelInStep(m: Machine, l: Label)
    requires Settled(m) && Enabled(m, l) && l.Cancel? && m.phase.Idle?
    ensures Settled(Do(m, l))
  {
    CancelSettles(m.table[l.index], l.now);
  }

  /** The steps within a pass or a report that leave every settled row as it is. */
  lemma InnerInStep(m: Machine, l: Label)
    requires Settled(m) && Enabled(m, l) && Undisturbed(m, l)
    requires l.Load? || l.Skip? || l.Begin? || l.Refuse? || l.Send?
    ensures Settled(Do(m, l))
  {
  }

  lemma ReportInStep(m: Machine, l: Label)
    requires Settled(m) && Enabled(m, l) && l.Report?
    ensures Settled(Do(m, l))
  {
  }

  lemma ReloadInStep(m: Machine, l: Label)
    requires Settled(m) && Enabled(m, l) && l.Reload? && l.ok
    ensures Settled(Do(m, l))
  {
    assert TableAfter(m, l) == m.table;
    if PhaseAfter(m, l).Idle? {
      assert SettledRow(m.table[m.phase.index]);
    }
  }

  lemma RederiveInStep(m: Machine, l: Label)
    requires Settled(m) && Enabled(m, l) && l.Rederive? && l.applied
    ensures Settled(Do(m, l))
  {
  }

  lemma StepSettled(m: Machine, l: Label)
    requires Settled(m) && Enabled(m, l) && Undisturbed(m, l)
    ensures Settled(Do(m, l))
  {
    match l
    case Create(_, _) => CreateInStep(m, l);
    case Cancel(_, _) => CancelInStep(m, l);
    case Dequeue(now, at) => DequeueSettled(m.table, now, at);
    case Record(_, _, _) => RecordInStep(m, l);
    case Finish(now, _) => FinishSettled(m, now);
    case Report(_, _, _, _, _) => ReportInStep(m, l);
    case Reload(_) => ReloadInStep(m, l);
    case Rederive(_, _) => RederiveInStep(m, l);
    case _ => InnerInStep(m, l);
  }

  lemma {:induction false} LeadsSettled(m: Machine, labels: seq<Label>, n: Machine)
    requires Settled(m) && LeadsUndisturbed(m, labels, n)
    ensures Settled(n)
    decreases |labels|
  {
    if labels != [] {
      StepSettled(m, labels[0]);
      LeadsSettled(Do(m, labels[0]), labels[1..], n);
    }
  }

  /** Whenever the worker is idle, every message that has recipients is in the state its
      recipients resolve to: untouched messages Pending, and the others by the outcomes of
      their sends, reports, cancels and expiry. */
  lemma IdleIsSettled(labels: seq<Label>, n: Machine, i: nat)
    requires LeadsUndisturbed(START, labels, n) && n.phase.Idle?
    requires i < |n.table| && n.table[i].recipients != []
    ensures n.table[i].state == Resolve(Currents(n.table[i].recipients))
  {
    LeadsSettled(START, labels, n);
    assert SettledRow(n.table[i]);
  }
}
