/**
  What holds in every reachable state of the outbox (internal/messages): at most one Sent
  entry, one accepted report and - but for lost records - one send per recipient; the state
  column is the last history entry; a message that is no longer claimable has no recipient
  left to send to.
 */
module OutboxRuns {
  import opened Collections
  import opened Options
  import opened Outbox
  import opened OutboxMachine
  import opened OutboxRepository

  function SentCount(states: seq<Entry>): nat {
    if states == [] then 0
    else SentCount(states[..|states| - 1]) + if states[|states| - 1].state.Sent? then 1 else 0
  }

  lemma SentCountOn(states: seq<Entry>, e: Entry)
    ensures SentCount(states + [e]) == SentCount(states) + if e.state.Sent? then 1 else 0
  {
  }

  // ----- recipients -----

  /** Sent at most once, and not before the recipient left {Pending, Processed}. */
  predicate RecipientOk(r: Recipient) {
    SentCount(r.states) <= 1 && (Open(Current(r)) ==> SentCount(r.states) == 0)
  }

  predicate NoneOpen(rs: seq<Recipient>) {
    forall j :: 0 <= j < |rs| ==> !Open(Current(rs[j]))
  }

  predicate NoneCancelled(rs: seq<Recipient>) {
    forall j :: 0 <= j < |rs| ==> !Current(rs[j]).Cancelled?
  }

  /** The state column is the last entry of the history; while a recipient is open, so is
      the message, and no recipient is cancelled. */
  predicate RowOk(m: Message) {
    && m.state == Latest(m.states)
    && UniquePhones(m.recipients)
    && (forall j :: 0 <= j < |m.recipients| ==> RecipientOk(m.recipients[j]))
    && (NoneOpen(m.recipients) || (Open(m.state) && NoneCancelled(m.recipients)))
  }

  predicate TableOk(t: Table) {
    UniqueIds(t) && forall i :: 0 <= i < |t| ==> RowOk(t[i])
  }

  lemma AppendOk(r: Recipient, s: Recipient, e: Entry)
    requires RecipientOk(r) && s.states == r.states + [e] && !e.state.Pending?
    requires e.state.Sent? ==> SentCount(r.states) == 0
    requires e.state.Processed? ==> Open(Current(r))
    ensures RecipientOk(s) && Current(s) == e.state
    ensures SentCount(s.states) == SentCount(r.states) + if e.state.Sent? then 1 else 0
  {
  }

  lemma MovedOk(r: Recipient, state: State, ref: Option<int>, now: int)
    requires RecipientOk(r) && !state.Pending? && (state.Sent? ==> SentCount(r.states) == 0)
    ensures RecipientOk(Moved(r, state, ref, now))
    ensures !state.Sent? ==> SentCount(Moved(r, state, ref, now).states) == SentCount(r.states)
    ensures !Open(state) ==> Current(Moved(r, state, ref, now)) == state
    ensures Open(Current(Moved(r, state, ref, now))) ==> Open(Current(r))
    ensures Current(Moved(r, state, ref, now)).Cancelled? ==> Current(r).Cancelled? || state.Cancelled?
  {
  }

  lemma SweptOk(r: Recipient, state: State, now: int)
    requires RecipientOk(r) && (state.Failed? || state.Cancelled?)
    ensures RecipientOk(Swept(r, state, now)) && SentCount(Swept(r, state, now).states) == SentCount(r.states)
    ensures !Open(Current(Swept(r, state, now)))
  {
  }

  // ----- rows -----

  predicate SameSents(m: Message, n: Message) {
    && |n.recipients| == |m.recipients|
    && forall j :: 0 <= j < |m.recipients| ==> SentCount(n.recipients[j].states) == SentCount(m.recipients[j].states)
  }

  lemma SweptRowOk(m: Message, n: Message, state: State, now: int)
    requires RowOk(m) && (state.Failed? || state.Cancelled?)
    requires n == Entered(m, state, now).(recipients := SweptAll(m.recipients, state, now))
    ensures RowOk(n) && SameSents(m, n) && NoneOpen(n.recipients)
  {
    forall j | 0 <= j < |m.recipients|
      ensures RecipientOk(n.recipients[j]) && !Open(Current(n.recipients[j]))
      ensures SentCount(n.recipients[j].states) == SentCount(m.recipients[j].states)
      ensures n.recipients[j].phone == m.recipients[j].phone
    {
      SweptOk(m.recipients[j], state, now);
    }
  }

  lemma CancelOk(m: Message, now: int)
    requires RowOk(m)
    ensures RowOk(CancelledRow(m, now)) && SameSents(m, CancelledRow(m, now)) && CancelledRow(m, now).id == m.id
  {
    if Cancellable(m) {
      SweptRowOk(m, CancelledRow(m, now), Cancelled, now);
    }
  }

  lemma ExpiryOk(m: Message, now: int)
    requires RowOk(m)
    ensures RowOk(ExpiredRow(m, now)) && SameSents(m, ExpiredRow(m, now)) && ExpiredRow(m, now).id == m.id
  {
    if Overdue(m, now) {
      SweptRowOk(m, ExpiredRow(m, now), Failed, now);
    }
  }

  lemma RecipientSetOk(m: Message, k: nat, state: State, ref: Option<int>, now: int)
    requires RowOk(m) && k < |m.recipients| && !state.Pending? && !state.Cancelled?
    requires state.Sent? ==> SentCount(m.recipients[k].states) == 0
    ensures RowOk(RecipientSet(m, k, state, ref, now))
    ensures !state.Sent? ==> SameSents(m, RecipientSet(m, k, state, ref, now))
  {
    var n := RecipientSet(m, k, state, ref, now);
    MovedOk(m.recipients[k], state, ref, now);
    assert forall j :: 0 <= j < |m.recipients| && j != k ==> n.recipients[j] == m.recipients[j];
  }

  lemma StateOk(m: Message, state: State, now: int)
    requires RowOk(m) && (Open(state) || NoneOpen(m.recipients))
    ensures RowOk(StateSet(m, state, now)) && RowOk(Entered(m, state, now))
  {
  }

  lemma ReportOk(t: Table, p: Place, state: State, now: int)
    requires TableOk(t) && Exists(t, p) && (state.Delivered? || state.Failed?)
    requires Current(t[p.message].recipients[p.recipient]).Sent?
    ensures var n := Reported(t, Some(p), state, now)[p.message];
            RowOk(n) && SameSents(t[p.message], n) && n.id == t[p.message].id
  {
    var m := t[p.message];
    var n := Reported(t, Some(p), state, now)[p.message];
    assert RowOk(m);
    AppendOk(m.recipients[p.recipient], n.recipients[p.recipient], Entry(state, now));
    assert forall j :: 0 <= j < |m.recipients| && j != p.recipient ==> n.recipients[j] == m.recipients[j];
  }

  lemma CreateOk(input: Input, now: int)
    requires Distinct(input.phones)
    ensures RowOk(NewMessage(input, now))
  {
    var n := NewMessage(input, now);
    forall j | 0 <= j < |n.recipients| ensures RecipientOk(n.recipients[j]) && Current(n.recipients[j]).Pending? {
      SentCountOn([], Entry(Pending, now));
    }
  }

  // ----- the tables -----

  predicate SameTableSents(t: Table, u: Table) {
    |t| <= |u| && forall i :: 0 <= i < |t| ==> SameSents(t[i], u[i])
  }

  lemma UpdateOk(t: Table, i: nat, n: Message)
    requires TableOk(t) && i < |t| && RowOk(n) && n.id == t[i].id
    ensures TableOk(t[i := n])
    ensures SameSents(t[i], n) ==> SameTableSents(t, t[i := n])
  {
  }

  lemma DequeueOk(t: Table, now: int, at: Option<nat>)
    requires TableOk(t) && NextDue(Expired(t, now), now, at)
    ensures TableOk(Claimed(Expired(t, now), at, now)) && SameTableSents(t, Claimed(Expired(t, now), at, now))
  {
    var u := Expired(t, now);
    forall i | 0 <= i < |t| ensures RowOk(u[i]) && SameSents(t[i], u[i]) && u[i].id == t[i].id {
      ExpiryOk(t[i], now);
    }
    if at.Some? {
      StateOk(u[at.value], Processed, now);
      UpdateOk(u, at.value, Entered(u[at.value], Processed, now));
    }
  }

  // ----- the worker -----

  /** A recipient that was open when it was loaded ends Sent or Failed; any other keeps the
      state it was loaded with. */
  predicate ResultOk(loaded: State, result: State) {
    if Open(loaded) then result.Sent? || result.Failed? else result == loaded
  }

  predicate DoneOk(job: Job, m: Message)
    requires |job.results| <= |job.loaded.recipients| == |m.recipients|
  {
    forall j :: 0 <= j < |job.results| ==>
      ResultOk(Current(job.loaded.recipients[j]), job.results[j]) && !Open(Current(m.recipients[j]))
  }

  predicate AheadOk(job: Job, m: Message)
    requires |job.loaded.recipients| == |m.recipients|
  {
    forall j :: |job.results| <= j < |m.recipients| && Open(Current(job.loaded.recipients[j])) ==>
      SentCount(m.recipients[j].states) == 0
  }

  predicate JobOk(t: Table, job: Job) {
    && job.index < |t|
    && RowGrows(job.loaded, t[job.index])
    && |job.results| <= |job.loaded.recipients|
    && DoneOk(job, t[job.index])
    && AheadOk(job, t[job.index])
  }

  predicate UnderWay(job: Job) {
    |job.results| < |job.loaded.recipients| && Open(Loaded(job))
  }

  predicate PhaseOk(t: Table, phase: Phase) {
    match phase
    case Idle => true
    case Loading(i) => i < |t|
    case Working(job) => JobOk(t, job)
    case Sending(job) => JobOk(t, job) && UnderWay(job)
    case Recording(job, outcome, ref, sent) =>
      && JobOk(t, job) && UnderWay(job)
      && (outcome.Sent? || outcome.Failed?) && (outcome.Sent? ==> sent)
    case Reloading(i) => i < |t|
    case Rederiving(i, final) => i < |t| && (Open(final) || NoneOpen(t[i].recipients))
  }

  lemma RowGrowsOn(a: Message, b: Message, c: Message)
    requires RowGrows(a, b) && RowGrows(b, c)
    ensures RowGrows(a, c)
  {
  }

  lemma PhaseKept(t: Table, u: Table, phase: Phase)
    requires PhaseOk(t, phase) && TableGrows(t, u) && SameTableSents(t, u)
    ensures PhaseOk(u, phase)
  {
  }

  lemma ResultsClosed(job: Job, m: Message)
    requires |job.results| == |job.loaded.recipients| == |m.recipients| && DoneOk(job, m)
    ensures !Open(Resolve(job.results)) && NoneOpen(m.recipients)
  {
  }

  /** The tables after a step; only the record of a send adds a Sent entry. */
  lemma StepTable(m: Machine, l: Label)
    requires TableOk(m.table) && PhaseOk(m.table, m.phase) && Enabled(m, l)
    ensures TableOk(TableAfter(m, l))
    ensures SameTableSents(m.table, TableAfter(m, l)) || (l.Record? && m.phase.outcome.Sent?)
  {
    var t := m.table;
    match l
    case Create(input, now) => CreateOk(input, now);
    case Cancel(i, now) =>
      CancelOk(t[i], now);
      UpdateOk(t, i, CancelledRow(t[i], now));
    case Dequeue(now, at) => DequeueOk(t, now, at);
    case Begin(now, _, _) =>
      var i, k := m.phase.job.index, |m.phase.job.results|;
      RecipientSetOk(t[i], k, Processed, None, now);
      UpdateOk(t, i, RecipientSet(t[i], k, Processed, None, now));
    case Record(now, _, _) =>
      var i, k := m.phase.job.index, |m.phase.job.results|;
      RecipientSetOk(t[i], k, m.phase.outcome, m.phase.ref, now);
      UpdateOk(t, i, RecipientSet(t[i], k, m.phase.outcome, m.phase.ref, now));
    case Finish(now, _) =>
      var i := m.phase.job.index;
      ResultsClosed(m.phase.job, t[i]);
      StateOk(t[i], Resolve(m.phase.job.results), now);
      UpdateOk(t, i, StateSet(t[i], Resolve(m.phase.job.results), now));
    case Report(_, _, state, p, now) =>
      ReportOk(t, p, state, now);
      UpdateOk(t, p.message, Reported(t, Some(p), state, now)[p.message]);
    case Rederive(now, _) =>
      StateOk(t[m.phase.index], m.phase.final, now);
      UpdateOk(t, m.phase.index, StateSet(t[m.phase.index], m.phase.final, now));
    case _ =>
  }

  lemma RecordPhase(m: Machine, l: Label)
    requires TableOk(m.table) && PhaseOk(m.table, m.phase) && Enabled(m, l) && l.Record? && l.applied
    requires TableGrows(m.table, TableAfter(m, l))
    ensures PhaseOk(TableAfter(m, l), PhaseAfter(m, l))
  {
    var job := m.phase.job;
    var k := |job.results|;
    var r := m.table[job.index].recipients[k];
    var n := TableAfter(m, l)[job.index];
    RowGrowsOn(job.loaded, m.table[job.index], n);
    MovedOk(r, m.phase.outcome, m.phase.ref, l.now);
    assert n.recipients[k] == Moved(r, m.phase.outcome, m.phase.ref, l.now);
    assert forall j :: 0 <= j < |n.recipients| && j != k ==> n.recipients[j] == m.table[job.index].recipients[j];
  }

  lemma LoadPhase(m: Machine, ok: bool)
    requires TableOk(m.table) && m.phase.Loading? && m.phase.index < |m.table|
    ensures PhaseOk(m.table, PhaseAfter(m, Load(ok)))
  {
  }

  lemma SkipPhase(t: Table, job: Job)
    requires JobOk(t, job) && More(t, job) && !Open(Loaded(job))
    ensures PhaseOk(t, Done(job, Loaded(job)))
  {
  }

  /** A phase that is right about the new tables is followed by one that is. */
  lemma NextPhase(m: Machine, l: Label, u: Table)
    requires Enabled(m, l) && |m.table| <= |u| && PhaseOk(u, m.phase)
    requires !l.Record? && !l.Load? && !l.Reload? && !l.Skip?
    ensures PhaseOk(u, PhaseAfter(m, l))
  {
  }

  lemma ReloadPhase(m: Machine, ok: bool)
    requires TableOk(m.table) && Enabled(m, Reload(ok))
    ensures PhaseOk(m.table, PhaseAfter(m, Reload(ok)))
  {
  }

  lemma JobPhase(m: Machine, l: Label)
    requires TableOk(m.table) && PhaseOk(m.table, m.phase) && Enabled(m, l)
    requires l.Record? || l.Load? || l.Reload? || l.Skip?
    requires TableGrows(m.table, TableAfter(m, l))
    ensures PhaseOk(TableAfter(m, l), PhaseAfter(m, l))
  {
    match l
    case Record(_, applied, _) =>
      if applied {
        RecordPhase(m, l);
      }
    case Load(ok) => LoadPhase(m, ok);
    case Skip => SkipPhase(m.table, m.phase.job);
    case Reload(ok) => ReloadPhase(m, ok);
  }

  lemma StepPhase(m: Machine, l: Label)
    requires TableOk(m.table) && PhaseOk(m.table, m.phase) && Enabled(m, l)
    requires TableGrows(m.table, TableAfter(m, l))
    requires SameTableSents(m.table, TableAfter(m, l)) || (l.Record? && m.phase.outcome.Sent?)
    ensures PhaseOk(TableAfter(m, l), PhaseAfter(m, l))
  {
    if l.Record? || l.Load? || l.Reload? || l.Skip? {
      JobPhase(m, l);
    } else {
      PhaseKept(m.table, TableAfter(m, l), m.phase);
      NextPhase(m, l, TableAfter(m, l));
    }
  }

  // ----- what happened to every recipient -----

  /** The worker is still to reach this recipient of its message, and found it open. */
  predicate Ahead(phase: Phase, p: Place) {
    && (phase.Working? || phase.Sending? || phase.Recording?)
    && p.message == phase.job.index
    && |phase.job.results| + (if phase.Recording? then 1 else 0) <= p.recipient < |phase.job.loaded.recipients|
    && Open(Current(phase.job.loaded.recipients[p.recipient]))
  }

  /** The modem was asked, and the outcome is not yet recorded. */
  predicate Under(phase: Phase, p: Place) {
    phase.Recording? && phase.sent && p == At(phase.job)
  }

  predicate MaySend(t: Table, phase: Phase, p: Place)
    requires Exists(t, p)
  {
    Ahead(phase, p) || (Open(Current(t[p.message].recipients[p.recipient])) && !Under(phase, p))
  }

  predicate SendsOk(m: Machine, p: Place)
    requires Exists(m.table, p)
  {
    Times(m.sends, p) <= Times(m.unrecorded, p) + if MaySend(m.table, m.phase, p) then 0 else 1
  }

  predicate ReportsOk(m: Machine, p: Place)
    requires Exists(m.table, p)
  {
    var r := m.table[p.message].recipients[p.recipient];
    Times(m.reports, p) + (if Current(r).Sent? then 1 else 0) <= SentCount(r.states)
  }

  predicate Untouched(m: Machine, p: Place) {
    Times(m.sends, p) == Times(m.unrecorded, p) == Times(m.reports, p) == 0
  }

  predicate PlaceOk(m: Machine, p: Place) {
    if Exists(m.table, p) then SendsOk(m, p) && ReportsOk(m, p) else Untouched(m, p)
  }

  ghost predicate Sound(m: Machine) {
    && TableOk(m.table)
    && PhaseOk(m.table, m.phase)
    && forall p :: PlaceOk(m, p)
  }

  /** A step never makes a recipient sendable again, but by losing the outcome of a send. */
  lemma MaySendShrinks(m: Machine, l: Label, p: Place)
    requires TableOk(m.table) && PhaseOk(m.table, m.phase) && Enabled(m, l) && Exists(m.table, p)
    requires TableGrows(m.table, TableAfter(m, l))
    requires Exists(TableAfter(m, l), p) && MaySend(TableAfter(m, l), PhaseAfter(m, l), p)
    requires !(Loses(m, l) && p == At(m.phase.job))
    ensures MaySend(m.table, m.phase, p) && !(l.Send? && p == At(m.phase.job))
  {
    assert RowGrows(m.table[p.message], TableAfter(m, l)[p.message]);
    assert RecipientGrows(m.table[p.message].recipients[p.recipient],
                          TableAfter(m, l)[p.message].recipients[p.recipient]);
    if l.Record? && l.applied && p == At(m.phase.job) {
      MovedOk(m.table[p.message].recipients[p.recipient], m.phase.outcome, m.phase.ref, l.now);
    }
  }

  lemma StepSends(m: Machine, l: Label, p: Place)
    requires TableOk(m.table) && PhaseOk(m.table, m.phase) && Enabled(m, l) && Exists(m.table, p) && SendsOk(m, p)
    requires TableGrows(m.table, TableAfter(m, l)) && Exists(TableAfter(m, l), p)
    ensures SendsOk(Do(m, l), p)
  {
    if Loses(m, l) && p == At(m.phase.job) {
    } else if MaySend(TableAfter(m, l), PhaseAfter(m, l), p) {
      MaySendShrinks(m, l, p);
    } else if l.Send? && p == At(m.phase.job) {
      assert Ahead(m.phase, p);
    }
  }

  /** A report is accepted only of a recipient that is Sent, which it then no longer is. */
  lemma ReportCounted(m: Machine, l: Label, p: Place)
    requires TableOk(m.table) && Enabled(m, l) && l.Report? && Exists(m.table, p) && ReportsOk(m, p)
    ensures Exists(Do(m, l).table, p) && ReportsOk(Do(m, l), p)
  {
  }

  /** A step appends at most one entry to the history of a recipient. */
  lemma AppendsOne(m: Machine, l: Label, p: Place)
    requires Enabled(m, l) && Exists(m.table, p) && Exists(TableAfter(m, l), p)
    ensures |TableAfter(m, l)[p.message].recipients[p.recipient].states|
            <= |m.table[p.message].recipients[p.recipient].states| + 1
  {
  }

  lemma AppendCounts(r: seq<Entry>, s: seq<Entry>)
    requires r != [] && r <= s && |s| <= |r| + 1
    ensures SentCount(s) - (if Latest(s).Sent? then 1 else 0) >= SentCount(r) - (if Latest(r).Sent? then 1 else 0)
  {
    if s != r {
      SentCountOn(r, s[|r|]);
      assert s == r + [s[|r|]];
    } else {
      assert SentCount(s) == SentCount(r);
    }
  }

  lemma StepReports(m: Machine, l: Label, p: Place)
    requires TableOk(m.table) && Enabled(m, l) && Exists(m.table, p) && ReportsOk(m, p)
    requires TableGrows(m.table, TableAfter(m, l))
    ensures Exists(Do(m, l).table, p) && ReportsOk(Do(m, l), p)
  {
    assert RowGrows(m.table[p.message], TableAfter(m, l)[p.message]);
    if l.Report? {
      ReportCounted(m, l, p);
    } else {
      AppendsOne(m, l, p);
      assert RecipientGrows(m.table[p.message].recipients[p.recipient],
                            TableAfter(m, l)[p.message].recipients[p.recipient]);
      AppendCounts(m.table[p.message].recipients[p.recipient].states,
                   TableAfter(m, l)[p.message].recipients[p.recipient].states);
    }
  }

  lemma StepUntouched(m: Machine, l: Label, p: Place)
    requires TableOk(m.table) && PhaseOk(m.table, m.phase) && Enabled(m, l) && !Exists(m.table, p) && Untouched(m, p)
    requires TableGrows(m.table, TableAfter(m, l))
    ensures PlaceOk(Do(m, l), p)
  {
  }

  lemma StepSound(m: Machine, l: Label)
    requires Sound(m) && Enabled(m, l)
    ensures Sound(Do(m, l))
  {
    StepGrows(m, l);
    StepTable(m, l);
    StepPhase(m, l);
    forall p ensures PlaceOk(Do(m, l), p) {
      assert PlaceOk(m, p);
      if Exists(m.table, p) {
        StepReports(m, l, p);
        StepSends(m, l, p);
      } else {
        StepUntouched(m, l, p);
      }
    }
  }

  lemma {:induction false} LeadsSound(m: Machine, labels: seq<Label>, n: Machine)
    requires Sound(m) && Leads(m, labels, n)
    ensures Sound(n)
    decreases |labels|
  {
    if labels != [] {
      StepSound(m, labels[0]);
      LeadsSound(Do(m, labels[0]), labels[1..], n);
    }
  }

  lemma StartSound()
    ensures Sound(START)
  {
  }

  // ----- main results -----

  /** In every run, with every interleaving and failure: the history of a recipient holds at
      most one Sent entry, none while it may still be sent to; at most one delivery report
      is accepted for it; and the modem was asked to send to it at most once more than
      there were passes whose outcome was not recorded. */
  lemma SentOnce(labels: seq<Label>, n: Machine, p: Place)
    requires Leads(START, labels, n) && Exists(n.table, p)
    ensures var r := n.table[p.message].recipients[p.recipient];
            && SentCount(r.states) <= 1
            && (Open(Current(r)) ==> SentCount(r.states) == 0)
            && Times(n.reports, p) <= 1
            && (Times(n.reports, p) == 1 ==> !Current(r).Sent?)
            && Times(n.sends, p) <= Times(n.unrecorded, p) + 1
            && (n.phase.Idle? && Open(Current(r)) ==> Times(n.sends, p) <= Times(n.unrecorded, p))
  {
    StartSound();
    LeadsSound(START, labels, n);
    assert PlaceOk(n, p) && RowOk(n.table[p.message]);
  }

  /** In every run the state column of a message is the last entry of its history, and a
      message that can no longer be claimed has no recipient left to send to. */
  lemma ColumnIsLastEntry(labels: seq<Label>, n: Machine, i: nat)
    requires Leads(START, labels, n) && i < |n.table|
    ensures n.table[i].state == n.table[i].states[|n.table[i].states| - 1].state
    ensures !(n.table[i].state.Pending? || n.table[i].state.Processed?) ==>
              forall j :: 0 <= j < |n.table[i].recipients| ==>
                var states := n.table[i].recipients[j].states;
                !states[|states| - 1].state.Pending? && !states[|states| - 1].state.Processed?
  {
    StartSound();
    LeadsSound(START, labels, n);
    assert RowOk(n.table[i]);
  }

  // ----- the claim -----

  /** After a dequeue every message it found expired is Failed, with all its recipients. */
  lemma ExpiredAreFailed(t: Table, now: int, at: Option<nat>, i: nat)
    requires NextDue(Expired(t, now), now, at) && i < |t|
    requires (t[i].state.Pending? || t[i].state.Processed?) && t[i].validUntil.Some? && t[i].validUntil.value <= now
    ensures at != Some(i)
    ensures var m := Claimed(Expired(t, now), at, now)[i];
            m.state.Failed? && forall j :: 0 <= j < |m.recipients| ==> Current(m.recipients[j]).Failed?
  {
  }

  /** Pending or processed, its time come and not yet past. */
  predicate Ready(m: Message, now: int) {
    && (m.state.Pending? || m.state.Processed?)
    && (m.scheduleAt.None? || m.scheduleAt.value <= now)
    && (m.validUntil.None? || now < m.validUntil.value)
  }

  /** A dequeue claims the lowest id that is due and not expired, if there is one. */
  lemma ClaimIsFirstDue(t: Table, now: int, at: Option<nat>)
    ensures NextDue(Expired(t, now), now, at) <==>
              match at
              case None => forall k :: 0 <= k < |t| ==> !Ready(t[k], now)
              case Some(i) => i < |t| && Ready(t[i], now) && forall k :: 0 <= k < i ==> !Ready(t[k], now)
  {
  }

  /** It touches the messages it expires and the one it claims, and no other. */
  lemma DequeueTouches(t: Table, now: int, at: Option<nat>, i: nat)
    requires (at.Some? ==> at.value < |t|) && i < |t|
    requires !(t[i].state.Pending? || t[i].state.Processed?) || t[i].validUntil.None? || now < t[i].validUntil.value
    ensures Claimed(Expired(t, now), at, now)[i] ==
              if at == Some(i) then t[i].(state := Processed, states := t[i].states + [Entry(Processed, now)]) else t[i]
  {
  }
}
