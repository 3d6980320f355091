/**
  The outbox worker over whole runs (internal/messages/service.go): messages are created
  and cancelled between any two of its statements, any statement may fail - applied or
  not - and the process may stop anywhere.
 */
module OutboxMachine {
  import opened Collections
  import opened Options
  import opened Outbox

  function Count(states: seq<State>, s: State): (n: nat)
    ensures n <= |states|
    ensures n == |states| <==> forall i :: 0 <= i < |states| ==> states[i] == s
  {
    if states == [] then 0 else Count(states[..|states| - 1], s) + if states[|states| - 1] == s then 1 else 0
  }

  /** resolveFinalState: the state of a message, from the states of its recipients. */
  function Resolve(states: seq<State>): (final: State)
    ensures final.Pending? <==> Pending in states
    ensures final.Cancelled? <==> Pending !in states && Cancelled in states
    ensures final.Processed? <==> Pending !in states && Cancelled !in states && Processed in states
    ensures final.Failed? <==> forall i :: 0 <= i < |states| ==> states[i] == Failed
    ensures final.Delivered? <==> states != [] && forall i :: 0 <= i < |states| ==> states[i] == Delivered
    ensures !final.Cancelling?
  {
    assert states != [] ==> states[0] in states;
    if Pending in states then Pending
    else if Cancelled in states then Cancelled
    else if Processed in states then Processed
    else if Count(states, Failed) == |states| then Failed
    else if Count(states, Delivered) == |states| then Delivered
    else Sent
  }

  /** deliveryReportState: what a TP-ST octet makes of the recipient; nothing while the
      service centre is still trying. */
  function ReportState(status: bv8): (state: Option<State>)
    ensures state.None? <==> 0x20 <= status < 0x40
    ensures state.Some? ==> state.value == if status < 0x20 then Delivered else Failed
  {
    if status < 0x20 then Some(Delivered) else if status < 0x40 then None else Some(Failed)
  }

  /** A claimed message as it was loaded, and the states of the recipients done so far. */
  datatype Job = Job(index: nat, loaded: Message, results: seq<State>)

  datatype Phase =
    | Idle
    | Loading(index: nat)
    | Working(job: Job)
    | Sending(job: Job)
    | Recording(job: Job, outcome: State, ref: Option<int>, sent: bool)
    | Reloading(index: nat)
    | Rederiving(index: nat, final: State)

  type Tally = map<Place, nat>

  /** The tables, the worker, and what happened to every recipient: sends asked of the
      modem, passes whose outcome was not recorded, delivery reports accepted. */
  datatype Machine = Machine(table: Table, phase: Phase, sends: Tally, unrecorded: Tally, reports: Tally)

  datatype Label =
    | Create(input: Input, now: int)
    | Cancel(index: nat, now: int)
    | Dequeue(now: int, at: Option<nat>)
    | Load(ok: bool)
    | Skip
    | Begin(now: int, applied: bool, ok: bool)
    | Refuse
    | Send(accepted: Option<int>)
    | Record(now: int, applied: bool, ok: bool)
    | Finish(now: int, applied: bool)
    | Report(ref: int, phone: string, state: State, place: Place, now: int)
    | Reload(ok: bool)
    | Rederive(now: int, applied: bool)
    | Stop

  function Times(tally: Tally, p: Place): nat {
    if p in tally then tally[p] else 0
  }

  function Bump(tally: Tally, p: Place): Tally {
    tally[p := Times(tally, p) + 1]
  }

  /** The recipient the worker is at. */
  function At(job: Job): Place {
    Place(job.index, |job.results|)
  }

  /** A recipient of the loaded message is still to be done. */
  predicate More(t: Table, job: Job) {
    |job.results| < |job.loaded.recipients| && Exists(t, At(job))
  }

  function Loaded(job: Job): State
    requires |job.results| < |job.loaded.recipients|
  {
    Current(job.loaded.recipients[|job.results|])
  }

  predicate Enabled(m: Machine, l: Label) {
    match l
    case Create(input, _) => Row(m.table, input.id).None? && Distinct(input.phones)
    case Cancel(index, _) => index < |m.table|
    case Dequeue(now, at) => m.phase.Idle? && NextDue(Expired(m.table, now), now, at)
    case Load(_) => m.phase.Loading? && m.phase.index < |m.table|
    case Skip => m.phase.Working? && More(m.table, m.phase.job) && !Open(Loaded(m.phase.job))
    case Begin(_, applied, ok) =>
      m.phase.Working? && More(m.table, m.phase.job) && Open(Loaded(m.phase.job)) && (ok ==> applied)
    case Refuse => m.phase.Sending?
    case Send(_) => m.phase.Sending? && m.phase.job.loaded.textual
    case Record(_, applied, ok) => m.phase.Recording? && More(m.table, m.phase.job) && (ok ==> applied)
    case Finish(_, _) =>
      m.phase.Working? && |m.phase.job.results| == |m.phase.job.loaded.recipients| && m.phase.job.index < |m.table|
    case Report(ref, phone, state, at, _) =>
      m.phase.Idle? && (state.Delivered? || state.Failed?) && Oldest(m.table, ref, phone, Some(at))
    case Reload(_) => m.phase.Reloading? && m.phase.index < |m.table|
    case Rederive(_, _) => m.phase.Rederiving? && m.phase.index < |m.table|
    case Stop => true
  }

  function TableAfter(m: Machine, l: Label): Table
    requires Enabled(m, l)
  {
    var t := m.table;
    match l
    case Create(input, now) => t + [NewMessage(input, now)]
    case Cancel(i, now) => t[i := CancelledRow(t[i], now)]
    case Dequeue(now, at) => Claimed(Expired(t, now), at, now)
    case Begin(now, applied, _) =>
      var job := m.phase.job;
      if applied then t[job.index := RecipientSet(t[job.index], |job.results|, Processed, None, now)] else t
    case Record(now, applied, _) =>
      var job := m.phase.job;
      if applied then t[job.index := RecipientSet(t[job.index], |job.results|, m.phase.outcome, m.phase.ref, now)]
      else t
    case Finish(now, applied) =>
      var job := m.phase.job;
      if applied then t[job.index := StateSet(t[job.index], Resolve(job.results), now)] else t
    case Report(_, _, state, at, now) => Reported(t, Some(at), state, now)
    case Rederive(now, applied) =>
      if applied then t[m.phase.index := StateSet(t[m.phase.index], m.phase.final, now)] else t
    case _ => t
  }

  function Done(job: Job, s: State): Phase {
    Working(job.(results := job.results + [s]))
  }

  function PhaseAfter(m: Machine, l: Label): Phase
    requires Enabled(m, l)
  {
    match l
    case Create(_, _) => m.phase
    case Cancel(_, _) => m.phase
    case Dequeue(_, at) => if at.Some? then Loading(at.value) else Idle
    case Load(ok) => if ok then Working(Job(m.phase.index, m.table[m.phase.index], [])) else Idle
    case Skip => Done(m.phase.job, Loaded(m.phase.job))
    case Begin(_, _, ok) => if ok then Sending(m.phase.job) else Idle
    case Refuse => Recording(m.phase.job, Failed, None, false)
    case Send(accepted) => Recording(m.phase.job, if accepted.Some? then Sent else Failed, accepted, true)
    case Record(_, _, ok) => if ok then Done(m.phase.job, m.phase.outcome) else Idle
    case Finish(_, _) => Idle
    case Report(_, _, _, at, _) => Reloading(at.message)
    case Reload(ok) =>
      var message := m.table[m.phase.index];
      var final := Resolve(Currents(message.recipients));
      if ok && final != message.state then Rederiving(m.phase.index, final) else Idle
    case Rederive(_, _) => Idle
    case Stop => Idle
  }

  /** An outcome of the modem is lost when its record is not applied, or never tried. */
  predicate Loses(m: Machine, l: Label) {
    m.phase.Recording? && m.phase.sent && (l.Stop? || (l.Record? && !l.applied))
  }

  function Do(m: Machine, l: Label): Machine
    requires Enabled(m, l)
  {
    Machine(
      TableAfter(m, l),
      PhaseAfter(m, l),
      if l.Send? then Bump(m.sends, At(m.phase.job)) else m.sends,
      if Loses(m, l) then Bump(m.unrecorded, At(m.phase.job)) else m.unrecorded,
      if l.Report? then Bump(m.reports, l.place) else m.reports)
  }

  const START := Machine([], Idle, map[], map[], map[])

  ghost predicate Leads(m: Machine, labels: seq<Label>, n: Machine)
    decreases |labels|
  {
    if labels == [] then m == n
    else Enabled(m, labels[0]) && Leads(Do(m, labels[0]), labels[1..], n)
  }

  /** A run goes on with one more step. */
  lemma {:induction false} LeadsOn(m: Machine, labels: seq<Label>, n: Machine, l: Label)
    requires Leads(m, labels, n) && Enabled(n, l)
    ensures Leads(m, labels + [l], Do(n, l))
    decreases |labels|
  {
    var all := labels + [l];
    if labels == [] {
      assert all[1..] == [];
    } else {
      LeadsOn(Do(m, labels[0]), labels[1..], n, l);
      assert all[1..] == labels[1..] + [l];
    }
  }

  // ----- what every statement does to a row: grow -----

  predicate RecipientGrows(r: Recipient, s: Recipient) {
    s.phone == r.phone && r.states <= s.states && (!Open(Current(r)) ==> !Open(Current(s)))
  }

  predicate RowGrows(m: Message, n: Message) {
    && n.id == m.id && n.textual == m.textual && n.withDeliveryReport == m.withDeliveryReport
    && n.scheduleAt == m.scheduleAt && n.validUntil == m.validUntil
    && m.states <= n.states
    && (m.state == Latest(m.states) ==> n.state == Latest(n.states))
    && |n.recipients| == |m.recipients|
    && forall j :: 0 <= j < |m.recipients| ==> RecipientGrows(m.recipients[j], n.recipients[j])
  }

  predicate TableGrows(t: Table, u: Table) {
    |t| <= |u| && forall i :: 0 <= i < |t| ==> RowGrows(t[i], u[i])
  }

  lemma UpdateGrows(t: Table, i: nat, n: Message)
    requires i < |t| && RowGrows(t[i], n)
    ensures TableGrows(t, t[i := n])
  {
  }

  lemma CancelGrows(m: Message, now: int)
    ensures RowGrows(m, CancelledRow(m, now))
  {
  }

  lemma StateGrows(m: Message, state: State, now: int)
    ensures RowGrows(m, StateSet(m, state, now)) && RowGrows(m, Entered(m, state, now))
  {
  }

  lemma RecipientSetGrows(m: Message, k: nat, state: State, ref: Option<int>, now: int)
    requires k < |m.recipients| && !state.Pending?
    ensures RowGrows(m, RecipientSet(m, k, state, ref, now))
  {
  }

  lemma ReportGrows(t: Table, p: Place, state: State, now: int)
    requires Exists(t, p) && !Open(state)
    ensures TableGrows(t, Reported(t, Some(p), state, now))
  {
  }

  lemma ExpiryGrows(t: Table, now: int)
    ensures TableGrows(t, Expired(t, now))
  {
    forall i | 0 <= i < |t| ensures RowGrows(t[i], Expired(t, now)[i]) {
      ExpiredRowGrows(t[i], now);
    }
  }

  lemma ExpiredRowGrows(m: Message, now: int)
    ensures RowGrows(m, ExpiredRow(m, now))
  {
  }

  lemma DequeueGrows(t: Table, now: int, at: Option<nat>)
    requires NextDue(Expired(t, now), now, at)
    ensures TableGrows(t, Claimed(Expired(t, now), at, now))
  {
    ExpiryGrows(t, now);
    if at.Some? {
      StateGrows(Expired(t, now)[at.value], Processed, now);
      UpdateGrows(Expired(t, now), at.value, Entered(Expired(t, now)[at.value], Processed, now));
      GrowsOn(t, Expired(t, now), Claimed(Expired(t, now), at, now));
    }
  }

  lemma NothingGrows(t: Table)
    ensures TableGrows(t, t)
  {
  }

  lemma AddedGrows(t: Table, n: Message)
    ensures TableGrows(t, t + [n])
  {
  }

  /** An outcome is Sent or Failed. */
  predicate Outcomes(m: Machine) {
    m.phase.Recording? ==> m.phase.outcome.Sent? || m.phase.outcome.Failed?
  }

  lemma PassStepGrows(m: Machine, l: Label)
    requires Enabled(m, l) && Outcomes(m) && (l.Begin? || l.Record? || l.Finish?)
    ensures TableGrows(m.table, TableAfter(m, l))
  {
    var i := m.phase.job.index;
    match l
    case Begin(now, _, _) =>
      RecipientSetGrows(m.table[i], |m.phase.job.results|, Processed, None, now);
      UpdateGrows(m.table, i, RecipientSet(m.table[i], |m.phase.job.results|, Processed, None, now));
    case Record(now, _, _) =>
      RecipientSetGrows(m.table[i], |m.phase.job.results|, m.phase.outcome, m.phase.ref, now);
      UpdateGrows(m.table, i, RecipientSet(m.table[i], |m.phase.job.results|, m.phase.outcome, m.phase.ref, now));
    case Finish(now, _) =>
      StateGrows(m.table[i], Resolve(m.phase.job.results), now);
      UpdateGrows(m.table, i, StateSet(m.table[i], Resolve(m.phase.job.results), now));
  }

  lemma StepGrows(m: Machine, l: Label)
    requires Enabled(m, l) && Outcomes(m)
    ensures TableGrows(m.table, TableAfter(m, l)) && Outcomes(Do(m, l))
  {
    match l
    case Create(input, now) => AddedGrows(m.table, NewMessage(input, now));
    case Cancel(i, now) =>
      CancelGrows(m.table[i], now);
      UpdateGrows(m.table, i, CancelledRow(m.table[i], now));
    case Dequeue(now, at) => DequeueGrows(m.table, now, at);
    case Begin(_, _, _) => PassStepGrows(m, l);
    case Record(_, _, _) => PassStepGrows(m, l);
    case Finish(_, _) => PassStepGrows(m, l);
    case Report(_, _, state, p, now) => ReportGrows(m.table, p, state, now);
    case Rederive(now, _) =>
      StateGrows(m.table[m.phase.index], m.phase.final, now);
      UpdateGrows(m.table, m.phase.index, StateSet(m.table[m.phase.index], m.phase.final, now));
    case _ => NothingGrows(m.table);
  }

  lemma GrowsOn(t: Table, u: Table, v: Table)
    requires TableGrows(t, u) && TableGrows(u, v)
    ensures TableGrows(t, v)
  {
  }

  /** In every run, with every interleaving and failure: rows stay, both kinds of history
      are only appended to, a state column that equals its last entry stays so, and a
      recipient that left {Pending, Processed} never re-enters it. */
  lemma {:induction false} HistoriesGrow(m: Machine, labels: seq<Label>, n: Machine)
    requires Leads(m, labels, n) && Outcomes(m)
    ensures TableGrows(m.table, n.table)
    decreases |labels|
  {
    if labels != [] {
      StepGrows(m, labels[0]);
      HistoriesGrow(Do(m, labels[0]), labels[1..], n);
      GrowsOn(m.table, Do(m, labels[0]).table, n.table);
    }
  }
}
