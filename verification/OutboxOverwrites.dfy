/**
  What becomes of a cancelled message (internal/messages/service.go): the states written at
  the end of a pass, and by the re-derivation after a delivery report, are those of what was
  loaded before, and a cancel that lands in between is overwritten.
 */
module OutboxOverwrites {
  import opened Options
  import opened Outbox
  import opened OutboxMachine
  import opened OutboxRuns
  import opened OutboxCancel

  /** A pass is under way. */
  predicate AtWork(phase: Phase) {
    phase.Working? || phase.Sending? || phase.Recording?
  }

  /** A delivery report may still come for a recipient. */
  predicate ReportDue(m: Message) {
    m.withDeliveryReport != Some(false) && exists k :: 0 <= k < |m.recipients| && Current(m.recipients[k]).Sent?
  }

  /** The worker is about to overwrite the state of the message: a pass loaded no recipient
      of it Cancelled, it is about to be loaded or re-derived with none Cancelled, or a state
      re-derived before is about to be stored. */
  predicate Overwrites(phase: Phase, i: nat, m: Message) {
    || (AtWork(phase) && phase.job.index == i && !AnyLoadedCancelled(phase.job))
    || ((phase.Loading? || phase.Reloading?) && phase.index == i && NoneCancelled(m.recipients))
    || (phase.Rederiving? && phase.index == i && !phase.final.Cancelled?)
  }

  /** What can take a cancelled message out of Cancelled: the worker, or a delivery report
      that finds no recipient Cancelled. */
  predicate Overwritable(m: Machine, i: nat)
    requires i < |m.table|
  {
    Overwrites(m.phase, i, m.table[i]) || (ReportDue(m.table[i]) && NoneCancelled(m.table[i].recipients))
  }

  ghost predicate MayBeOverwritten(m: Machine, i: nat) {
    exists labels, n :: Leads(m, labels, n) && i < |n.table| && !n.table[i].state.Cancelled?
  }

  // ----- two more facts about every reachable state -----

  /** What was loaded Cancelled is Cancelled for the whole pass. */
  predicate LoadedStays(m: Machine) {
    AtWork(m.phase) && m.phase.job.index < |m.table| ==>
      forall j :: 0 <= j < |m.phase.job.loaded.recipients| && j < |m.table[m.phase.job.index].recipients|
                  && Current(m.phase.job.loaded.recipients[j]).Cancelled? ==>
        Current(m.table[m.phase.job.index].recipients[j]).Cancelled?
  }

  predicate Referenced(r: Recipient) {
    Current(r).Sent? ==> r.refId.Some?
  }

  predicate RowReferenced(m: Message) {
    forall k :: 0 <= k < |m.recipients| ==> Referenced(m.recipients[k])
  }

  predicate TableReferenced(t: Table) {
    forall i :: 0 <= i < |t| ==> RowReferenced(t[i])
  }

  /** A recipient that is Sent has its reference. */
  predicate AllReferenced(m: Machine) {
    TableReferenced(m.table) && (m.phase.Recording? && m.phase.outcome.Sent? ==> m.phase.ref.Some?)
  }

  lemma SweptReferenced(m: Message, now: int)
    requires RowReferenced(m)
    ensures RowReferenced(CancelledRow(m, now)) && RowReferenced(ExpiredRow(m, now))
  {
  }

  lemma MovedReferenced(m: Message, k: nat, state: State, ref: Option<int>, now: int)
    requires RowReferenced(m) && k < |m.recipients| && (state.Sent? ==> ref.Some?)
    ensures RowReferenced(RecipientSet(m, k, state, ref, now))
  {
  }

  lemma UpdateReferenced(t: Table, i: nat, n: Message)
    requires TableReferenced(t) && i < |t| && RowReferenced(n)
    ensures TableReferenced(t[i := n])
  {
  }

  lemma DequeueReferenced(t: Table, now: int, at: Option<nat>)
    requires TableReferenced(t) && (at.Some? ==> at.value < |t|)
    ensures TableReferenced(Claimed(Expired(t, now), at, now))
  {
    forall i | 0 <= i < |t| ensures RowReferenced(Claimed(Expired(t, now), at, now)[i]) {
      SweptReferenced(t[i], now);
      assert Expired(t, now)[i] == ExpiredRow(t[i], now);
    }
  }

  lemma ReportReferenced(t: Table, p: Place, state: State, now: int)
    requires TableReferenced(t) && Exists(t, p) && !state.Sent?
    ensures TableReferenced(Reported(t, Some(p), state, now))
  {
    UpdateReferenced(t, p.message, Reported(t, Some(p), state, now)[p.message]);
  }

  lemma TableStaysReferenced(m: Machine, l: Label)
    requires Workable(m) && Enabled(m, l) && AllReferenced(m)
    ensures TableReferenced(TableAfter(m, l))
  {
    match l
    case Create(input, now) => assert RowReferenced(NewMessage(input, now));
    case Cancel(i, now) =>
      SweptReferenced(m.table[i], now);
      UpdateReferenced(m.table, i, CancelledRow(m.table[i], now));
    case Dequeue(now, at) => DequeueReferenced(m.table, now, at);
    case Begin(now, _, _) =>
      var i, k := m.phase.job.index, |m.phase.job.results|;
      MovedReferenced(m.table[i], k, Processed, None, now);
      UpdateReferenced(m.table, i, RecipientSet(m.table[i], k, Processed, None, now));
    case Record(now, _, _) =>
      var i, k := m.phase.job.index, |m.phase.job.results|;
      MovedReferenced(m.table[i], k, m.phase.outcome, m.phase.ref, now);
      UpdateReferenced(m.table, i, RecipientSet(m.table[i], k, m.phase.outcome, m.phase.ref, now));
    case Finish(now, _) =>
      var i := m.phase.job.index;
      UpdateReferenced(m.table, i, StateSet(m.table[i], Resolve(m.phase.job.results), now));
    case Report(_, _, state, p, now) => ReportReferenced(m.table, p, state, now);
    case Rederive(now, _) =>
      UpdateReferenced(m.table, m.phase.index, StateSet(m.table[m.phase.index], m.phase.final, now));
    case _ =>
  }

  lemma StepReferenced(m: Machine, l: Label)
    requires Workable(m) && Enabled(m, l) && AllReferenced(m)
    ensures AllReferenced(Do(m, l))
  {
    TableStaysReferenced(m, l);
  }

  /** While a pass is under way a Cancelled recipient stays so, but for the one at hand. */
  lemma CancelledStays(m: Machine, l: Label, p: Place)
    requires Workable(m) && Enabled(m, l) && AtWork(m.phase)
    requires Exists(m.table, p) && Current(RecipientAt(m.table, p)).Cancelled?
    requires (l.Begin? || l.Record?) ==> p != At(m.phase.job)
    ensures Exists(TableAfter(m, l), p) && Current(RecipientAt(TableAfter(m, l), p)).Cancelled?
  {
  }

  /** A pass goes on, begins with what the tables hold, or ends. */
  lemma PassGoesOn(m: Machine, l: Label)
    requires Enabled(m, l) && AtWork(PhaseAfter(m, l))
    ensures var job := PhaseAfter(m, l).job;
            if AtWork(m.phase) then job.index == m.phase.job.index && job.loaded == m.phase.job.loaded
            else job.index < |m.table| && job.loaded == m.table[job.index] && TableAfter(m, l) == m.table
  {
  }

  lemma PlaceLoadedStays(m: Machine, l: Label, j: nat)
    requires Workable(m) && Enabled(m, l) && LoadedStays(m) && AtWork(m.phase)
    requires j < |m.phase.job.loaded.recipients| && Current(m.phase.job.loaded.recipients[j]).Cancelled?
    ensures m.phase.job.index < |TableAfter(m, l)| && j < |TableAfter(m, l)[m.phase.job.index].recipients|
    ensures Current(TableAfter(m, l)[m.phase.job.index].recipients[j]).Cancelled?
  {
    CancelledStays(m, l, Place(m.phase.job.index, j));
  }

  lemma StepLoadedStays(m: Machine, l: Label)
    requires Workable(m) && Enabled(m, l) && LoadedStays(m)
    ensures LoadedStays(Do(m, l))
  {
    var n := Do(m, l);
    if AtWork(n.phase) {
      PassGoesOn(m, l);
      forall j | 0 <= j < |n.phase.job.loaded.recipients| && AtWork(m.phase)
                 && Current(n.phase.job.loaded.recipients[j]).Cancelled?
        ensures n.phase.job.index < |n.table| && j < |n.table[n.phase.job.index].recipients|
        ensures Current(n.table[n.phase.job.index].recipients[j]).Cancelled?
      {
        PlaceLoadedStays(m, l, j);
      }
    }
  }

  /** Every reachable state is like this. */
  ghost predicate Regular(m: Machine) {
    Workable(m) && LoadedStays(m) && AllReferenced(m)
  }

  lemma StepRegular(m: Machine, l: Label)
    requires Regular(m) && Enabled(m, l)
    ensures Regular(Do(m, l)) && TableGrows(m.table, Do(m, l).table)
  {
    StepWorkable(m, l);
    StepLoadedStays(m, l);
    StepReferenced(m, l);
  }

  lemma {:induction false} LeadsRegular(m: Machine, labels: seq<Label>, n: Machine)
    requires Regular(m) && Leads(m, labels, n)
    ensures Regular(n) && TableGrows(m.table, n.table)
    decreases |labels|
  {
    if labels != [] {
      StepRegular(m, labels[0]);
      LeadsRegular(Do(m, labels[0]), labels[1..], n);
      GrowsOn(m.table, Do(m, labels[0]).table, n.table);
    } else {
      NothingGrows(m.table);
    }
  }

  // ----- what is not overwritable stays Cancelled -----

  predicate StaysCancelled(m: Machine, i: nat) {
    i < |m.table| && m.table[i].state.Cancelled? && !Overwritable(m, i)
  }

  lemma LoadedCancelledIsCancelled(m: Machine)
    requires Regular(m) && AtWork(m.phase) && AnyLoadedCancelled(m.phase.job)
    ensures !NoneCancelled(m.table[m.phase.job.index].recipients)
  {
    var j :| 0 <= j < |m.phase.job.loaded.recipients| && Current(m.phase.job.loaded.recipients[j]).Cancelled?;
    assert Current(m.table[m.phase.job.index].recipients[j]).Cancelled?;
  }

  /** The worker, or a report, is at a recipient of the message. */
  predicate Touches(m: Machine, l: Label, i: nat) {
    match l
    case Begin(_, _, _) => AtWork(m.phase) && m.phase.job.index == i
    case Record(_, _, _) => AtWork(m.phase) && m.phase.job.index == i
    case Report(_, _, _, p, _) => p.message == i
    case _ => false
  }

  lemma DequeuePasses(t: Table, now: int, at: Option<nat>, i: nat)
    requires i < |t| && t[i].state.Cancelled? && NextDue(Expired(t, now), now, at)
    ensures at != Some(i) && Claimed(Expired(t, now), at, now)[i] == t[i]
  {
    assert Expired(t, now)[i] == t[i];
  }

  /** Nothing else touches the recipients of a cancelled message. */
  lemma SparesRecipients(m: Machine, l: Label, i: nat)
    requires Enabled(m, l) && i < |m.table| && m.table[i].state.Cancelled? && !Touches(m, l, i)
    ensures i < |TableAfter(m, l)| && TableAfter(m, l)[i].recipients == m.table[i].recipients
  {
    if l.Dequeue? {
      DequeuePasses(m.table, l.now, l.at, i);
    }
  }

  lemma ReportSpares(t: Table, q: Place, state: State, now: int)
    requires Exists(t, q) && Current(RecipientAt(t, q)).Sent? && !NoneCancelled(t[q.message].recipients)
    ensures !NoneCancelled(Reported(t, Some(q), state, now)[q.message].recipients)
  {
    var k :| 0 <= k < |t[q.message].recipients| && Current(t[q.message].recipients[k]).Cancelled?;
    assert Current(Reported(t, Some(q), state, now)[q.message].recipients[k]).Cancelled?;
  }

  lemma SomeStaysCancelled(m: Machine, l: Label, i: nat)
    requires Regular(m) && Enabled(m, l) && StaysCancelled(m, i) && !NoneCancelled(m.table[i].recipients)
    ensures i < |TableAfter(m, l)| && !NoneCancelled(TableAfter(m, l)[i].recipients)
  {
    if !Touches(m, l, i) {
      SparesRecipients(m, l, i);
    } else if l.Report? {
      ReportSpares(m.table, l.place, l.state, l.now);
    } else {
      var job := m.phase.job;
      var j :| 0 <= j < |job.loaded.recipients| && Current(job.loaded.recipients[j]).Cancelled?;
      CancelledStays(m, l, Place(i, j));
    }
  }

  lemma ReportIsDue(m: Machine, l: Label)
    requires Enabled(m, l) && l.Report?
    ensures ReportDue(m.table[l.place.message])
  {
    assert Current(m.table[l.place.message].recipients[l.place.recipient]).Sent?;
  }

  /** No report comes to be due but by the record of a pass. */
  lemma NotDue(m: Machine, l: Label, i: nat)
    requires Regular(m) && Enabled(m, l) && StaysCancelled(m, i) && NoneCancelled(m.table[i].recipients)
    ensures i < |TableAfter(m, l)| && TableAfter(m, l)[i].recipients == m.table[i].recipients && !Touches(m, l, i)
  {
    if AtWork(m.phase) && m.phase.job.index == i {
      LoadedCancelledIsCancelled(m);
    }
    if l.Report? {
      ReportIsDue(m, l);
    }
    SparesRecipients(m, l, i);
  }

  /** The column stays Cancelled. */
  lemma ColumnStaysCancelled(m: Machine, l: Label, i: nat)
    requires Regular(m) && Enabled(m, l) && StaysCancelled(m, i)
    ensures i < |TableAfter(m, l)| && TableAfter(m, l)[i].state.Cancelled?
  {
    match l
    case Dequeue(now, at) => DequeuePasses(m.table, now, at, i);
    case Finish(now, applied) =>
      if applied && m.phase.job.index == i {
        CancelSticks(m, now);
      }
    case _ =>
  }

  lemma ResolvesToCancelled(m: Message)
    requires NoneOpen(m.recipients) && !NoneCancelled(m.recipients)
    ensures Resolve(Currents(m.recipients)).Cancelled?
  {
    var states := Currents(m.recipients);
    var k :| 0 <= k < |m.recipients| && Current(m.recipients[k]).Cancelled?;
    assert states[k].Cancelled?;
  }

  lemma LoadStaysHarmless(m: Machine, ok: bool, i: nat)
    requires Enabled(m, Load(ok)) && StaysCancelled(m, i)
    ensures !Overwrites(PhaseAfter(m, Load(ok)), i, m.table[i])
  {
  }

  lemma ReloadStaysHarmless(m: Machine, ok: bool, i: nat)
    requires Workable(m) && Enabled(m, Reload(ok)) && StaysCancelled(m, i)
    ensures !Overwrites(PhaseAfter(m, Reload(ok)), i, m.table[i])
  {
    if m.phase.index == i {
      assert RowOk(m.table[i]);
      ResolvesToCancelled(m.table[i]);
    }
  }

  lemma ReportStaysHarmless(m: Machine, l: Label, i: nat, row: Message)
    requires Enabled(m, l) && l.Report? && StaysCancelled(m, i)
    requires NoneCancelled(row.recipients) == NoneCancelled(m.table[i].recipients)
    ensures !Overwrites(PhaseAfter(m, l), i, row)
  {
    ReportIsDue(m, l);
  }

  lemma WorkStaysHarmless(m: Machine, l: Label, i: nat, row: Message)
    requires Enabled(m, l) && StaysCancelled(m, i) && !l.Dequeue? && !l.Load? && !l.Report? && !l.Reload?
    requires NoneCancelled(row.recipients) == NoneCancelled(m.table[i].recipients)
    ensures !Overwrites(PhaseAfter(m, l), i, row)
  {
  }

  lemma PhaseStaysHarmless(m: Machine, l: Label, i: nat, row: Message)
    requires Workable(m) && Enabled(m, l) && StaysCancelled(m, i)
    requires i < |TableAfter(m, l)| && row == TableAfter(m, l)[i]
    requires NoneCancelled(row.recipients) == NoneCancelled(m.table[i].recipients)
    ensures !Overwrites(PhaseAfter(m, l), i, row)
  {
    match l
    case Dequeue(now, at) => DequeuePasses(m.table, now, at, i);
    case Load(ok) => LoadStaysHarmless(m, ok, i);
    case Report(_, _, _, _, _) => ReportStaysHarmless(m, l, i, row);
    case Reload(ok) => ReloadStaysHarmless(m, ok, i);
    case _ => WorkStaysHarmless(m, l, i, row);
  }

  lemma StepStaysCancelled(m: Machine, l: Label, i: nat)
    requires Regular(m) && Enabled(m, l) && StaysCancelled(m, i)
    ensures StaysCancelled(Do(m, l), i)
  {
    StepRegular(m, l);
    assert RowGrows(m.table[i], TableAfter(m, l)[i]);
    ColumnStaysCancelled(m, l, i);
    if NoneCancelled(m.table[i].recipients) {
      NotDue(m, l, i);
    } else {
      SomeStaysCancelled(m, l, i);
    }
    PhaseStaysHarmless(m, l, i, TableAfter(m, l)[i]);
  }

  lemma {:induction false} LeadsStaysCancelled(m: Machine, labels: seq<Label>, n: Machine, i: nat)
    requires Regular(m) && Leads(m, labels, n) && StaysCancelled(m, i)
    ensures StaysCancelled(n, i)
    decreases |labels|
  {
    if labels != [] {
      StepRegular(m, labels[0]);
      StepStaysCancelled(m, labels[0], i);
      LeadsStaysCancelled(Do(m, labels[0]), labels[1..], n, i);
    }
  }

  // ----- what is overwritable can be overwritten -----

  lemma OverwrittenBefore(m: Machine, l: Label, i: nat)
    requires Enabled(m, l) && MayBeOverwritten(Do(m, l), i)
    ensures MayBeOverwritten(m, i)
  {
    var labels, n :| Leads(Do(m, l), labels, n) && i < |n.table| && !n.table[i].state.Cancelled?;
    LeadsCons(m, l, labels, n);
  }

  lemma OverwrittenAtOnce(m: Machine, l: Label, i: nat)
    requires Enabled(m, l) && i < |TableAfter(m, l)| && !TableAfter(m, l)[i].state.Cancelled?
    ensures MayBeOverwritten(m, i)
  {
    var n := Do(m, l);
    assert Leads(n, [], n);
    OverwrittenBefore(m, l, i);
  }

  /** The next step of a pass that refuses what it was to send. */
  function NextToEnd(phase: Phase): Label
    requires AtWork(phase)
  {
    match phase
    case Working(job) =>
      if |job.results| >= |job.loaded.recipients| then Finish(0, true)
      else if Open(Loaded(job)) then Begin(0, true, true)
      else Skip
    case Sending(_) => Refuse
    case Recording(_, _, _, _) => Record(0, true, true)
  }

  /** How far a pass is from its end. */
  function ToGo(phase: Phase): int
    requires AtWork(phase)
  {
    var left := 3 * (|phase.job.loaded.recipients| - |phase.job.results|);
    if phase.Working? then left + 2 else if phase.Sending? then left + 1 else left
  }

  lemma NextToEndIsEnabled(m: Machine)
    requires Workable(m) && AtWork(m.phase)
    ensures Enabled(m, NextToEnd(m.phase)) && 0 <= ToGo(m.phase)
  {
  }

  lemma NextToEndComesCloser(m: Machine)
    requires Workable(m) && AtWork(m.phase) && Enabled(m, NextToEnd(m.phase)) && !NextToEnd(m.phase).Finish?
    ensures var n := PhaseAfter(m, NextToEnd(m.phase));
            && AtWork(n) && n.job.index == m.phase.job.index && n.job.loaded == m.phase.job.loaded
            && ToGo(n) < ToGo(m.phase)
  {
  }

  /** A pass that loaded no recipient Cancelled can end, and then overwrites the cancel. */
  lemma {:induction false} PassOverwrites(m: Machine)
    requires Workable(m) && AtWork(m.phase) && !AnyLoadedCancelled(m.phase.job)
    ensures MayBeOverwritten(m, m.phase.job.index)
    decreases if AtWork(m.phase) then ToGo(m.phase) else 0
  {
    NextToEndIsEnabled(m);
    var l := NextToEnd(m.phase);
    if l.Finish? {
      CancelSticks(m, 0);
      OverwrittenAtOnce(m, l, m.phase.job.index);
    } else {
      StepWorkable(m, l);
      NextToEndComesCloser(m);
      PassOverwrites(Do(m, l));
      OverwrittenBefore(m, l, m.phase.job.index);
    }
  }

  lemma LoadOverwrites(m: Machine)
    requires Workable(m) && m.phase.Loading? && NoneCancelled(m.table[m.phase.index].recipients)
    ensures MayBeOverwritten(m, m.phase.index)
  {
    StepWorkable(m, Load(true));
    PassOverwrites(Do(m, Load(true)));
    OverwrittenBefore(m, Load(true), m.phase.index);
  }

  lemma RederiveOverwrites(m: Machine)
    requires Workable(m) && m.phase.Rederiving? && !m.phase.final.Cancelled?
    ensures MayBeOverwritten(m, m.phase.index)
  {
    OverwrittenAtOnce(m, Rederive(0, true), m.phase.index);
  }

  lemma ReloadOverwrites(m: Machine)
    requires Workable(m) && m.phase.Reloading? && NoneCancelled(m.table[m.phase.index].recipients)
    requires m.table[m.phase.index].state.Cancelled?
    ensures MayBeOverwritten(m, m.phase.index)
  {
    var final := Resolve(Currents(m.table[m.phase.index].recipients));
    assert !final.Cancelled?;
    StepWorkable(m, Reload(true));
    RederiveOverwrites(Do(m, Reload(true)));
    OverwrittenBefore(m, Reload(true), m.phase.index);
  }

  lemma {:induction false} FirstMessage(t: Table, until: nat, ref: int, phone: string) returns (i: nat)
    requires until <= |t| && !NoMessageAwaits(t, until, ref, phone)
    ensures i < until && NoMessageAwaits(t, i, ref, phone) && !NoneAwaits(t[i], |t[i].recipients|, ref, phone)
    decreases until
  {
    i := until - 1;
    if !NoMessageAwaits(t, until - 1, ref, phone) {
      i := FirstMessage(t, until - 1, ref, phone);
    }
  }

  lemma {:induction false} FirstRecipient(m: Message, until: nat, ref: int, phone: string) returns (k: nat)
    requires until <= |m.recipients| && !NoneAwaits(m, until, ref, phone)
    ensures k < until && NoneAwaits(m, k, ref, phone) && Awaits(m, m.recipients[k], ref, phone)
    decreases until
  {
    k := until - 1;
    if !NoneAwaits(m, until - 1, ref, phone) {
      k := FirstRecipient(m, until - 1, ref, phone);
    }
  }

  predicate AwaitsAt(t: Table, p: Place, ref: int, phone: string) {
    Exists(t, p) && Awaits(t[p.message], RecipientAt(t, p), ref, phone)
  }

  /** Some recipient is the oldest that awaits a report, if one awaits it. */
  lemma OldestExists(t: Table, ref: int, phone: string, p: Place) returns (q: Place)
    requires AwaitsAt(t, p, ref, phone)
    ensures Oldest(t, ref, phone, Some(q)) && q.message <= p.message
  {
    assert !NoneAwaits(t[p.message], |t[p.message].recipients|, ref, phone);
    var i := FirstMessage(t, p.message + 1, ref, phone);
    var k := FirstRecipient(t[i], |t[i].recipients|, ref, phone);
    q := Place(i, k);
  }

  /** No recipient before this place awaits the report. */
  predicate NoneBefore(t: Table, floor: Place, ref: int, phone: string) {
    && floor.message < |t| && floor.recipient <= |t[floor.message].recipients|
    && NoMessageAwaits(t, floor.message, ref, phone)
    && NoneAwaits(t[floor.message], floor.recipient, ref, phone)
  }

  lemma OldestNotBefore(t: Table, floor: Place, q: Place, ref: int, phone: string)
    requires NoneBefore(t, floor, ref, phone) && Oldest(t, ref, phone, Some(q))
    ensures floor.message < q.message || (floor.message == q.message && floor.recipient <= q.recipient)
  {
  }

  /** After a report no recipient up to the one it went to awaits another. */
  lemma ReportClears(t: Table, q: Place, ref: int, phone: string, now: int)
    requires Oldest(t, ref, phone, Some(q))
    ensures NoneBefore(Reported(t, Some(q), Delivered, now), Place(q.message, q.recipient + 1), ref, phone)
  {
    var u := Reported(t, Some(q), Delivered, now);
    forall j | 0 <= j < q.recipient + 1 ensures !Awaits(u[q.message], u[q.message].recipients[j], ref, phone) {
      if j == q.recipient {
        assert Current(u[q.message].recipients[j]).Delivered?;
      }
    }
  }

  /** A cancelled message none of whose recipients is Cancelled. */
  predicate Hollow(t: Table, i: nat) {
    i < |t| && t[i].state.Cancelled? && NoneCancelled(t[i].recipients)
  }

  lemma ReportHollow(t: Table, q: Place, now: int, i: nat)
    requires Exists(t, q) && Hollow(t, i)
    ensures Hollow(Reported(t, Some(q), Delivered, now), i)
  {
  }

  /** A recipient that awaits a report gets it - reports for older ones first - and the
      re-derivation then overwrites the cancel. */
  lemma {:induction false} ReportOverwrites(m: Machine, p: Place, floor: Place, ref: int, phone: string)
    requires Workable(m) && m.phase.Idle? && Hollow(m.table, p.message)
    requires AwaitsAt(m.table, p, ref, phone) && NoneBefore(m.table, floor, ref, phone)
    ensures MayBeOverwritten(m, p.message)
    decreases p.message - floor.message,
              if floor.message < |m.table| then |m.table[floor.message].recipients| - floor.recipient else 0
  {
    var q := OldestExists(m.table, ref, phone, p);
    OldestNotBefore(m.table, floor, q, ref, phone);
    var l := Report(ref, phone, Delivered, q, 0);
    StepWorkable(m, l);
    ReportHollow(m.table, q, 0, p.message);
    ReportClears(m.table, q, ref, phone, 0);
    var n := Do(m, l);
    if q.message == p.message {
      ReloadOverwrites(n);
    } else {
      StepWorkable(n, Reload(false));
      ReportOverwrites(Do(n, Reload(false)), p, Place(q.message, q.recipient + 1), ref, phone);
      OverwrittenBefore(n, Reload(false), p.message);
    }
    OverwrittenBefore(m, l, p.message);
  }

  lemma DueOverwrites(m: Machine, i: nat)
    requires Regular(m) && Hollow(m.table, i) && ReportDue(m.table[i])
    ensures MayBeOverwritten(m, i)
  {
    var k :| 0 <= k < |m.table[i].recipients| && Current(m.table[i].recipients[k]).Sent?;
    var r := m.table[i].recipients[k];
    assert Referenced(r);
    StepWorkable(m, Stop);
    ReportOverwrites(Do(m, Stop), Place(i, k), Place(0, 0), r.refId.value, Bare(r.phone.text));
    OverwrittenBefore(m, Stop, i);
  }

  // ----- main results -----

  /** EXACTLY when a cancel is overwritten. In any reachable state a message that is
      Cancelled can still leave that state if and only if a pass loaded it with no recipient
      Cancelled, or it is about to be loaded or re-derived with none Cancelled, or a state
      re-derived before the cancel is about to be stored, or a recipient of it is Sent and
      may get a report while none is Cancelled. Any other cancelled message is Cancelled for
      good. */
  lemma CancelOverwrittenIff(labels: seq<Label>, m: Machine, i: nat)
    requires Leads(START, labels, m) && i < |m.table| && m.table[i].state.Cancelled?
    ensures MayBeOverwritten(m, i) <==> Overwritable(m, i)
  {
    StartSound();
    LeadsRegular(START, labels, m);
    if Overwritable(m, i) {
      if AtWork(m.phase) && m.phase.job.index == i && !AnyLoadedCancelled(m.phase.job) {
        PassOverwrites(m);
      } else if m.phase.Loading? && m.phase.index == i && NoneCancelled(m.table[i].recipients) {
        LoadOverwrites(m);
      } else if m.phase.Reloading? && m.phase.index == i && NoneCancelled(m.table[i].recipients) {
        ReloadOverwrites(m);
      } else if m.phase.Rederiving? && m.phase.index == i && !m.phase.final.Cancelled? {
        RederiveOverwrites(m);
      } else {
        DueOverwrites(m, i);
      }
    } else {
      forall rest, n | Leads(m, rest, n) ensures StaysCancelled(n, i) {
        LeadsStaysCancelled(m, rest, n, i);
      }
    }
  }

  // ----- and reports do overwrite cancels -----

  /** A cancel that lands between the load and the store of a re-derivation is lost on the
      message and not on its recipients, whatever they were. */
  lemma CancelBeforeStore(m: Machine, now: int, later: int)
    requires Workable(m) && m.phase.Rederiving? && Cancellable(m.table[m.phase.index]) && !m.phase.final.Cancelled?
    ensures var i := m.phase.index;
            var n := Do(Do(m, Cancel(i, now)), Rederive(later, true));
            && n.phase.Idle? && n.table[i].state == m.phase.final
            && n.table[i].states == m.table[i].states + [Entry(Cancelled, now), Entry(m.phase.final, later)]
            && |n.table[i].recipients| == |m.table[i].recipients|
            && forall j :: 0 <= j < |n.table[i].recipients| ==>
                 Current(n.table[i].recipients[j]).Cancelled? || Current(n.table[i].recipients[j]).Failed?
  {
  }

  /** A pass over the one recipient of a message: it is sent to, and the message Sent. */
  lemma SentInFull(m: Machine) returns (labels: seq<Label>, n: Machine)
    requires |m.table| == 1 && m.phase.Working? && m.phase.job == Job(0, m.table[0], [])
    requires m.table[0].textual && m.table[0].state.Processed?
    requires |m.table[0].recipients| == 1 && Current(m.table[0].recipients[0]).Pending?
    ensures Leads(m, labels, n) && n.phase.Idle? && |n.table| == 1 && n.table[0].state.Sent?
    ensures n.table[0].withDeliveryReport == m.table[0].withDeliveryReport
    ensures |n.table[0].recipients| == 1 && Current(n.table[0].recipients[0]).Sent?
    ensures n.table[0].recipients[0].refId == Some(7)
  {
    var m1 := Do(m, Begin(0, true, true));
    var m2 := Do(m1, Send(Some(7)));
    var m3 := Do(m2, Record(0, true, true));
    assert m3.phase.job.results == [Sent];
    n := EndsSent(m3);
    LeadsCons(m2, Record(0, true, true), [Finish(0, true)], n);
    LeadsCons(m1, Send(Some(7)), [Record(0, true, true)] + [Finish(0, true)], n);
    labels := [Begin(0, true, true)] + ([Send(Some(7))] + ([Record(0, true, true)] + [Finish(0, true)]));
    LeadsCons(m, Begin(0, true, true), [Send(Some(7))] + ([Record(0, true, true)] + [Finish(0, true)]), n);
  }

  lemma OnlyOneIsOldest(t: Table)
    requires |t| == 1 && t[0].withDeliveryReport == None && |t[0].recipients| == 1
    requires Current(t[0].recipients[0]).Sent? && t[0].recipients[0].refId == Some(7)
    ensures Oldest(t, 7, "", Some(Place(0, 0)))
    ensures var u := Reported(t, Some(Place(0, 0)), Delivered, 0);
            && |u| == 1 && u[0].state == t[0].state && |u[0].recipients| == 1
            && Current(u[0].recipients[0]).Delivered? && Resolve(Currents(u[0].recipients)).Delivered?
  {
    var u := Reported(t, Some(Place(0, 0)), Delivered, 0);
    assert Currents(u[0].recipients) == [Delivered];
  }

  /** Its report is applied, and the message about to be Delivered. */
  lemma AboutToDeliver(m: Machine) returns (labels: seq<Label>, n: Machine)
    requires m.phase.Idle? && |m.table| == 1 && m.table[0].state.Sent? && m.table[0].withDeliveryReport == None
    requires |m.table[0].recipients| == 1 && Current(m.table[0].recipients[0]).Sent?
    requires m.table[0].recipients[0].refId == Some(7)
    ensures Leads(m, labels, n) && n.phase == Rederiving(0, Delivered) && |n.table| == 1
    ensures n.table[0].state.Sent? && |n.table[0].recipients| == 1
    ensures Current(n.table[0].recipients[0]).Delivered?
  {
    OnlyOneIsOldest(m.table);
    var report := Report(7, "", Delivered, Place(0, 0), 0);
    var m1 := Do(m, report);
    n := Do(m1, Reload(true));
    assert Leads(n, [], n);
    LeadsCons(m1, Reload(true), [], n);
    labels := [report] + ([Reload(true)] + []);
    LeadsCons(m, report, [Reload(true)] + [], n);
  }

  predicate EndedDelivered(n: Machine) {
    && n.phase.Idle? && |n.table| == 1 && n.table[0].state.Delivered?
    && Entry(Cancelled, 0) in n.table[0].states
    && |n.table[0].recipients| == 1 && Current(n.table[0].recipients[0]).Cancelled?
  }

  lemma CancelledAndStored(m: Machine) returns (labels: seq<Label>, n: Machine)
    requires Workable(m) && m.phase == Rederiving(0, Delivered) && |m.table| == 1 && m.table[0].state.Sent?
    requires |m.table[0].recipients| == 1 && Current(m.table[0].recipients[0]).Delivered?
    ensures Leads(m, labels, n) && EndedDelivered(n)
  {
    CancelBeforeStore(m, 0, 0);
    var m1 := Do(m, Cancel(0, 0));
    n := Do(m1, Rederive(0, true));
    assert n.table[0].states[|m.table[0].states|] == Entry(Cancelled, 0);
    assert Leads(n, [], n);
    LeadsCons(m1, Rederive(0, true), [], n);
    labels := [Cancel(0, 0)] + ([Rederive(0, true)] + []);
    LeadsCons(m, Cancel(0, 0), [Rederive(0, true)] + [], n);
  }

  lemma RunToDelivery() returns (labels: seq<Label>, n: Machine)
    ensures Leads(START, labels, n) && n.phase == Rederiving(0, Delivered) && |n.table| == 1
    ensures n.table[0].state.Sent? && |n.table[0].recipients| == 1
    ensures Current(n.table[0].recipients[0]).Delivered?
  {
    var a, loaded := ClaimedAndLoaded(ExtId(""), Phone(""));
    var b, sent := SentInFull(loaded);
    var c, reported := AboutToDeliver(sent);
    LeadsConcat(START, a, loaded, b, sent);
    LeadsConcat(START, a + b, sent, c, reported);
    labels, n := a + b + c, reported;
  }

  /** A run from the empty tables in which no pass is under way when the message is
      cancelled, and yet it ends Delivered, its recipient Cancelled. */
  lemma ReportOverwritesCancel()
    ensures exists labels, n :: Leads(START, labels, n) && EndedDelivered(n)
  {
    var a, reported := RunToDelivery();
    StartSound();
    LeadsSound(START, a, reported);
    var b, n := CancelledAndStored(reported);
    LeadsConcat(START, a, reported, b, n);
  }
}
