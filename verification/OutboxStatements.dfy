/**
  What the statements of the outbox repository do, column by column
  (internal/messages/repository.go), and when the worker is at a message at all.
 */
module OutboxStatements {
  import opened Options
  import opened Outbox
  import opened OutboxMachine
  import opened OutboxRuns
  import opened OutboxCancel

  function Last(states: History): State {
    states[|states| - 1].state
  }

  // ----- one statement, one row -----

  /** The time told for a state is that of its first entry, and of no other. */
  lemma {:induction false} FirstTimesExact(states: seq<Entry>, i: nat)
    requires i < |states| && forall j :: 0 <= j < i ==> states[j].state != states[i].state
    ensures states[i].state in FirstTimes(states) && FirstTimes(states)[states[i].state] == states[i].at
  {
    if i < |states| - 1 {
      FirstTimesExact(states[..|states| - 1], i);
    }
  }

  /** A new message is Pending since now, keeps what it was ordered with, and has one Pending
      recipient per phone. */
  lemma CreateExact(input: Input, now: int)
    ensures var m := NewMessage(input, now);
            && m.id == input.id && m.textual == input.textual
            && m.validUntil == input.validUntil && m.scheduleAt == input.scheduleAt
            && m.withDeliveryReport == input.withDeliveryReport
            && m.state.Pending? && m.states == [Entry(Pending, now)]
            && |m.recipients| == |input.phones|
            && forall k :: 0 <= k < |m.recipients| ==>
                 m.recipients[k] == Recipient(input.phones[k], [Entry(Pending, now)], None)
  {
  }

  /** SetState enters the state into the row of that id, unless it is there already. */
  lemma SetStateExact(t: Table, id: ExtId, state: State, now: int, i: nat)
    requires UniqueIds(t) && i < |t|
    ensures var u := AfterSetState(t, id, state, now);
            && |u| == |t|
            && u[i] == if t[i].id == id && t[i].state != state
                       then t[i].(state := state, states := t[i].states + [Entry(state, now)]) else t[i]
  {
  }

  /** The guards of the recipient statements: not the same state again, and Processed only
      from Pending. */
  predicate Takes(r: Recipient, state: State) {
    Last(r.states) != state && (state.Processed? ==> Last(r.states).Pending?)
  }

  lemma RecipientExact(t: Table, id: ExtId, phone: Phone, state: State, ref: Option<int>, now: int, p: Place)
    requires Keyed(t) && Exists(t, p)
    ensures var u, r := AfterRecipient(t, id, phone, state, ref, now), RecipientAt(t, p);
            && |u| == |t| && Exists(u, p)
            && u[p.message] == t[p.message].(recipients := u[p.message].recipients)
            && RecipientAt(u, p) ==
                 if t[p.message].id == id && r.phone == phone && Takes(r, state)
                 then Recipient(r.phone, r.states + [Entry(state, now)], if ref.Some? then ref else r.refId) else r
  {
  }

  /** A recipient gains the state of a cascade unless it is Failed or has that state. */
  predicate Cascades(before: seq<Recipient>, after: seq<Recipient>, state: State, now: int) {
    && |after| == |before|
    && forall k :: 0 <= k < |before| ==>
         after[k] == if Last(before[k].states).Failed? || Last(before[k].states) == state then before[k]
                     else before[k].(states := before[k].states + [Entry(state, now)])
  }

  lemma CascadeExact(rs: seq<Recipient>, state: State, now: int)
    ensures Cascades(rs, SweptAll(rs, state, now), state, now)
  {
  }

  /** A cancel touches the row of that id alone, unless it is Failed or Cancelled. */
  lemma CancelExact(t: Table, id: ExtId, now: int, i: nat)
    requires UniqueIds(t) && i < |t|
    ensures var u, m := AfterCancel(t, id, now), t[i];
            && |u| == |t|
            && if m.id == id && !m.state.Failed? && !m.state.Cancelled? then
                 && u[i] == m.(state := Cancelled, states := m.states + [Entry(Cancelled, now)],
                               recipients := u[i].recipients)
                 && Cascades(m.recipients, u[i].recipients, Cancelled, now)
               else u[i] == m
  {
    CascadeExact(t[i].recipients, Cancelled, now);
  }

  /** An expiry touches the messages that are Pending or Processed past their valid_until. */
  lemma ExpiryExact(t: Table, now: int, i: nat)
    requires i < |t|
    ensures var u, m := Expired(t, now), t[i];
            && |u| == |t|
            && if (m.state.Pending? || m.state.Processed?) && m.validUntil.Some? && m.validUntil.value <= now then
                 && u[i] == m.(state := Failed, states := m.states + [Entry(Failed, now)],
                               recipients := u[i].recipients)
                 && Cascades(m.recipients, u[i].recipients, Failed, now)
               else u[i] == m
  {
    CascadeExact(t[i].recipients, Failed, now);
  }

  // ----- the steps of a pass, on the tables -----

  /** Only the row of the recipient changed, and it gained this entry and reference, if the
      guards let it. */
  predicate Gains(t: Table, u: Table, p: Place, state: State, ref: Option<int>, now: int)
    requires Exists(t, p)
  {
    var r := RecipientAt(t, p);
    var n := if Takes(r, state)
             then Recipient(r.phone, r.states + [Entry(state, now)], if ref.Some? then ref else r.refId) else r;
    u == t[p.message := t[p.message].(recipients := t[p.message].recipients[p.recipient := n])]
  }

  /** The mark before a send, if the statement was applied, makes a Pending recipient Processed. */
  lemma BeginExact(m: Machine, now: int, ok: bool)
    requires Enabled(m, Begin(now, true, ok))
    ensures Gains(m.table, TableAfter(m, Begin(now, true, ok)), At(m.phase.job), Processed, None, now)
  {
  }

  /** The record after it makes the recipient Sent under its reference, or Failed. */
  lemma RecordExact(m: Machine, now: int, ok: bool)
    requires Enabled(m, Record(now, true, ok))
    ensures Gains(m.table, TableAfter(m, Record(now, true, ok)), At(m.phase.job), m.phase.outcome, m.phase.ref, now)
  {
  }

  /** What is recorded is what the modem said: Sent under the reference it gave, or Failed. */
  lemma OutcomeExact(m: Machine, accepted: Option<int>)
    requires Enabled(m, Send(accepted))
    ensures PhaseAfter(m, Send(accepted)) ==
              Recording(m.phase.job, if accepted.Some? then Sent else Failed, accepted, true)
    ensures PhaseAfter(m, Refuse) == Recording(m.phase.job, Failed, None, false)
  {
  }

  /** The end of a pass enters the state the recipients' outcomes resolve to. */
  lemma FinishExact(m: Machine, now: int)
    requires Enabled(m, Finish(now, true))
    ensures var i, final := m.phase.job.index, Resolve(m.phase.job.results);
            var row := m.table[i];
            TableAfter(m, Finish(now, true)) ==
              m.table[i := if row.state == final then row
                           else row.(state := final, states := row.states + [Entry(final, now)])]
  {
  }

  // ----- which recipient a report goes to -----

  /** Sent under the reference, in a message whose reports are not declined. */
  predicate Owed(t: Table, p: Place, ref: int) {
    && Exists(t, p)
    && t[p.message].withDeliveryReport != Some(false)
    && RecipientAt(t, p).refId == Some(ref) && Last(RecipientAt(t, p).states).Sent?
  }

  lemma {:induction false} BareOfPlus(digits: string)
    requires '+' !in digits
    ensures Bare("+" + digits) == digits && Bare(digits) == digits
  {
    BareDrops(digits, "");
    BareDrops("", digits);
    assert "" + "+" + digits == "+" + digits;
  }

  /** A report is applied to a recipient that is owed one under its reference and, unless it
      names no phone, has that very phone behind a plus sign. */
  lemma ReportedIsOwed(t: Table, ref: int, phone: string, p: Place, digits: string)
    requires Oldest(t, ref, phone, Some(p)) && '+' !in digits
    ensures Owed(t, p, ref)
    ensures RecipientAt(t, p).phone.text == "+" + digits && phone != "" ==> digits == phone
  {
    BareOfPlus(digits);
  }

  /** It is the first of those, by message and place; without a phone the first of all. */
  lemma ReportedIsFirst(t: Table, ref: int, phone: string, at: Option<Place>, p: Place)
    requires Oldest(t, ref, phone, at) && Owed(t, p, ref) && '+' !in phone
    requires phone == "" || RecipientAt(t, p).phone.text == "+" + phone
    ensures at.Some?
    ensures at.value.message < p.message
            || (at.value.message == p.message && at.value.recipient <= p.recipient)
  {
    BareOfPlus(phone);
    assert Awaits(t[p.message], t[p.message].recipients[p.recipient], ref, phone);
  }

  /** And no other recipient, and no message, changes. */
  lemma ReportTouchesOne(t: Table, q: Place, state: State, now: int, p: Place)
    requires Exists(t, q) && Exists(t, p)
    ensures var u, r := Reported(t, Some(q), state, now), RecipientAt(t, p);
            && |u| == |t| && Exists(u, p)
            && u[p.message] == t[p.message].(recipients := u[p.message].recipients)
            && RecipientAt(u, p) == if p == q then r.(states := r.states + [Entry(state, now)]) else r
  {
  }

  // ----- the schedule, over runs -----

  /** The worker is at the message: about to load it, or in its pass. */
  predicate IsAt(phase: Phase, i: nat) {
    || (phase.Loading? && phase.index == i)
    || ((phase.Working? || phase.Sending? || phase.Recording?) && phase.job.index == i)
  }

  /** The message was claimed when its time had come and was not past. */
  predicate ClaimedInTime(labels: seq<Label>, t: Table, i: nat)
    requires i < |t|
  {
    exists k :: 0 <= k < |labels| && labels[k].Dequeue? && labels[k].at == Some(i)
                && (t[i].scheduleAt.None? || t[i].scheduleAt.value <= labels[k].now)
                && (t[i].validUntil.None? || labels[k].now < t[i].validUntil.value)
  }

  lemma ClaimInTime(m: Machine, l: Label, i: nat)
    requires Enabled(m, l) && l.Dequeue? && l.at == Some(i)
    ensures i < |m.table| && (m.table[i].state.Pending? || m.table[i].state.Processed?)
    ensures m.table[i].scheduleAt.None? || m.table[i].scheduleAt.value <= l.now
    ensures m.table[i].validUntil.None? || l.now < m.table[i].validUntil.value
  {
    ClaimIsFirstDue(m.table, l.now, l.at);
  }

  /** And no message that may be claimed is passed over for a later one. */
  lemma DueIsClaimed(m: Machine, l: Label, i: nat)
    requires Enabled(m, l) && l.Dequeue? && i < |m.table|
    requires m.table[i].state.Pending? || m.table[i].state.Processed?
    requires m.table[i].scheduleAt.None? || m.table[i].scheduleAt.value <= l.now
    requires m.table[i].validUntil.None? || l.now < m.table[i].validUntil.value
    ensures l.at.Some? && l.at.value <= i
  {
    ClaimIsFirstDue(m.table, l.now, l.at);
  }

  lemma StepIsAt(m: Machine, l: Label, i: nat)
    requires Enabled(m, l) && IsAt(PhaseAfter(m, l), i)
    ensures IsAt(m.phase, i) || (l.Dequeue? && l.at == Some(i))
  {
  }

  lemma {:induction false} LeadsIsAt(m: Machine, labels: seq<Label>, n: Machine, i: nat)
    requires Workable(m) && Leads(m, labels, n) && IsAt(n.phase, i) && !IsAt(m.phase, i) && i < |n.table|
    ensures ClaimedInTime(labels, n.table, i)
    decreases |labels|
  {
    assert labels != [];
    var l, next := labels[0], Do(m, labels[0]);
    StepWorkable(m, l);
    HistoriesGrow(next, labels[1..], n);
    if IsAt(next.phase, i) {
      StepIsAt(m, l, i);
      ClaimInTime(m, l, i);
      assert RowGrows(m.table[i], next.table[i]) && RowGrows(next.table[i], n.table[i]);
    } else {
      LeadsIsAt(next, labels[1..], n, i);
      var k :| 0 <= k < |labels[1..]| && labels[1..][k].Dequeue? && labels[1..][k].at == Some(i)
               && (n.table[i].scheduleAt.None? || n.table[i].scheduleAt.value <= labels[1..][k].now)
               && (n.table[i].validUntil.None? || labels[1..][k].now < n.table[i].validUntil.value);
      assert labels[k + 1] == labels[1..][k];
    }
  }

  /** THE SCHEDULE. In every run, when the modem is asked to send to a recipient, its message
      was claimed at a time that was not before its schedule_at, and before its valid_until. */
  lemma SentOnSchedule(labels: seq<Label>, m: Machine, accepted: Option<int>)
    requires Leads(START, labels, m) && Enabled(m, Send(accepted))
    ensures m.phase.job.index < |m.table| && ClaimedInTime(labels, m.table, m.phase.job.index)
  {
    StartSound();
    LeadsSound(START, labels, m);
    LeadsIsAt(START, labels, m, m.phase.job.index);
  }
}
