/**
  A cancel that lands while the worker is at the message (internal/messages/service.go):
  what becomes of the message, and of recipients that were cancelled after the load.
 */
module OutboxCancel {
  import opened Options
  import opened Outbox
  import opened OutboxMachine
  import opened OutboxRuns

  predicate AnyLoadedCancelled(job: Job) {
    exists j :: 0 <= j < |job.loaded.recipients| && Current(job.loaded.recipients[j]).Cancelled?
  }

  /** The states written are not final: whatever was cancelled since the load is overwritten
      at the end of the pass. The message ends Cancelled if and only if a recipient was
      already Cancelled when it was loaded. */
  lemma CancelSticks(m: Machine, now: int)
    requires PhaseOk(m.table, m.phase) && Enabled(m, Finish(now, true))
    ensures Do(m, Finish(now, true)).table[m.phase.job.index].state.Cancelled? <==> AnyLoadedCancelled(m.phase.job)
  {
  }

  // ----- a cancelled recipient -----

  /** The worker is still to send to the recipient - it was loaded open, with a text - or
      has sent to it and is to record that. */
  predicate ToBeSent(phase: Phase, p: Place) {
    || (Ahead(phase, p) && phase.job.loaded.textual)
    || (phase.Recording? && phase.outcome.Sent? && p == At(phase.job))
  }

  function RecipientAt(t: Table, p: Place): Recipient
    requires Exists(t, p)
  {
    t[p.message].recipients[p.recipient]
  }

  /** Neither open nor Sent, and nothing is under way that makes it so. */
  predicate Past(m: Machine, p: Place) {
    && Exists(m.table, p)
    && !Open(Current(RecipientAt(m.table, p))) && !Current(RecipientAt(m.table, p)).Sent?
    && !ToBeSent(m.phase, p)
  }

  ghost predicate Workable(m: Machine) {
    TableOk(m.table) && PhaseOk(m.table, m.phase)
  }

  lemma StepWorkable(m: Machine, l: Label)
    requires Workable(m) && Enabled(m, l)
    ensures Workable(Do(m, l)) && TableGrows(m.table, Do(m, l).table)
  {
    StepGrows(m, l);
    StepTable(m, l);
    StepPhase(m, l);
  }

  lemma StepPastPhase(m: Machine, l: Label, p: Place)
    requires Workable(m) && Enabled(m, l) && Past(m, p)
    ensures !ToBeSent(PhaseAfter(m, l), p)
  {
  }

  lemma StepPast(m: Machine, l: Label, p: Place)
    requires Workable(m) && Enabled(m, l) && Past(m, p)
    ensures Past(Do(m, l), p)
  {
    StepWorkable(m, l);
    StepPastPhase(m, l, p);
    assert RowGrows(m.table[p.message], Do(m, l).table[p.message]);
    var r, s := RecipientAt(m.table, p), RecipientAt(Do(m, l).table, p);
    assert RecipientGrows(r, s);
    NewlySent(m, l, p);
  }

  /** A recipient becomes Sent only by the record of a send to it. */
  lemma NewlySent(m: Machine, l: Label, p: Place)
    requires Workable(m) && Enabled(m, l) && Exists(m.table, p) && Exists(TableAfter(m, l), p)
    requires !Current(RecipientAt(m.table, p)).Sent?
    ensures Current(RecipientAt(TableAfter(m, l), p)).Sent? ==>
              m.phase.Recording? && m.phase.outcome.Sent? && p == At(m.phase.job)
  {
    match l
    case Cancel(i, now) => CancelNotSent(m.table, i, now, p);
    case Dequeue(now, at) => DequeueNotSent(m.table, now, at, p);
    case Begin(now, _, _) => MoveNotSent(m.table, At(m.phase.job), Processed, None, now, p);
    case Record(now, _, _) =>
      if !m.phase.outcome.Sent? || p != At(m.phase.job) {
        MoveNotSent(m.table, At(m.phase.job), m.phase.outcome, m.phase.ref, now, p);
      }
    case Report(_, _, _, _, _) =>
    case _ => assert TableAfter(m, l)[p.message].recipients == m.table[p.message].recipients;
  }

  lemma CancelNotSent(t: Table, i: nat, now: int, p: Place)
    requires i < |t| && Exists(t, p) && !Current(RecipientAt(t, p)).Sent?
    ensures Exists(t[i := CancelledRow(t[i], now)], p)
    ensures !Current(RecipientAt(t[i := CancelledRow(t[i], now)], p)).Sent?
  {
  }

  lemma MoveNotSent(t: Table, q: Place, state: State, ref: Option<int>, now: int, p: Place)
    requires Exists(t, p) && Exists(t, q) && !Current(RecipientAt(t, p)).Sent? && (state.Sent? ==> p != q)
    ensures var u := t[q.message := RecipientSet(t[q.message], q.recipient, state, ref, now)];
            Exists(u, p) && !Current(RecipientAt(u, p)).Sent?
  {
  }

  lemma DequeueNotSent(t: Table, now: int, at: Option<nat>, p: Place)
    requires Exists(t, p) && !Current(RecipientAt(t, p)).Sent? && (at.Some? ==> at.value < |t|)
    requires Exists(Claimed(Expired(t, now), at, now), p)
    ensures !Current(RecipientAt(Claimed(Expired(t, now), at, now), p)).Sent?
  {
    var u := Expired(t, now);
    assert u[p.message] == ExpiredRow(t[p.message], now);
    assert Claimed(u, at, now)[p.message].recipients == u[p.message].recipients;
  }

  lemma {:induction false} LeadsPast(m: Machine, labels: seq<Label>, n: Machine, p: Place)
    requires Workable(m) && Leads(m, labels, n) && Past(m, p)
    ensures Past(n, p)
    decreases |labels|
  {
    if labels != [] {
      StepWorkable(m, labels[0]);
      StepPast(m, labels[0], p);
      LeadsPast(Do(m, labels[0]), labels[1..], n, p);
    }
  }

  ghost predicate MayBecomeSent(m: Machine, p: Place) {
    exists labels, n :: Leads(m, labels, n) && Exists(n.table, p) && Current(RecipientAt(n.table, p)).Sent?
  }

  lemma LeadsCons(m: Machine, l: Label, labels: seq<Label>, n: Machine)
    requires Enabled(m, l) && Leads(Do(m, l), labels, n)
    ensures Leads(m, [l] + labels, n)
  {
    assert ([l] + labels)[1..] == labels;
  }

  lemma BecomesSentBefore(m: Machine, l: Label, p: Place)
    requires Enabled(m, l) && MayBecomeSent(Do(m, l), p)
    ensures MayBecomeSent(m, p)
  {
    var labels, n :| Leads(Do(m, l), labels, n) && Exists(n.table, p) && Current(RecipientAt(n.table, p)).Sent?;
    LeadsCons(m, l, labels, n);
  }

  /** The next step of a pass, in which earlier recipients are refused and this one is
      accepted. */
  function NextOfPass(phase: Phase, p: Place): Label
    requires ToBeSent(phase, p)
  {
    match phase
    case Working(job) => if Open(Loaded(job)) then Begin(0, true, true) else Skip
    case Sending(job) => if p == At(job) then Send(Some(0)) else Refuse
    case _ => Record(0, true, true)
  }

  /** How far the pass is from the recipient. */
  function Distance(phase: Phase, p: Place): int {
    match phase
    case Working(job) => 3 * (p.recipient - |job.results|) + 2
    case Sending(job) => 3 * (p.recipient - |job.results|) + 1
    case Recording(job, _, _, _) => 3 * (p.recipient - |job.results|)
    case _ => 0
  }

  lemma NextIsEnabled(m: Machine, p: Place)
    requires Workable(m) && ToBeSent(m.phase, p)
    ensures Exists(m.table, p) && Enabled(m, NextOfPass(m.phase, p)) && 0 <= Distance(m.phase, p)
  {
  }

  /** The record of a send leaves the recipient Sent, whatever it was. */
  lemma RecordSends(m: Machine, p: Place)
    requires Workable(m) && m.phase.Recording? && m.phase.outcome.Sent? && p == At(m.phase.job)
    ensures MayBecomeSent(m, p)
  {
    NextIsEnabled(m, p);
    var n := Do(m, Record(0, true, true));
    MovedOk(RecipientAt(m.table, p), Sent, m.phase.ref, 0);
    assert Leads(n, [], n) && Current(RecipientAt(n.table, p)).Sent?;
    BecomesSentBefore(m, Record(0, true, true), p);
  }

  lemma NextComesCloser(m: Machine, p: Place)
    requires Workable(m) && ToBeSent(m.phase, p) && !(m.phase.Recording? && p == At(m.phase.job))
    requires Enabled(m, NextOfPass(m.phase, p))
    ensures ToBeSent(PhaseAfter(m, NextOfPass(m.phase, p)), p)
    ensures Distance(PhaseAfter(m, NextOfPass(m.phase, p)), p) < Distance(m.phase, p)
  {
  }

  lemma {:induction false} PassReaches(m: Machine, p: Place)
    requires Workable(m) && ToBeSent(m.phase, p)
    ensures MayBecomeSent(m, p)
    decreases Distance(m.phase, p)
  {
    NextIsEnabled(m, p);
    if m.phase.Recording? && p == At(m.phase.job) {
      RecordSends(m, p);
    } else {
      var l := NextOfPass(m.phase, p);
      StepWorkable(m, l);
      NextComesCloser(m, p);
      PassReaches(Do(m, l), p);
      BecomesSentBefore(m, l, p);
    }
  }

  /** EXACTLY when a cancelled recipient is sent to all the same. In any reachable state a
      recipient that is Cancelled can still end Sent if and only if it was cancelled after
      the load: the worker is at its message, loaded the recipient open and with a text, and
      has not yet recorded its outcome. */
  lemma CancelledMayBeSentIff(labels: seq<Label>, m: Machine, p: Place)
    requires Leads(START, labels, m) && Exists(m.table, p) && Current(RecipientAt(m.table, p)).Cancelled?
    ensures MayBecomeSent(m, p) <==> ToBeSent(m.phase, p)
  {
    StartSound();
    LeadsSound(START, labels, m);
    if ToBeSent(m.phase, p) {
      PassReaches(m, p);
    } else {
      forall rest, n | Leads(m, rest, n) ensures Past(n, p) {
        LeadsPast(m, rest, n, p);
      }
    }
  }

  // ----- and it does happen -----

  /** A message to one recipient, claimed and loaded. */
  lemma ClaimedAndLoaded(id: ExtId, phone: Phone) returns (labels: seq<Label>, m: Machine)
    ensures Leads(START, labels, m) && |m.table| == 1 && m.phase.Working?
    ensures m.phase.job == Job(0, m.table[0], []) && m.table[0].textual && m.table[0].state.Processed?
    ensures |m.table[0].recipients| == 1 && Current(m.table[0].recipients[0]).Pending?
    ensures m.table[0].withDeliveryReport == None
  {
    var input := Input(id, true, None, None, None, [phone]);
    var m1 := Do(START, Create(input, 0));
    assert m1.table == [NewMessage(input, 0)];
    assert Expired(m1.table, 0)[0] == ExpiredRow(m1.table[0], 0);
    var m2 := Do(m1, Dequeue(0, Some(0)));
    m := Do(m2, Load(true));
    assert Leads(m, [], m);
    LeadsCons(m2, Load(true), [], m);
    LeadsCons(m1, Dequeue(0, Some(0)), [Load(true)] + [], m);
    LeadsCons(START, Create(input, 0), [Dequeue(0, Some(0))] + ([Load(true)] + []), m);
    labels := [Create(input, 0)] + ([Dequeue(0, Some(0))] + ([Load(true)] + []));
  }

  /** From there a cancel succeeds, and changes nothing of the pass. */
  lemma CancelledMidPass(m: Machine) returns (labels: seq<Label>, n: Machine)
    requires |m.table| == 1 && m.phase.Working? && m.phase.job == Job(0, m.table[0], [])
    requires m.table[0].textual && m.table[0].state.Processed?
    requires |m.table[0].recipients| == 1 && Current(m.table[0].recipients[0]).Pending?
    ensures Leads(m, labels, n) && n.phase == Sending(m.phase.job) && |n.table| == 1
    ensures n.table[0].states == m.table[0].states + [Entry(Cancelled, 0)] && n.table[0].state.Cancelled?
    ensures |n.table[0].recipients| == 1
    ensures n.table[0].recipients[0].states == m.table[0].recipients[0].states + [Entry(Cancelled, 0)]
  {
    var m1 := Do(m, Cancel(0, 0));
    assert m1.table[0].recipients[0] == Swept(m.table[0].recipients[0], Cancelled, 0);
    n := Do(m1, Begin(0, true, true));
    assert n.table[0].recipients[0] == m1.table[0].recipients[0];
    assert Leads(n, [], n);
    LeadsCons(m1, Begin(0, true, true), [], n);
    labels := [Cancel(0, 0)] + ([Begin(0, true, true)] + []);
    LeadsCons(m, Cancel(0, 0), [Begin(0, true, true)] + [], n);
  }

  /** The send goes out and is recorded all the same. */
  lemma SentAllTheSame(m: Machine) returns (labels: seq<Label>, n: Machine)
    requires |m.table| == 1 && m.phase.Sending? && m.phase.job.index == 0 && m.phase.job.results == []
    requires m.phase.job.loaded.textual && |m.phase.job.loaded.recipients| == 1
    requires |m.table[0].recipients| == 1 && Current(m.table[0].recipients[0]).Cancelled?
    ensures Leads(m, labels, n) && n.phase == Working(m.phase.job.(results := [Sent])) && |n.table| == 1
    ensures |n.table[0].recipients| == 1
    ensures n.table[0] == m.table[0].(recipients := n.table[0].recipients)
    ensures n.table[0].recipients[0].states == m.table[0].recipients[0].states + [Entry(Sent, 0)]
  {
    var m1 := Do(m, Send(Some(7)));
    n := Do(m1, Record(0, true, true));
    assert n.phase.job.results == [Sent];
    assert Leads(n, [], n);
    LeadsCons(m1, Record(0, true, true), [], n);
    LeadsCons(m, Send(Some(7)), [Record(0, true, true)] + [], n);
    labels := [Send(Some(7))] + ([Record(0, true, true)] + []);
  }

  /** And the pass ends Sent. */
  lemma EndsSent(m: Machine) returns (n: Machine)
    requires |m.table| == 1 && m.phase.Working? && m.phase.job.index == 0 && m.phase.job.results == [Sent]
    requires |m.phase.job.loaded.recipients| == 1 && !m.table[0].state.Sent?
    ensures Leads(m, [Finish(0, true)], n) && n.phase.Idle? && |n.table| == 1
    ensures n.table[0] == Entered(m.table[0], Sent, 0)
  {
    n := Do(m, Finish(0, true));
    assert Leads(n, [], n);
    LeadsCons(m, Finish(0, true), [], n);
    assert [Finish(0, true)] + [] == [Finish(0, true)];
  }

  /** And with a whole run. */
  lemma {:induction false} LeadsConcat(m: Machine, a: seq<Label>, k: Machine, b: seq<Label>, n: Machine)
    requires Leads(m, a, k) && Leads(k, b, n)
    ensures Leads(m, a + b, n)
    decreases |b|
  {
    if b == [] {
      assert a + b == a;
    } else {
      LeadsOn(m, a, k, b[0]);
      LeadsConcat(m, a + [b[0]], Do(k, b[0]), b[1..], n);
      assert a + [b[0]] + b[1..] == a + b;
    }
  }

  predicate EndedSent(n: Machine) {
    && n.phase.Idle? && |n.table| == 1 && n.table[0].state.Sent?
    && Entry(Cancelled, 0) in n.table[0].states
    && |n.table[0].recipients| == 1 && Current(n.table[0].recipients[0]).Sent?
    && Entry(Cancelled, 0) in n.table[0].recipients[0].states
  }

  lemma OverwritingRun() returns (labels: seq<Label>, m: Message, n: Machine)
    ensures Leads(START, labels, n) && n.phase.Idle? && |n.table| == 1 && |m.recipients| == 1
    ensures n.table[0].states == m.states + [Entry(Cancelled, 0), Entry(Sent, 0)] && n.table[0].state.Sent?
    ensures |n.table[0].recipients| == 1
    ensures n.table[0].recipients[0].states == m.recipients[0].states + [Entry(Cancelled, 0), Entry(Sent, 0)]
  {
    var a, loaded := ClaimedAndLoaded(ExtId(""), Phone(""));
    var b, cancelled := CancelledMidPass(loaded);
    var c, sent := SentAllTheSame(cancelled);
    n := EndsSent(sent);
    LeadsConcat(START, a, loaded, b, cancelled);
    LeadsConcat(START, a + b, cancelled, c, sent);
    LeadsConcat(START, a + b + c, sent, [Finish(0, true)], n);
    labels, m := a + b + c + [Finish(0, true)], loaded.table[0];
  }

  /** A run from the empty tables in which a message is cancelled, its recipient with it,
      and both end Sent. */
  lemma CancelIsOverwritten()
    ensures exists labels, n :: Leads(START, labels, n) && EndedSent(n)
  {
    var labels, m, n := OverwritingRun();
    assert n.table[0].states[|m.states|] == Entry(Cancelled, 0);
    assert n.table[0].recipients[0].states[|m.recipients[0].states|] == Entry(Cancelled, 0);
    assert EndedSent(n);
  }
}
