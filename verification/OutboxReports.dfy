/**
  Delivery reports over whole runs (internal/messages/service.go): what a report makes of
  its recipient, and that a report repeated finds that recipient no more.
 */
module OutboxReports {
  import opened Options
  import opened Outbox
  import opened OutboxMachine
  import opened OutboxRuns
  import opened OutboxCancel

  // ----- a report settles its recipient -----

  lemma ReportIsPast(m: Machine, l: Label)
    requires Workable(m) && Enabled(m, l) && l.Report?
    ensures Past(Do(m, l), l.place)
  {
    assert Current(RecipientAt(Do(m, l).table, l.place)) == l.state;
  }

  /** Once a report was applied to a recipient no later report is, whatever reference,
      phone and state it carries: a duplicate goes to another recipient, or to none. */
  lemma DuplicatePassesBy(
      before: seq<Label>, m: Machine, l: Label, after: seq<Label>, n: Machine, again: Label)
    requires Leads(START, before, m) && Enabled(m, l) && l.Report?
    requires Leads(Do(m, l), after, n) && Enabled(n, again) && again.Report?
    ensures again.place != l.place
  {
    StartSound();
    LeadsSound(START, before, m);
    ReportIsPast(m, l);
    StepWorkable(m, l);
    LeadsPast(Do(m, l), after, n, l.place);
  }

  // ----- and nothing else delivers -----

  predicate Has(states: seq<Entry>, s: State) {
    exists i :: 0 <= i < |states| && states[i].state == s
  }

  predicate Told(t: Table, p: Place) {
    Exists(t, p) && Has(RecipientAt(t, p).states, Delivered)
  }

  predicate Delivers(l: Label, p: Place) {
    l.Report? && l.state.Delivered? && l.place == p
  }

  lemma HasOn(r: Recipient, s: Recipient, e: Entry)
    requires s.states == r.states + [e]
    ensures Has(s.states, Delivered) <==> Has(r.states, Delivered) || e.state.Delivered?
  {
    if Has(r.states, Delivered) {
      var i :| 0 <= i < |r.states| && r.states[i].state.Delivered?;
      assert s.states[i].state.Delivered?;
    }
    assert s.states[|r.states|] == e;
  }

  lemma SweptTold(r: Recipient, state: State, now: int)
    requires !state.Delivered?
    ensures Has(Swept(r, state, now).states, Delivered) <==> Has(r.states, Delivered)
  {
    if Swept(r, state, now) != r {
      HasOn(r, Swept(r, state, now), Entry(state, now));
    }
  }

  lemma MovedTold(t: Table, q: Place, state: State, ref: Option<int>, now: int, p: Place)
    requires Exists(t, q) && !state.Delivered?
    ensures Told(t[q.message := RecipientSet(t[q.message], q.recipient, state, ref, now)], p) <==> Told(t, p)
  {
    var r := RecipientAt(t, q);
    var s := Moved(r, state, ref, now);
    if s != r {
      HasOn(r, s, Entry(state, now));
    }
  }

  lemma SameTold(t: Table, u: Table, p: Place)
    requires |u| == |t| && (p.message < |t| ==> u[p.message].recipients == t[p.message].recipients)
    ensures Told(u, p) <==> Told(t, p)
  {
  }

  lemma CancelTold(t: Table, i: nat, now: int, p: Place)
    requires i < |t|
    ensures Told(t[i := CancelledRow(t[i], now)], p) <==> Told(t, p)
  {
    if Exists(t, p) {
      SweptTold(RecipientAt(t, p), Cancelled, now);
    }
  }

  lemma DequeueTold(t: Table, now: int, at: Option<nat>, p: Place)
    requires at.Some? ==> at.value < |t|
    ensures Told(Claimed(Expired(t, now), at, now), p) <==> Told(t, p)
  {
    var u := Expired(t, now);
    SameTold(u, Claimed(u, at, now), p);
    if p.message < |t| {
      assert u[p.message] == ExpiredRow(t[p.message], now);
    }
    if Exists(t, p) {
      SweptTold(RecipientAt(t, p), Failed, now);
    }
  }

  lemma ReportTold(t: Table, q: Place, state: State, now: int, p: Place)
    requires Exists(t, q)
    ensures Told(Reported(t, Some(q), state, now), p) <==> Told(t, p) || (state.Delivered? && p == q)
  {
    HasOn(RecipientAt(t, q), RecipientAt(Reported(t, Some(q), state, now), q), Entry(state, now));
  }

  lemma CreateTold(t: Table, input: Input, now: int, p: Place)
    ensures Told(t + [NewMessage(input, now)], p) <==> Told(t, p)
  {
  }

  lemma StepTold(m: Machine, l: Label, p: Place)
    requires Workable(m) && Enabled(m, l)
    ensures Told(TableAfter(m, l), p) <==> Told(m.table, p) || Delivers(l, p)
  {
    match l
    case Create(input, now) => CreateTold(m.table, input, now, p);
    case Cancel(i, now) => CancelTold(m.table, i, now, p);
    case Dequeue(now, at) => DequeueTold(m.table, now, at, p);
    case Begin(now, _, _) => MovedTold(m.table, At(m.phase.job), Processed, None, now, p);
    case Record(now, _, _) => MovedTold(m.table, At(m.phase.job), m.phase.outcome, m.phase.ref, now, p);
    case Report(_, _, state, q, now) => ReportTold(m.table, q, state, now, p);
    case _ => SameTold(m.table, TableAfter(m, l), p);
  }

  lemma {:induction false} LeadsTold(m: Machine, labels: seq<Label>, n: Machine, p: Place)
    requires Workable(m) && Leads(m, labels, n)
    ensures Told(n.table, p) <==> Told(m.table, p) || exists k :: 0 <= k < |labels| && Delivers(labels[k], p)
    decreases |labels|
  {
    if labels != [] {
      StepWorkable(m, labels[0]);
      StepTold(m, labels[0], p);
      LeadsTold(Do(m, labels[0]), labels[1..], n, p);
      assert forall k :: 0 < k < |labels| ==> labels[k] == labels[1..][k - 1];
    }
  }

  /** In every run a recipient's history says Delivered if and only if a report that says so
      was applied to it. */
  lemma DeliveredIffReported(labels: seq<Label>, n: Machine, p: Place)
    requires Leads(START, labels, n)
    ensures Told(n.table, p) <==> exists k :: 0 <= k < |labels| && Delivers(labels[k], p)
  {
    StartSound();
    LeadsTold(START, labels, n, p);
  }
}
