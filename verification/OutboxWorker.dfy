/**
  The outbox worker as the code runs it (internal/messages/service.go), every statement
  tied to a step of the machine: what is proved of the machine's runs holds of the code's.
  Between its statements API handlers create and cancel messages. What befalls each step - a
  statement that fails, applied or not, what the modem accepts - is an arbitrary script,
  as are the clock and the check of the texts.
 */
module OutboxWorker {
  import opened Collections
  import opened Options
  import opened Outbox
  import opened OutboxRepository
  import opened OutboxMachine
  import opened OutboxRuns

  // ----- how many messages are settled -----

  /** The messages that can no longer be claimed. */
  function Closed(t: Table): (n: nat)
    ensures n <= |t|
  {
    if t == [] then 0 else Closed(t[..|t| - 1]) + if Open(t[|t| - 1].state) then 0 else 1
  }

  lemma {:induction false} ClosedUpdate(t: Table, i: nat, n: Message)
    requires i < |t|
    ensures Closed(t[i := n]) == Closed(t) - (if Open(t[i].state) then 0 else 1) + if Open(n.state) then 0 else 1
  {
    var u := t[i := n];
    if i < |t| - 1 {
      ClosedUpdate(t[..|t| - 1], i, n);
      assert u[..|t| - 1] == t[..|t| - 1][i := n];
    } else {
      assert u[..|t| - 1] == t[..|t| - 1];
    }
  }

  lemma {:induction false} ClosedExpired(t: Table, now: int)
    ensures Closed(t) <= Closed(Expired(t, now))
  {
    if t != [] {
      ClosedExpired(t[..|t| - 1], now);
      assert Expired(t, now)[..|t| - 1] == Expired(t[..|t| - 1], now);
    }
  }

  /** Those of them that are not the given one. */
  function ClosedBut(t: Table, i: nat): int
    requires i < |t|
  {
    Closed(t) - if Open(t[i].state) then 0 else 1
  }

  /** Messages may have been added, and none became claimable again. */
  predicate Onward(t: Table, u: Table) {
    && |t| <= |u| && Closed(t) <= Closed(u)
    && forall i :: 0 <= i < |t| ==> u[i].id == t[i].id && ClosedBut(t, i) <= ClosedBut(u, i)
  }

  lemma UpdateOnward(t: Table, k: nat, n: Message)
    requires k < |t| && n.id == t[k].id && (Open(n.state) ==> Open(t[k].state))
    ensures Onward(t, t[k := n])
  {
    ClosedUpdate(t, k, n);
  }

  lemma AddOnward(t: Table, n: Message)
    ensures Onward(t, t + [n])
  {
    assert (t + [n])[..|t|] == t;
  }

  lemma CancelOnward(t: Table, id: ExtId, now: int)
    ensures Onward(t, AfterCancel(t, id, now))
  {
    var row := Row(t, id);
    if row.Some? {
      UpdateOnward(t, row.value, CancelledRow(t[row.value], now));
    }
  }

  lemma CancelledOn(t: Table, u: Table, id: ExtId, now: int)
    requires Onward(t, u) && TableGrows(t, u)
    ensures Onward(t, AfterCancel(u, id, now)) && TableGrows(t, AfterCancel(u, id, now))
  {
    CancelOnward(u, id, now);
    OnwardOn(t, u, AfterCancel(u, id, now));
    var row := Row(u, id);
    if row.Some? {
      CancelGrows(u[row.value], now);
      UpdateGrows(u, row.value, CancelledRow(u[row.value], now));
      GrowsOn(t, u, AfterCancel(u, id, now));
    }
  }

  function AfterCreate(t: Table, input: Input, now: int): Table {
    if Row(t, input.id).None? && Distinct(input.phones) then t + [NewMessage(input, now)] else t
  }

  lemma CreatedOn(t: Table, u: Table, input: Input, now: int)
    requires Onward(t, u) && TableGrows(t, u)
    ensures Onward(t, AfterCreate(u, input, now)) && TableGrows(t, AfterCreate(u, input, now))
  {
    AddOnward(u, NewMessage(input, now));
    OnwardOn(t, u, u + [NewMessage(input, now)]);
  }

  // ----- the rows of a job -----

  lemma JobRow(t: Table, job: Job)
    requires TableOk(t) && JobOk(t, job)
    ensures Keyed(t) && Row(t, job.loaded.id) == Some(job.index)
    ensures |job.results| < |job.loaded.recipients| ==>
              Slot(t[job.index].recipients, job.loaded.recipients[|job.results|].phone) == Some(|job.results|)
  {
  }

  /** The statement that names the recipient the worker is at updates that row. */
  lemma JobRecipient(t: Table, job: Job, state: State, ref: Option<int>, now: int)
    requires TableOk(t) && JobOk(t, job) && |job.results| < |job.loaded.recipients|
    ensures More(t, job)
    ensures AfterRecipient(t, job.loaded.id, job.loaded.recipients[|job.results|].phone, state, ref, now)
            == t[job.index := RecipientSet(t[job.index], |job.results|, state, ref, now)]
    ensures Onward(t, AfterRecipient(t, job.loaded.id, job.loaded.recipients[|job.results|].phone, state, ref, now))
  {
    JobRow(t, job);
    UpdateOnward(t, job.index, RecipientSet(t[job.index], |job.results|, state, ref, now));
  }

  /** The table after the statement that marks the recipient at hand. */
  function Marked(t: Table, job: Job, now: int, applied: bool): Table
    requires |job.results| < |job.loaded.recipients|
  {
    if applied then AfterRecipient(t, job.loaded.id, job.loaded.recipients[|job.results|].phone, Processed, None, now)
    else t
  }

  /** The table after the statement that records the outcome at hand. */
  function Stored(m: Machine, now: int, applied: bool): Table
    requires m.phase.Recording? && |m.phase.job.results| < |m.phase.job.loaded.recipients|
  {
    var job := m.phase.job;
    if applied then
      AfterRecipient(m.table, job.loaded.id, job.loaded.recipients[|job.results|].phone,
                     m.phase.outcome, m.phase.ref, now)
    else m.table
  }

  /** It is that of the machine's step. */
  lemma RecordDoes(m: Machine, now: int, applied: bool, ok: bool)
    requires TableOk(m.table) && PhaseOk(m.table, m.phase) && m.phase.Recording? && (ok ==> applied)
    ensures Enabled(m, Record(now, applied, ok)) && Onward(m.table, Stored(m, now, applied))
    ensures TableAfter(m, Record(now, applied, ok)) == Stored(m, now, applied)
  {
    JobRecipient(m.table, m.phase.job, m.phase.outcome, m.phase.ref, now);
    NoneOnward(m.table);
  }

  lemma OnwardOn(t: Table, u: Table, v: Table)
    requires Onward(t, u) && Onward(u, v)
    ensures Onward(t, v)
  {
  }

  lemma NoneOnward(t: Table)
    ensures Onward(t, t)
  {
  }

  /** A claim reopens no message, and counts the claimed one among the claimable. */
  lemma DequeueReopensNone(t: Table, now: int, at: Option<nat>)
    requires NextDue(Expired(t, now), now, at)
    ensures var u := Claimed(Expired(t, now), at, now);
            |u| == |t| && Closed(t) <= Closed(u) && (at.Some? ==> Closed(t) <= ClosedBut(u, at.value))
  {
    ClosedExpired(t, now);
    if at.Some? {
      ClosedUpdate(Expired(t, now), at.value, Entered(Expired(t, now)[at.value], Processed, now));
    }
  }

  /** The table after the statement that ends a pass. */
  function Finished(t: Table, job: Job, now: int, applied: bool): Table {
    if applied then AfterSetState(t, job.loaded.id, Resolve(job.results), now) else t
  }

  /** One message more is closed, if it was not before, and no other is opened. */
  predicate Closes(t: Table, i: nat, u: Table, applied: bool) {
    && i < |t| == |u|
    && Closed(u) == if applied then ClosedBut(t, i) + 1 else Closed(t)
  }

  /** The end of a pass closes its message. */
  lemma FinishCloses(t: Table, job: Job, now: int, applied: bool)
    requires TableOk(t) && JobOk(t, job) && |job.results| == |job.loaded.recipients|
    ensures job.index < |t|
    ensures Finished(t, job, now, applied) ==
              if applied then t[job.index := StateSet(t[job.index], Resolve(job.results), now)] else t
    ensures Closes(t, job.index, Finished(t, job, now, applied), applied)
  {
    JobRow(t, job);
    ResultsClosed(job, t[job.index]);
    ClosedUpdate(t, job.index, StateSet(t[job.index], Resolve(job.results), now));
  }

  datatype Fate = Fate(applied: bool, ok: bool, accepted: Option<int>)

  /** A statement is applied if it succeeds, and may be if it fails. */
  predicate Applied(fate: Fate) {
    fate.applied || fate.ok
  }

  /** The step turned out as the script says. */
  predicate Follows(l: Label, fate: Fate) {
    match l
    case Dequeue(_, _) => fate.ok
    case Load(ok) => ok == fate.ok
    case Begin(_, applied, ok) => ok == fate.ok && applied == Applied(fate)
    case Send(accepted) => accepted == fate.accepted
    case Record(_, applied, ok) => ok == fate.ok && applied == Applied(fate)
    case Finish(_, applied) => applied == Applied(fate)
    case Report(_, _, _, _, _) => fate.ok
    case Reload(ok) => ok == fate.ok
    case Rederive(_, applied) => applied == Applied(fate)
    case _ => true
  }

  predicate AllFollow(past: seq<Label>, script: nat -> Fate) {
    forall i :: 0 <= i < |past| ==> Follows(past[i], script(i))
  }

  lemma AllFollowOn(past: seq<Label>, l: Label, script: nat -> Fate)
    requires AllFollow(past, script) && Follows(l, script(|past|))
    ensures AllFollow(past + [l], script)
  {
  }

  /** The send asked of the modem for a recipient: one if it was open when it was loaded,
      there is a text and it fits. */
  function AskedFor(sends: Tally, p: Place, textual: bool, fits: bool, loaded: State): Tally {
    if Open(loaded) && textual && fits then Bump(sends, p) else sends
  }

  /** The sends asked for the first recipients of a message. */
  function Asked(sends: Tally, index: nat, message: Message, fits: bool, n: nat): Tally
    requires n <= |message.recipients|
  {
    if n == 0 then sends
    else
      AskedFor(Asked(sends, index, message, fits, n - 1), Place(index, n - 1), message.textual, fits,
               Current(message.recipients[n - 1]))
  }

  /** A step of an API handler. */
  predicate OfOthers(l: Label) {
    l.Create? || l.Cancel?
  }

  /** The steps the worker takes itself. */
  function Own(past: seq<Label>): seq<Label> {
    if past == [] then []
    else Own(past[..|past| - 1]) + if OfOthers(past[|past| - 1]) then [] else [past[|past| - 1]]
  }

  lemma OwnOn(past: seq<Label>, l: Label)
    ensures Own(past + [l]) == Own(past) + if OfOthers(l) then [] else [l]
  {
  }

  /** Those of a stretch of the run, whatever was cancelled meanwhile. */
  predicate Took(before: seq<Label>, turn: seq<Label>, after: seq<Label>) {
    Own(after) == Own(before) + turn
  }

  lemma TookOn(a: seq<Label>, l: Label, b: seq<Label>, turn: seq<Label>, c: seq<Label>)
    requires Took(a, [l], b) && Took(b, turn, c)
    ensures Took(a, [l] + turn, c)
  {
  }

  lemma TookNothing(a: seq<Label>)
    ensures Took(a, [], a)
  {
  }

  predicate Reports(l: Label, ref: int, phone: string, state: State) {
    l.Report? && l.ref == ref && l.phone == phone && l.state == state
  }

  /** The report is applied to the oldest recipient that awaits it. */
  predicate Applies(t: Table, l: Label, u: Table) {
    l.Report? && Oldest(t, l.ref, l.phone, Some(l.place)) && u == Reported(t, Some(l.place), l.state, l.now)
  }

  /** The steps that re-derive the state of a message: it is loaded, and stored if it is not
      the state its recipients resolve to. */
  predicate Rederives(turn: seq<Label>, loaded: Option<Message>, u: Table, i: nat) {
    && 1 <= |turn| <= 2 && turn[0] == Reload(loaded.Some?)
    && (|turn| == 2 <==> loaded.Some? && Resolve(Currents(loaded.value.recipients)) != loaded.value.state)
    && (|turn| == 2 ==>
          && turn[1].Rederive?
          && (turn[1].applied ==> i < |u| && u[i].state == Resolve(Currents(loaded.value.recipients))))
  }

  /** A report was applied and its message re-derived, as it was loaded after the report. */
  predicate Handled(
      t: Table, turn: seq<Label>, loaded: Option<Message>, u: Table, ref: int, phone: string, state: State) {
    && 1 < |turn| && Reports(turn[0], ref, phone, state)
    && Oldest(t, ref, phone, Some(turn[0].place))
    && (loaded.Some? ==>
          RowGrows(Reported(t, Some(turn[0].place), state, turn[0].now)[turn[0].place.message], loaded.value))
    && Rederives(turn[1..], loaded, u, turn[0].place.message)
  }

  lemma OldestAwaits(t: Table, ref: int, phone: string, p: Place)
    requires Oldest(t, ref, phone, Some(p))
    ensures !Oldest(t, ref, phone, None)
  {
  }

  lemma TurnHandled(
      t: Table, report: Label, u: Table, rest: seq<Label>, loaded: Option<Message>, v: Table,
      ref: int, phone: string, state: State)
    requires Reports(report, ref, phone, state) && Applies(t, report, u) && report.place.message < |u|
    requires loaded.Some? ==> RowGrows(u[report.place.message], loaded.value)
    requires Rederives(rest, loaded, v, report.place.message)
    ensures Handled(t, [report] + rest, loaded, v, ref, phone, state)
  {
    assert ([report] + rest)[1..] == rest;
  }

  /** What the load of a reported message leaves to store. */
  function ToStore(loaded: Option<Message>): Option<State> {
    if loaded.Some? && Resolve(Currents(loaded.value.recipients)) != loaded.value.state
    then Some(Resolve(Currents(loaded.value.recipients))) else None
  }

  /** The statement that stores a re-derived state is the step of the machine. */
  lemma RederiveDoes(m: Machine, id: ExtId, now: int, applied: bool)
    requires m.phase.Rederiving? && m.phase.index < |m.table| && Row(m.table, id) == Some(m.phase.index)
    ensures var n := Do(m, OutboxMachine.Rederive(now, applied));
            && n.table == (if applied then AfterSetState(m.table, id, m.phase.final, now) else m.table)
            && n.phase.Idle? && (applied ==> n.table[m.phase.index].state == m.phase.final)
  {
  }

  lemma TurnRederives(loaded: Option<Message>, stored: Option<Label>, u: Table, i: nat)
    requires stored.Some? <==> ToStore(loaded).Some?
    requires stored.Some? ==>
               && stored.value.Rederive? && i < |u|
               && (stored.value.applied ==> u[i].state == ToStore(loaded).value)
    ensures Rederives([Reload(loaded.Some?)] + (if stored.Some? then [stored.value] else []), loaded, u, i)
  {
  }

  const EMPTY := Job(0, Message(ExtId(""), false, None, None, None, Pending, [Entry(Pending, 0)], []), [])

  class Service {
    const messages: Repository
    const script: nat -> Fate
    const fits: ExtId -> bool
    // how many messages there will ever be
    const created: nat
    var step: nat
    ghost var machine: Machine
    ghost var past: seq<Label>
    ghost var finished: nat

    /** The tables are the machine's, after a run of the machine from the empty tables that
        follows the script. */
    ghost predicate Valid()
      reads this, messages
    {
      && messages.Valid() && machine.table == messages.messages
      && Leads(START, past, machine)
      && AllFollow(past, script) && step == |past| && |machine.table| <= created
    }

    constructor (script: nat -> Fate, fits: ExtId -> bool, created: nat)
      ensures Valid() && machine == START && fresh(messages)
      ensures this.script == script && this.fits == fits && this.created == created
    {
      messages := new Repository();
      this.script, this.fits, this.created, step := script, fits, created, 0;
      machine, past, finished := START, [], 0;
    }

    /** One step of the machine; passes that end with their final state set are counted. */
    ghost method Take(l: Label)
      requires Leads(START, past, machine) && Enabled(machine, l)
      requires AllFollow(past, script) && Follows(l, script(|past|))
      modifies this`machine, this`past, this`finished
      ensures Leads(START, past, machine) && AllFollow(past, script)
      ensures machine == Do(old(machine), l) && past == old(past) + [l]
      ensures Own(past) == Own(old(past)) + if OfOthers(l) then [] else [l]
      ensures finished == old(finished) + if l.Finish? && l.applied then 1 else 0
    {
      OwnOn(past, l);
      LeadsOn(START, past, machine, l);
      AllFollowOn(past, l, script);
      machine := Do(machine, l);
      past := past + [l];
      finished := finished + if l.Finish? && l.applied then 1 else 0;
    }

    /** What the script has for the coming step. */
    method Meet() returns (fate: Fate)
      modifies this`step
      ensures fate == script(old(step)) && step == old(step) + 1
    {
      fate := script(step);
      step := step + 1;
    }

    lemma Reached()
      requires Leads(START, past, machine)
      ensures TableOk(machine.table) && PhaseOk(machine.table, machine.phase)
    {
      StartSound();
      LeadsSound(START, past, machine);
    }

    /** One cancel request of an API handler. */
    method CancelOne(id: ExtId, now: int)
      requires Valid()
      modifies this, messages
      ensures Valid() && machine.phase == old(machine).phase && finished == old(finished)
      ensures machine.table == AfterCancel(old(machine).table, id, now) && machine.sends == old(machine).sends
      ensures Own(past) == Own(old(past))
    {
      ghost var row := Row(messages.messages, id);
      var result := messages.Cancel(id, now);
      if !result.NotFound? {
        var fate := Meet();
        Take(Cancel(row.value, now));
      }
    }

    /** One request of an API handler that creates a message. */
    method CreateOne(input: Input, now: int)
      requires Valid() && |machine.table| < created
      modifies this, messages
      ensures Valid() && machine.phase == old(machine).phase && finished == old(finished)
      ensures machine.sends == old(machine).sends && Own(past) == Own(old(past))
      ensures machine.table == AfterCreate(old(machine).table, input, now)
    {
      ghost var row := Row(messages.messages, input.id);
      var result := messages.Create(input, now);
      if result.Created? {
        var fate := Meet();
        Take(Create(input, now));
      }
    }

    /** What API handlers may do between two statements of the worker: create messages and
        cancel them. */
    method Others()
      requires Valid()
      modifies this, messages
      ensures Valid() && machine.phase == old(machine).phase && finished == old(finished)
      ensures Onward(old(machine).table, machine.table) && machine.sends == old(machine).sends
      ensures TableGrows(old(machine).table, machine.table) && Own(past) == Own(old(past))
    {
      var requests: nat := *;
      NothingGrows(machine.table);
      NoneOnward(machine.table);
      while requests > 0
        invariant Valid() && machine.phase == old(machine).phase && finished == old(finished)
        invariant Onward(old(machine).table, machine.table) && machine.sends == old(machine).sends
        invariant TableGrows(old(machine).table, machine.table) && Own(past) == Own(old(past))
      {
        var id: ExtId, input: Input, now: int, creates: bool := *, *, *, *;
        ghost var before := machine.table;
        if creates && |messages.messages| < created {
          CreateOne(input, now);
          CreatedOn(old(machine).table, before, input, now);
        } else {
          CancelOne(id, now);
          CancelledOn(old(machine).table, before, id, now);
        }
        requests := requests - 1;
      }
    }

    /** The step of the machine that goes with the mark of a recipient. */
    ghost method TakeBegin(now: int, fate: Fate)
      requires messages.Valid() && Leads(START, past, machine) && AllFollow(past, script)
      requires step == |past| + 1 && fate == script(|past|) && |machine.table| <= created
      requires machine.phase.Working? && UnderWay(machine.phase.job) && Open(Loaded(machine.phase.job))
      requires messages.messages == Marked(machine.table, machine.phase.job, now, Applied(fate))
      modifies this`machine, this`past, this`finished
      ensures Valid() && finished == old(finished) && Onward(old(machine).table, machine.table)
      ensures machine.phase == if fate.ok then Sending(old(machine).phase.job) else Idle
      ensures machine.sends == old(machine).sends
    {
      Reached();
      JobRecipient(machine.table, machine.phase.job, Processed, None, now);
      NoneOnward(machine.table);
      Take(Begin(now, Applied(fate), fate.ok));
    }

    /** SetRecipientProcessed, for the recipient at hand. */
    method MarkProcessed(message: Message, recipient: Recipient) returns (ok: bool)
      requires Valid() && machine.phase.Working? && machine.phase.job.loaded == message && UnderWay(machine.phase.job)
      requires recipient == message.recipients[|machine.phase.job.results|]
      modifies this, messages
      ensures Valid() && finished == old(finished) && Onward(old(machine).table, machine.table)
      ensures machine.phase == if ok then Sending(old(machine).phase.job) else Idle
      ensures ok == script(old(step)).ok && machine.sends == old(machine).sends
    {
      var now: int := *;
      var fate := Meet();
      ok := fate.ok;
      if Applied(fate) {
        messages.SetRecipientProcessed(message.id, recipient.phone, now);
      }
      TakeBegin(now, fate);
    }

    /** The step of the machine that goes with the record of an outcome. */
    ghost method TakeRecord(now: int, fate: Fate)
      requires messages.Valid() && Leads(START, past, machine) && AllFollow(past, script)
      requires step == |past| + 1 && fate == script(|past|) && |machine.table| <= created
      requires machine.phase.Recording? && UnderWay(machine.phase.job)
      requires messages.messages == Stored(machine, now, Applied(fate))
      modifies this`machine, this`past, this`finished
      ensures Valid() && finished == old(finished) && Onward(old(machine).table, machine.table)
      ensures machine.phase == if fate.ok then Done(old(machine).phase.job, old(machine).phase.outcome) else Idle
      ensures machine.sends == old(machine).sends
    {
      Reached();
      RecordDoes(machine, now, Applied(fate), fate.ok);
      Take(Record(now, Applied(fate), fate.ok));
    }

    /** failRecipient. */
    method FailRecipient(message: Message, recipient: Recipient) returns (state: State, ok: bool)
      requires Valid() && machine.phase.Recording? && machine.phase.job.loaded == message
      requires machine.phase.outcome == Failed && machine.phase.ref == None
      requires UnderWay(machine.phase.job) && recipient == message.recipients[|machine.phase.job.results|]
      modifies this, messages
      ensures Valid() && finished == old(finished) && Onward(old(machine).table, machine.table)
      ensures machine.phase == if ok then Done(old(machine).phase.job, state) else Idle
      ensures state == Failed && machine.sends == old(machine).sends
    {
      var now: int := *;
      var fate := Meet();
      if Applied(fate) {
        messages.SetRecipientFailed(message.id, recipient.phone, now);
      }
      TakeRecord(now, fate);
      ok := fate.ok;
      state := Failed;
    }

    /** SetRecipientSent, with the reference of the last accepted part. */
    method MarkSent(message: Message, recipient: Recipient, ref: int) returns (ok: bool)
      requires Valid() && machine.phase.Recording? && machine.phase.job.loaded == message
      requires machine.phase.outcome == Sent && machine.phase.ref == Some(ref)
      requires UnderWay(machine.phase.job) && recipient == message.recipients[|machine.phase.job.results|]
      modifies this, messages
      ensures Valid() && finished == old(finished) && Onward(old(machine).table, machine.table)
      ensures machine.phase == if ok then Done(old(machine).phase.job, Sent) else Idle
      ensures machine.sends == old(machine).sends
    {
      var now: int := *;
      var fate := Meet();
      if Applied(fate) {
        messages.SetRecipientSent(message.id, recipient.phone, ref, now);
      }
      TakeRecord(now, fate);
      ok := fate.ok;
    }

    /** What processRecipient records of a send. */
    method StoreOutcome(message: Message, recipient: Recipient, accepted: Option<int>) returns (state: State, ok: bool)
      requires Valid() && machine.phase.Recording? && machine.phase.job.loaded == message
      requires machine.phase.outcome == (if accepted.Some? then Sent else Failed) && machine.phase.ref == accepted
      requires UnderWay(machine.phase.job) && recipient == message.recipients[|machine.phase.job.results|]
      modifies this, messages
      ensures Valid() && finished == old(finished) && Onward(old(machine).table, machine.table)
      ensures machine.phase == if ok then Done(old(machine).phase.job, state) else Idle
      ensures state == (if accepted.Some? then Sent else Failed) && machine.sends == old(machine).sends
    {
      Others();
      ghost var between := machine.table;
      if accepted.None? {
        state, ok := FailRecipient(message, recipient);
      } else {
        ok := MarkSent(message, recipient, accepted.value);
        state := Sent;
      }
      OnwardOn(old(machine).table, between, machine.table);
    }

    /** The part of processRecipient that sends: the text is checked before any modem
        traffic, and the outcome recorded. */
    method SendRecipient(message: Message, recipient: Recipient) returns (state: State, ok: bool)
      requires Valid() && machine.phase.Sending? && machine.phase.job.loaded == message
      requires UnderWay(machine.phase.job) && recipient == message.recipients[|machine.phase.job.results|]
      modifies this, messages
      ensures Valid() && finished == old(finished) && Onward(old(machine).table, machine.table)
      ensures machine.phase == if ok then Done(old(machine).phase.job, state) else Idle
      ensures machine.sends == AskedFor(old(machine).sends, At(old(machine).phase.job), message.textual,
                                        fits(message.id), Current(recipient))
      ensures state == if message.textual && fits(message.id) && script(old(step)).accepted.Some? then Sent else Failed
    {
      var fate := Meet();
      if !message.textual || !fits(message.id) {
        Take(Refuse);
        state, ok := FailRecipient(message, recipient);
      } else {
        Take(Send(fate.accepted));
        state, ok := StoreOutcome(message, recipient, fate.accepted);
      }
    }

    /** A recipient that was loaded in another state is left as it is. */
    method LeaveRecipient(message: Message)
      requires Valid() && machine.phase.Working? && machine.phase.job.loaded == message
      requires |machine.phase.job.results| < |message.recipients| && !Open(Loaded(machine.phase.job))
      modifies this
      ensures Valid() && finished == old(finished)
      ensures machine == old(machine).(phase := Done(old(machine).phase.job, Loaded(old(machine).phase.job)))
    {
      Reached();
      JobRow(machine.table, machine.phase.job);
      var fate := Meet();
      Take(Skip);
    }

    /** processRecipient: a recipient that is not open is left as it was loaded. */
    method ProcessRecipient(message: Message, recipient: Recipient) returns (state: State, ok: bool)
      requires Valid() && machine.phase.Working? && machine.phase.job.loaded == message
      requires |machine.phase.job.results| < |message.recipients|
      requires recipient == message.recipients[|machine.phase.job.results|]
      modifies this, messages
      ensures Valid() && finished == old(finished) && Onward(old(machine).table, machine.table)
      ensures machine.phase == if ok then Done(old(machine).phase.job, state) else Idle
      ensures !Open(Current(recipient)) ==>
                && ok && state == Current(recipient)
                && machine == old(machine).(phase := Done(old(machine).phase.job, state))
      ensures ok ==> machine.sends == AskedFor(old(machine).sends, At(old(machine).phase.job), message.textual,
                                               fits(message.id), Current(recipient))
    {
      if !Open(Current(recipient)) {
        LeaveRecipient(message);
        NoneOnward(machine.table);
        return Current(recipient), true;
      }
      ok := MarkProcessed(message, recipient);
      if !ok {
        return Failed, false;
      }
      ghost var before := machine.table;
      Others();
      ghost var between := machine.table;
      state, ok := SendRecipient(message, recipient);
      assert Onward(before, between) && Onward(between, machine.table);
    }

    /** The step of the machine that goes with a dequeue. */
    ghost method TakeDequeue(now: int, at: Option<nat>)
      requires messages.Valid() && Leads(START, past, machine) && AllFollow(past, script)
      requires step == |past| + 1 && script(|past|).ok && machine.phase.Idle? && |machine.table| <= created
      requires NextDue(Expired(machine.table, now), now, at)
      requires messages.messages == Claimed(Expired(machine.table, now), at, now)
      modifies this`machine, this`past, this`finished
      ensures Valid() && finished == old(finished) && machine.sends == old(machine).sends
      ensures machine.table == messages.messages && Closed(old(machine).table) <= Closed(machine.table)
      ensures at.None? ==> machine.phase.Idle?
      ensures at.Some? ==>
                && machine.phase == Loading(at.value) && at.value < |machine.table|
                && Closed(old(machine).table) <= ClosedBut(machine.table, at.value)
      ensures past == old(past) + [OutboxMachine.Dequeue(now, at)]
    {
      DequeueReopensNone(machine.table, now, at);
      Take(OutboxMachine.Dequeue(now, at));
    }

    /** The transaction of DequeueNextPending. */
    method Dequeue() returns (id: Option<ExtId>)
      requires Valid() && machine.phase.Idle?
      modifies this, messages
      ensures Valid() && finished == old(finished) && Closed(old(machine).table) <= Closed(machine.table)
      ensures id.None? ==> machine.phase.Idle?
      ensures id.Some? ==>
                && machine.phase.Loading? && machine.phase.index < |machine.table|
                && machine.table[machine.phase.index].id == id.value
                && Closed(old(machine).table) <= ClosedBut(machine.table, machine.phase.index)
      ensures machine.sends == old(machine).sends
      ensures if script(old(step)).ok then |past| == |old(past)| + 1 && past[|old(past)|].Dequeue?
              else past == old(past)
    {
      if !script(step).ok {
        return None;
      }
      var now: int := *;
      ghost var at;
      id, at := messages.DequeueNextPending(now);
      var fate := Meet();
      TakeDequeue(now, at);
    }

    /** DequeueNextPending: the claim, and the load of what it claimed. */
    method ClaimNext() returns (claimed: Option<Message>)
      requires Valid() && machine.phase.Idle?
      modifies this, messages
      ensures Valid() && finished == old(finished) && Closed(old(machine).table) <= Closed(machine.table)
      ensures claimed.None? ==> machine.phase.Idle?
      ensures claimed.Some? ==>
                && machine.phase.Working?
                && machine.phase.job.loaded == claimed.value && machine.phase.job.results == []
                && machine.phase.job.index < |machine.table|
                && Closed(old(machine).table) <= ClosedBut(machine.table, machine.phase.job.index)
      ensures machine.sends == old(machine).sends
    {
      var id := Dequeue();
      if id.None? {
        return None;
      }
      ghost var before := machine.table;
      Others();
      assert Onward(before, machine.table);
      claimed := LoadClaimed(id.value);
    }

    method LoadClaimed(id: ExtId) returns (loaded: Option<Message>)
      requires Valid() && machine.phase.Loading? && machine.phase.index < |machine.table|
      requires machine.table[machine.phase.index].id == id
      modifies this
      ensures Valid() && finished == old(finished) && machine.table == old(machine).table
      ensures machine.phase == if loaded.Some? then Working(Job(old(machine).phase.index, loaded.value, [])) else Idle
      ensures loaded.Some? == script(old(step)).ok && machine.sends == old(machine).sends
    {
      var fate := Meet();
      if !fate.ok {
        Take(Load(false));
        return None;
      }
      RowIs(messages.messages, machine.phase.index);
      loaded := messages.GetByID(id);
      Take(Load(true));
    }

    /** The next recipient of a pass that began with these tables and sends. */
    method ProcessNext(message: Message, states: seq<State>, ghost start: Table, ghost sends: Tally)
        returns (next: seq<State>, ok: bool)
      requires Valid() && Onward(start, machine.table) && |states| < |message.recipients|
      requires machine.phase.Working? && machine.phase.job.loaded == message && machine.phase.job.results == states
      requires machine.sends == Asked(sends, machine.phase.job.index, message, fits(message.id), |states|)
      modifies this, messages
      ensures Valid() && finished == old(finished) && Onward(start, machine.table)
      ensures machine.phase == if ok then Working(old(machine).phase.job.(results := next)) else Idle
      ensures ok ==>
                && |next| == |states| + 1
                && machine.sends == Asked(sends, old(machine).phase.job.index, message, fits(message.id), |next|)
    {
      ghost var before := machine.table;
      var state;
      state, ok := ProcessRecipient(message, message.recipients[|states|]);
      OnwardOn(start, before, machine.table);
      next := states + [state];
    }

    /** The loop of processPending over the recipients. */
    method ProcessAll(message: Message) returns (states: seq<State>, ok: bool)
      requires Valid() && machine.phase.Working?
      requires machine.phase.job.loaded == message && machine.phase.job.results == []
      modifies this, messages
      ensures Valid() && finished == old(finished) && Onward(old(machine).table, machine.table)
      ensures ok ==> |states| == |message.recipients|
      ensures machine.phase == if ok then Working(old(machine).phase.job.(results := states)) else Idle
      ensures ok ==> machine.sends == Asked(old(machine).sends, old(machine).phase.job.index, message,
                                            fits(message.id), |message.recipients|)
    {
      ghost var start, sends, job := machine.table, machine.sends, machine.phase.job;
      states, ok := [], true;
      NoneOnward(start);
      for k := 0 to |message.recipients|
        invariant Valid() && finished == old(finished) && Onward(start, machine.table)
        invariant ok && |states| == k && machine.phase == Working(job.(results := states))
        invariant machine.sends == Asked(sends, job.index, message, fits(message.id), k)
      {
        states, ok := ProcessNext(message, states, start, sends);
        if !ok {
          return;
        }
      }
    }

    /** The step of the machine that goes with the end of a pass. */
    ghost method TakeFinish(now: int, fate: Fate)
      requires messages.Valid() && Leads(START, past, machine) && AllFollow(past, script)
      requires step == |past| + 1 && fate == script(|past|) && |machine.table| <= created
      requires machine.phase.Working? && |machine.phase.job.results| == |machine.phase.job.loaded.recipients|
      requires messages.messages == Finished(machine.table, machine.phase.job, now, Applied(fate))
      modifies this`machine, this`past, this`finished
      ensures Valid() && machine.phase.Idle? && machine.sends == old(machine).sends
      ensures finished == old(finished) + if Applied(fate) then 1 else 0
      ensures Closes(old(machine).table, old(machine).phase.job.index, machine.table, Applied(fate))
    {
      Reached();
      FinishCloses(machine.table, machine.phase.job, now, Applied(fate));
      Take(Finish(now, Applied(fate)));
    }

    /** The end of processPending: the resolved state is set. */
    method SetFinal(message: Message, states: seq<State>) returns (ok: bool)
      requires Valid() && machine.phase.Working? && machine.phase.job.loaded == message
      requires machine.phase.job.results == states && |states| == |message.recipients|
      modifies this, messages
      ensures Valid() && machine.phase.Idle? && ok == script(old(step)).ok && machine.sends == old(machine).sends
      ensures finished == old(finished) + if Applied(script(old(step))) then 1 else 0
      ensures Closes(old(machine).table, old(machine).phase.job.index, machine.table, Applied(script(old(step))))
    {
      var now: int := *;
      var fate := Meet();
      ok := fate.ok;
      if Applied(fate) {
        messages.SetState(message.id, Resolve(states), now);
      }
      TakeFinish(now, fate);
    }

    /** processPending: one claim, every recipient of the message, and its final state. It
        is true only after a whole pass, which asked the modem once for every recipient it
        loaded open, and leaves one more message closed. */
    method ProcessPending() returns (again: bool, ghost job: Job)
      requires Valid() && machine.phase.Idle?
      modifies this, messages
      ensures Valid() && machine.phase.Idle?
      ensures again ==> finished == old(finished) + 1
      ensures old(finished) <= finished
      ensures finished + Closed(old(machine).table) <= old(finished) + Closed(machine.table)
      ensures again ==> Closed(old(machine).table) < Closed(machine.table)
      ensures again ==> machine.sends == Asked(old(machine).sends, job.index, job.loaded, fits(job.loaded.id),
                                               |job.loaded.recipients|)
    {
      var message := ClaimNext();
      job := if message.Some? then machine.phase.job else EMPTY;
      if message.None? {
        return false, job;
      }
      var states: seq<State>;
      ghost var before := machine.table;
      states, again := ProcessAll(message.value);
      if !again {
        return;
      }
      assert Onward(before, machine.table);
      again := SetFinal(message.value, states);
    }

    /** The drain of Run: it ends, however many messages, up to a fixed number, are created
        meanwhile, as every whole pass leaves one more that cannot be claimed again. */
    method Drain()
      requires Valid() && machine.phase.Idle?
      modifies this, messages
      ensures Valid() && machine.phase.Idle?
      ensures finished + Closed(old(machine).table) <= old(finished) + Closed(machine.table)
    {
      var again := true;
      while again
        invariant Valid() && machine.phase.Idle?
        invariant finished + Closed(old(machine).table) <= old(finished) + Closed(machine.table)
        decreases created - Closed(machine.table), again
      {
        ghost var job;
        again, job := ProcessPending();
        var cancelled: bool := *;
        if cancelled {
          return;
        }
      }
    }

    /** The step of the machine that goes with an applied report. */
    ghost method TakeReport(report: Label, id: ExtId)
      requires messages.Valid() && Leads(START, past, machine) && AllFollow(past, script)
      requires step == |past| + 1 && script(|past|).ok && |machine.table| <= created
      requires machine.phase.Idle? && Applies(machine.table, report, messages.messages)
      requires report.state.Delivered? || report.state.Failed?
      requires report.place.message < |machine.table| && machine.table[report.place.message].id == id
      modifies this`machine, this`past, this`finished
      ensures Valid() && finished == old(finished) && Took(old(past), [report], past)
      ensures !Oldest(old(machine).table, report.ref, report.phone, None)
      ensures Applies(old(machine).table, report, machine.table)
      ensures machine.phase == Reloading(report.place.message) && report.place.message < |machine.table|
      ensures machine.table[report.place.message].id == id
    {
      OldestAwaits(machine.table, report.ref, report.phone, report.place);
      Take(report);
    }

    /** The first statement of handleDeliveryReport: the report is applied to the oldest
        recipient that awaits it. */
    method ApplyReport(ref: int, phone: string, state: State) returns (id: Option<ExtId>, ghost report: Label)
      requires Valid() && machine.phase.Idle? && (state.Delivered? || state.Failed?)
      modifies this, messages
      ensures Valid() && finished == old(finished)
      ensures id.None? ==> machine == old(machine) && past == old(past)
      ensures id.None? <==> !script(old(step)).ok || Oldest(old(machine).table, ref, phone, None)
      ensures id.Some? ==>
                && Reports(report, ref, phone, state) && Applies(old(machine).table, report, machine.table)
                && Took(old(past), [report], past)
                && machine.phase == Reloading(report.place.message) && report.place.message < |machine.table|
                && machine.table[report.place.message].id == id.value
    {
      report := Stop;
      if !script(step).ok {
        return None, report;
      }
      var now: int := *;
      ghost var at;
      id, at := messages.SetRecipientByRef(ref, phone, state, now);
      if id.Some? {
        report := Report(ref, phone, state, at.value, now);
        var fate := Meet();
        TakeReport(report, id.value);
      }
    }

    method StatesOf(message: Message) returns (states: seq<State>)
      ensures states == Currents(message.recipients)
    {
      states := [];
      for k := 0 to |message.recipients|
        invariant |states| == k
        invariant forall j :: 0 <= j < k ==> states[j] == Current(message.recipients[j])
      {
        states := states + [Current(message.recipients[k])];
      }
    }

    /** The load of the reported message, and the state its recipients now resolve to. */
    method Rederive(id: ExtId) returns (final: Option<State>, ghost loaded: Option<Message>)
      requires Valid() && machine.phase.Reloading? && machine.phase.index < |machine.table|
      requires machine.table[machine.phase.index].id == id
      modifies this
      ensures Valid() && finished == old(finished) && machine.table == old(machine).table
      ensures machine.phase == if final.Some? then Rederiving(old(machine).phase.index, final.value) else Idle
      ensures loaded == if script(old(step)).ok then Some(old(machine).table[old(machine).phase.index]) else None
      ensures final == ToStore(loaded)
      ensures Took(old(past), [Reload(loaded.Some?)], past)
    {
      var fate := Meet();
      if !fate.ok {
        Take(Reload(false));
        return None, None;
      }
      RowIs(messages.messages, machine.phase.index);
      var message := messages.GetByID(id);
      loaded := message;
      var states := StatesOf(message.value);
      final := if Resolve(states) != message.value.state then Some(Resolve(states)) else None;
      Take(Reload(true));
    }

    /** The load of the reported message, after whatever API handlers did to it. */
    method ReloadReported(id: ExtId, ghost i: nat) returns (final: Option<State>, ghost loaded: Option<Message>)
      requires Valid() && machine.phase == Reloading(i) && i < |machine.table| && machine.table[i].id == id
      modifies this, messages
      ensures Valid() && finished == old(finished) && Took(old(past), [Reload(loaded.Some?)], past)
      ensures final == ToStore(loaded) && machine.phase == if final.Some? then Rederiving(i, final.value) else Idle
      ensures i < |machine.table| && machine.table[i].id == id
      ensures loaded.Some? ==> RowGrows(old(machine).table[i], loaded.value)
    {
      ghost var before := machine.table;
      Others();
      assert Onward(before, machine.table) && TableGrows(before, machine.table);
      final, loaded := Rederive(id);
    }

    /** The rest of handleDeliveryReport: the reported message is re-derived. */
    method RederiveAndStore(id: ExtId, ghost i: nat) returns (ghost turn: seq<Label>, ghost loaded: Option<Message>)
      requires Valid() && machine.phase == Reloading(i) && i < |machine.table| && machine.table[i].id == id
      modifies this, messages
      ensures Valid() && machine.phase.Idle? && finished == old(finished)
      ensures Took(old(past), turn, past)
      ensures loaded.Some? ==> RowGrows(old(machine).table[i], loaded.value)
      ensures Rederives(turn, loaded, machine.table, i)
    {
      var final;
      final, loaded := ReloadReported(id, i);
      ghost var stored := None;
      if final.Some? {
        ghost var last;
        last := StoreFinal(id, final.value);
        stored := Some(last);
      }
      turn := [Reload(loaded.Some?)] + if stored.Some? then [stored.value] else [];
      TurnRederives(loaded, stored, machine.table, i);
    }

    /** handleDeliveryReport: nothing while the service centre retries, and nothing for a
        report that no recipient awaits. Any other is applied, and the message re-derived. */
    method HandleDeliveryReport(ref: int, phone: string, status: bv8)
        returns (ghost turn: seq<Label>, ghost loaded: Option<Message>)
      requires Valid() && machine.phase.Idle?
      modifies this, messages
      ensures Valid() && machine.phase.Idle? && finished == old(finished)
      ensures Took(old(past), turn, past)
      ensures turn == [] ==> machine == old(machine) && past == old(past)
      ensures turn == [] <==>
                0x20 <= status < 0x40 || !script(old(step)).ok || Oldest(old(machine).table, ref, phone, None)
      ensures turn != [] ==>
                Handled(old(machine).table, turn, loaded, machine.table, ref, phone,
                        if status < 0x20 then Delivered else Failed)
    {
      turn, loaded := [], None;
      TookNothing(past);
      var state := ReportState(status);
      if state.None? {
        return;
      }
      var id;
      ghost var report;
      id, report := ApplyReport(ref, phone, state.value);
      if id.None? {
        return;
      }
      ghost var mid, after, rest := machine.table, past, [];
      rest, loaded := RederiveAndStore(id.value, report.place.message);
      turn := [report] + rest;
      TookOn(old(past), report, after, rest, past);
      TurnHandled(old(machine).table, report, mid, rest, loaded, machine.table, ref, phone, state.value);
    }

    /** The step of the machine that goes with the store of a re-derived state. */
    ghost method TakeRederive(id: ExtId, now: int, fate: Fate)
      requires messages.Valid() && Leads(START, past, machine) && AllFollow(past, script)
      requires step == |past| + 1 && fate == script(|past|) && |machine.table| <= created
      requires machine.phase.Rederiving? && machine.phase.index < |machine.table|
      requires Row(machine.table, id) == Some(machine.phase.index)
      requires messages.messages ==
                 if Applied(fate) then AfterSetState(machine.table, id, machine.phase.final, now) else machine.table
      modifies this`machine, this`past, this`finished
      ensures Valid() && machine.phase.Idle? && finished == old(finished)
      ensures Took(old(past), [OutboxMachine.Rederive(now, Applied(fate))], past)
      ensures old(machine).phase.index < |machine.table|
      ensures Applied(fate) ==> machine.table[old(machine).phase.index].state == old(machine).phase.final
    {
      RederiveDoes(machine, id, now, Applied(fate));
      Take(OutboxMachine.Rederive(now, Applied(fate)));
    }

    /** The end of handleDeliveryReport: a state that differs is stored. */
    method StoreFinal(id: ExtId, final: State) returns (ghost stored: Label)
      requires Valid() && machine.phase.Rederiving? && machine.phase.final == final
      requires machine.phase.index < |machine.table| && machine.table[machine.phase.index].id == id
      modifies this, messages
      ensures Valid() && machine.phase.Idle? && finished == old(finished)
      ensures Took(old(past), [stored], past) && stored.Rederive?
      ensures old(machine).phase.index < |machine.table|
      ensures stored.applied ==> machine.table[old(machine).phase.index].state == final
    {
      ghost var before := machine.table;
      Others();
      assert Onward(before, machine.table);
      var now: int := *;
      var fate := Meet();
      RowIs(messages.messages, machine.phase.index);
      if Applied(fate) {
        messages.SetState(id, final, now);
      }
      stored := OutboxMachine.Rederive(now, Applied(fate));
      TakeRederive(id, now, fate);
    }

    /** Run: one turn of its select, a report or a drain. */
    method Turn()
      requires Valid() && machine.phase.Idle?
      modifies this, messages
      ensures Valid() && machine.phase.Idle?
    {
      var reported: bool := *;
      if reported {
        var ref: int, phone: string, status: bv8 := *, *, *;
        ghost var turn, loaded;
        turn, loaded := HandleDeliveryReport(ref, phone, status);
      } else {
        Drain();
      }
    }
  }
}
