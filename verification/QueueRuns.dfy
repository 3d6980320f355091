/**
  The single queue worker over whole runs (internal/webhooks/service.go). Items are
  enqueued by other goroutines between any two of its statements, any statement may
  fail, and the process may stop and restart anywhere.
 */
module QueueRuns {
  import opened Options
  import opened WebhookQueue

  datatype Config = Config(retryCount: nat, baseDelay: int, stuckTimeout: int, retention: int, batchSize: int)

  /** No delay the worker computes exceeds 63 bits. */
  predicate Sane(c: Config) {
    0 < c.retryCount ==> 2 * (c.baseDelay * Pow2(c.retryCount - 1)) < INT64
  }

  datatype Phase =
    | Idle
    | Selecting(now: int)
    | Cleaning(now: int)
    | Working(now: int, rest: seq<Item>)
    | Delivering(now: int, item: Item, rest: seq<Item>)
    | Recording(now: int, item: Item, rest: seq<Item>, error: Option<Failure>)

  /** The table, the worker, and the history of every item: how often it was posted, how
      often the outcome could not be recorded, and whether it ever became terminal. */
  datatype Machine = Machine(
    rows: Rows,
    phase: Phase,
    clock: int,
    posts: map<ItemId, nat>,
    unrecorded: map<ItemId, nat>,
    finished: set<ItemId>)

  datatype Label =
    | Enqueue(id: ItemId, at: int)
    | Recover(now: int, applied: bool)
    | Select(batch: seq<Item>)
    | SelectError
    | Clean(applied: bool)
    | Claim(applied: bool, ok: bool)
    | Deliver(error: Option<Failure>)
    | Record(at: int, applied: bool)
    | Restart

  predicate Enabled(c: Config, m: Machine, l: Label) {
    match l
    case Enqueue(id, _) => id !in m.posts
    case Recover(now, _) => m.phase.Idle? && m.clock <= now
    case Select(batch) => m.phase.Selecting? && DueBatch(m.rows, m.phase.now, c.batchSize, batch)
    case SelectError => m.phase.Selecting?
    case Clean(_) => m.phase.Cleaning?
    case Claim(applied, ok) => m.phase.Working? && m.phase.rest != [] && (ok ==> applied)
    case Deliver(_) => m.phase.Delivering?
    case Record(at, _) => m.phase.Recording? && m.clock <= at
    case Restart => true
  }

  /** What the worker asks the table to record once an attempt is over. */
  function Verdict(c: Config, rows: Rows, item: Item, error: Option<Failure>, at: int): Rows {
    if error.None? then Marked(rows, item.id, Completed)
    else if item.row.retryCount < c.retryCount && item.row.status != PermanentlyFailed then
      MarkedFailed(rows, item.id, at + RetryDelay(c.baseDelay, item.row.retryCount), error.value)
    else GivenUp(rows, item.id, error.value)
  }

  predicate Final(c: Config, item: Item, error: Option<Failure>) {
    error.None? || item.row.retryCount >= c.retryCount || item.row.status.PermanentlyFailed?
  }

  function Next(now: int, rest: seq<Item>): Phase {
    if rest == [] then Idle else Working(now, rest)
  }

  function Bump(counts: map<ItemId, nat>, id: ItemId): map<ItemId, nat> {
    counts[id := (if id in counts then counts[id] else 0) + 1]
  }

  function Do(c: Config, m: Machine, l: Label): Machine
    requires Enabled(c, m, l)
  {
    match l
    case Enqueue(id, at) =>
      m.(rows := m.rows[id := Row(0, Pending, at, at, None)],
         posts := m.posts[id := 0], unrecorded := m.unrecorded[id := 0])
    case Recover(now, applied) =>
      m.(rows := if applied then Recovered(m.rows, now - c.stuckTimeout) else m.rows,
         phase := Selecting(now), clock := now)
    case Select(batch) =>
      m.(phase := if batch == [] then Cleaning(m.phase.now) else Working(m.phase.now, batch))
    case SelectError => m.(phase := Idle)
    case Clean(applied) =>
      m.(rows := if applied then Cleaned(m.rows, m.phase.now - c.retention) else m.rows, phase := Idle)
    case Claim(applied, ok) =>
      var item, rest := m.phase.rest[0], m.phase.rest[1..];
      m.(rows := if applied then Marked(m.rows, item.id, Processing) else m.rows,
         phase := if ok then Delivering(m.phase.now, item, rest) else Next(m.phase.now, rest))
    case Deliver(error) =>
      m.(phase := Recording(m.phase.now, m.phase.item, m.phase.rest, error),
         posts := Bump(m.posts, m.phase.item.id))
    case Record(at, applied) =>
      var item := m.phase.item;
      m.(rows := if applied then Verdict(c, m.rows, item, m.phase.error, at) else m.rows,
         phase := Next(m.phase.now, m.phase.rest), clock := at,
         unrecorded := if applied then m.unrecorded else Bump(m.unrecorded, item.id),
         finished := if applied && Final(c, item, m.phase.error) then m.finished + {item.id} else m.finished)
    case Restart =>
      m.(phase := Idle, unrecorded := if m.phase.Recording? then Bump(m.unrecorded, m.phase.item.id) else m.unrecorded)
  }

  function Start(clock: int): Machine {
    Machine(map[], Idle, clock, map[], map[], {})
  }

  /** The labels lead from one machine to another. */
  ghost predicate Leads(c: Config, m: Machine, labels: seq<Label>, n: Machine)
    decreases |labels|
  {
    if labels == [] then m == n
    else Enabled(c, m, labels[0]) && Leads(c, Do(c, m, labels[0]), labels[1..], n)
  }

  // ----- the invariant -----

  /** A row is retried at most so often, and given up only after all its retries. It bears
      an error if and only if an attempt failed. */
  predicate Counted(c: Config, row: Row) {
    && 0 <= row.retryCount <= c.retryCount
    && (row.status.PermanentlyFailed? ==> row.retryCount == c.retryCount)
    && (row.lastError.Some? <==> 0 < row.retryCount || row.status.PermanentlyFailed?)
  }

  predicate AllCounted(c: Config, rows: Rows) {
    forall id :: id in rows ==> Counted(c, rows[id])
  }

  /** The back-off promised to a row that failed n times: base * (1 + 2 + ... + 2^(n-1)). */
  predicate BackedOff(c: Config, row: Row) {
    0 <= row.retryCount && row.nextAttempt >= row.createdAt + c.baseDelay * (Pow2(row.retryCount) - 1)
  }

  /** A row is given up only after all those delays. */
  predicate GivenUpLate(c: Config, row: Row, clock: int) {
    row.status.PermanentlyFailed? ==> clock >= row.createdAt + c.baseDelay * (Pow2(c.retryCount) - 1)
  }

  predicate AllBackedOff(c: Config, m: Machine) {
    forall id :: id in m.rows ==> BackedOff(c, m.rows[id]) && GivenUpLate(c, m.rows[id], m.clock)
  }

  /** The rows still to be claimed are as the batch saw them. */
  predicate FreshItems(rows: Rows, rest: seq<Item>, now: int) {
    && DistinctItems(rest)
    && forall i :: 0 <= i < |rest| ==>
         rest[i].id in rows && rows[rest[i].id] == rest[i].row && Due(rest[i].row, now)
  }

  /** The row in hand is as the batch saw it, but for its status. */
  predicate InHand(rows: Rows, item: Item, rest: seq<Item>, now: int) {
    && item.id in rows && rows[item.id] == item.row.(status := Processing) && Due(item.row, now)
    && !Listed(rest, item.id)
  }

  predicate PhaseOk(m: Machine) {
    match m.phase
    case Idle => true
    case Selecting(now) => now <= m.clock
    case Cleaning(now) => now <= m.clock
    case Working(now, rest) => now <= m.clock && FreshItems(m.rows, rest, now)
    case Delivering(now, item, rest) =>
      now <= m.clock && FreshItems(m.rows, rest, now) && InHand(m.rows, item, rest, now)
    case Recording(now, item, rest, _) =>
      now <= m.clock && FreshItems(m.rows, rest, now) && InHand(m.rows, item, rest, now)
  }

  function One(b: bool): nat {
    if b then 1 else 0
  }

  /** Every post of an item is one of its failures, its final outcome, an attempt whose
      outcome was lost, or the attempt under way. */
  predicate PostsExplained(c: Config, m: Machine, id: ItemId) {
    && id in m.posts && id in m.unrecorded
    && m.posts[id] <= c.retryCount + 1 + m.unrecorded[id]
    && (id in m.rows ==>
          && m.posts[id] == m.rows[id].retryCount + m.unrecorded[id] + One(Terminal(m.rows[id].status))
                            + One(m.phase.Recording? && m.phase.item.id == id)
          && (Terminal(m.rows[id].status) <==> id in m.finished))
  }

  predicate AllExplained(c: Config, m: Machine) {
    && m.rows.Keys <= m.posts.Keys && m.finished <= m.posts.Keys
    && (forall id :: id in m.posts ==> PostsExplained(c, m, id))
    && (forall id :: id in m.posts && id !in m.rows ==> id in m.finished)
  }

  /** What holds whatever the delays are. */
  predicate Safe(c: Config, m: Machine) {
    AllCounted(c, m.rows) && PhaseOk(m) && AllExplained(c, m)
  }

  // ----- every step keeps it -----

  lemma Pow2Step(base: int, n: nat)
    ensures base * (Pow2(n + 1) - 1) == base * (Pow2(n) - 1) + base * Pow2(n)
  {
  }

  lemma MulGrows(base: int, p: int, q: int)
    requires 0 <= base && p <= q
    ensures base * p <= base * q
  {
  }

  lemma MulSign(base: int, p: int)
    requires 0 < p
    ensures base * p < 0 <==> base < 0
  {
  }

  /** Only a delay above 63 bits is shortened. */
  lemma WrapLengthens(x: int)
    requires 2 * x < INT64
    ensures x <= Wrap64(x)
  {
  }

  lemma DelayLasts(c: Config, n: nat)
    requires Sane(c) && n < c.retryCount
    ensures c.baseDelay * Pow2(n) <= RetryDelay(c.baseDelay, n)
  {
    if 0 <= c.baseDelay {
      Pow2Grows(n, c.retryCount - 1);
      MulGrows(c.baseDelay, Pow2(n), Pow2(c.retryCount - 1));
    } else {
      MulSign(c.baseDelay, Pow2(n));
    }
    WrapLengthens(c.baseDelay * Pow2(n));
  }

  /** One failure pushes the next attempt past the promised back-off of one more failure. */
  lemma FailureBacksOff(c: Config, row: Row, at: int, error: Option<Failure>)
    requires Sane(c) && BackedOff(c, row) && row.nextAttempt <= at && row.retryCount < c.retryCount
    ensures BackedOff(c, row.(status := Failed, retryCount := row.retryCount + 1,
                              nextAttempt := at + RetryDelay(c.baseDelay, row.retryCount), lastError := error))
  {
    DelayLasts(c, row.retryCount);
    Pow2Step(c.baseDelay, row.retryCount);
  }

  lemma VerdictBacksOff(c: Config, rows: Rows, item: Item, error: Option<Failure>, at: int)
    requires Sane(c) && item.id in rows && rows[item.id] == item.row.(status := Processing)
    requires Counted(c, rows[item.id]) && BackedOff(c, rows[item.id]) && Due(item.row, at)
    ensures var rows' := Verdict(c, rows, item, error, at);
            && rows'.Keys == rows.Keys
            && BackedOff(c, rows'[item.id]) && GivenUpLate(c, rows'[item.id], at)
            && forall id :: id in rows && id != item.id ==> rows'[id] == rows[id]
  {
    if item.row.retryCount < c.retryCount {
      FailureBacksOff(c, rows[item.id], at, error);
    }
  }

  lemma RecordBacksOff(c: Config, m: Machine, at: int, applied: bool)
    requires Sane(c) && AllBackedOff(c, m) && Safe(c, m) && Enabled(c, m, Record(at, applied))
    ensures AllBackedOff(c, Do(c, m, Record(at, applied)))
  {
    assert Counted(c, m.rows[m.phase.item.id]);
    VerdictBacksOff(c, m.rows, m.phase.item, m.phase.error, at);
  }

  lemma StepBacksOff(c: Config, m: Machine, l: Label)
    requires Sane(c) && AllBackedOff(c, m) && Safe(c, m) && Enabled(c, m, l)
    ensures AllBackedOff(c, Do(c, m, l))
  {
    if l.Record? {
      RecordBacksOff(c, m, l.at, l.applied);
    }
  }

  lemma FreshTail(rows: Rows, rest: seq<Item>, now: int)
    requires FreshItems(rows, rest, now) && rest != []
    ensures FreshItems(rows, rest[1..], now) && !Listed(rest[1..], rest[0].id)
  {
  }

  lemma FreshUpdate(rows: Rows, rest: seq<Item>, now: int, id: ItemId, row: Row)
    requires FreshItems(rows, rest, now) && !Listed(rest, id)
    ensures FreshItems(rows[id := row], rest, now)
  {
  }

  lemma StepPhase(c: Config, m: Machine, l: Label)
    requires PhaseOk(m) && AllExplained(c, m) && Enabled(c, m, l)
    ensures PhaseOk(Do(c, m, l))
  {
    match l
    case Enqueue(id, at) =>
      assert id !in m.rows;
      if m.phase.Working? || m.phase.Delivering? || m.phase.Recording? {
        FreshUpdate(m.rows, m.phase.rest, m.phase.now, id, Row(0, Pending, at, at, None));
      }
    case Claim(applied, ok) =>
      FreshTail(m.rows, m.phase.rest, m.phase.now);
      FreshUpdate(m.rows, m.phase.rest[1..], m.phase.now, m.phase.rest[0].id,
                  m.rows[m.phase.rest[0].id].(status := Processing));
    case Record(at, applied) =>
      var id := m.phase.item.id;
      FreshUpdate(m.rows, m.phase.rest, m.phase.now, id, Verdict(c, m.rows, m.phase.item, m.phase.error, at)[id]);
    case _ =>
  }

  lemma ClaimExplained(c: Config, m: Machine, applied: bool, ok: bool)
    requires Safe(c, m) && Enabled(c, m, Claim(applied, ok))
    ensures AllExplained(c, Do(c, m, Claim(applied, ok)))
  {
  }

  lemma DeliverExplained(c: Config, m: Machine, error: Option<Failure>)
    requires Safe(c, m) && Enabled(c, m, Deliver(error))
    ensures AllExplained(c, Do(c, m, Deliver(error)))
  {
  }

  lemma RecordExplained(c: Config, m: Machine, at: int, applied: bool)
    requires Safe(c, m) && Enabled(c, m, Record(at, applied))
    ensures AllExplained(c, Do(c, m, Record(at, applied)))
  {
  }

  lemma RestartExplained(c: Config, m: Machine)
    requires Safe(c, m)
    ensures AllExplained(c, Do(c, m, Restart))
  {
  }

  lemma TableStepExplained(c: Config, m: Machine, l: Label)
    requires Safe(c, m) && Enabled(c, m, l)
    requires l.Enqueue? || l.Recover? || l.Select? || l.SelectError? || l.Clean?
    ensures AllExplained(c, Do(c, m, l))
  {
  }

  lemma StepCounted(c: Config, m: Machine, l: Label)
    requires AllCounted(c, m.rows) && PhaseOk(m) && Enabled(c, m, l)
    ensures AllCounted(c, Do(c, m, l).rows)
  {
    if l.Record? {
      assert Counted(c, m.rows[m.phase.item.id]);
    }
  }

  lemma StepSafe(c: Config, m: Machine, l: Label)
    requires Safe(c, m) && Enabled(c, m, l)
    ensures Safe(c, Do(c, m, l))
  {
    StepCounted(c, m, l);
    StepPhase(c, m, l);
    match l
    case Claim(applied, ok) => ClaimExplained(c, m, applied, ok);
    case Deliver(error) => DeliverExplained(c, m, error);
    case Record(at, applied) => RecordExplained(c, m, at, applied);
    case Restart => RestartExplained(c, m);
    case _ => TableStepExplained(c, m, l);
  }

  lemma {:induction false} LeadsSafe(c: Config, m: Machine, labels: seq<Label>, n: Machine)
    requires Safe(c, m) && Leads(c, m, labels, n)
    ensures Safe(c, n)
    decreases |labels|
  {
    if labels != [] {
      StepSafe(c, m, labels[0]);
      LeadsSafe(c, Do(c, m, labels[0]), labels[1..], n);
    }
  }

  lemma {:induction false} LeadsBacksOff(c: Config, m: Machine, labels: seq<Label>, n: Machine)
    requires Sane(c) && Safe(c, m) && AllBackedOff(c, m) && Leads(c, m, labels, n)
    ensures AllBackedOff(c, n)
    decreases |labels|
  {
    if labels != [] {
      StepSafe(c, m, labels[0]);
      StepBacksOff(c, m, labels[0]);
      LeadsBacksOff(c, Do(c, m, labels[0]), labels[1..], n);
    }
  }

  // ----- main results: the back-off -----

  /** BACK-OFF. In every run, whatever fails, is recovered or restarts, a row that failed n
      times keeps n <= RetryCount and waits at least base*(2^n - 1) from its creation; so
      none is given up before base*(2^RetryCount - 1) have passed since its creation. */
  lemma BackOffKept(c: Config, clock: int, labels: seq<Label>, n: Machine, id: ItemId)
    requires Sane(c) && Leads(c, Start(clock), labels, n) && id in n.rows
    ensures 0 <= n.rows[id].retryCount <= c.retryCount
    ensures n.rows[id].nextAttempt >= n.rows[id].createdAt + c.baseDelay * (Pow2(n.rows[id].retryCount) - 1)
    ensures n.rows[id].status.PermanentlyFailed? ==>
              n.clock >= n.rows[id].createdAt + c.baseDelay * (Pow2(c.retryCount) - 1)
  {
    LeadsSafe(c, Start(clock), labels, n);
    LeadsBacksOff(c, Start(clock), labels, n);
    assert BackedOff(c, n.rows[id]) && Counted(c, n.rows[id]);
  }

  ghost predicate AlwaysBackedOff(c: Config) {
    forall clock, labels, n, id ::
      Leads(c, Start(clock), labels, n) && id in n.rows ==> BackedOff(c, n.rows[id])
  }

  /** The condition is exact, for every configuration under which anything is ever selected:
      with a delay that exceeds 63 bits, a row that fails as soon as it is due is due again
      before the back-off promised to it. */
  lemma BackOffKeptIffSane(c: Config)
    ensures AlwaysBackedOff(c) <==> Sane(c) || c.batchSize <= 0
  {
    if Sane(c) || c.batchSize <= 0 {
      forall clock, labels, n, id | Leads(c, Start(clock), labels, n) && id in n.rows
        ensures BackedOff(c, n.rows[id])
      {
        if Sane(c) {
          BackOffKept(c, clock, labels, n, id);
        } else {
          LeadsNowhere(c, Start(clock), labels, n);
          assert New(n.rows[id]);
        }
      }
    } else {
      var labels, n := OverflowBreaksBackOff(c);
    }
  }

  predicate New(row: Row) {
    row.retryCount == 0 && row.nextAttempt == row.createdAt
  }

  /** Nothing was ever attempted. */
  predicate Resting(m: Machine) {
    && (m.phase.Idle? || m.phase.Selecting? || m.phase.Cleaning?)
    && forall id :: id in m.rows ==> New(m.rows[id])
  }

  lemma {:induction false} LeadsNowhere(c: Config, m: Machine, labels: seq<Label>, n: Machine)
    requires c.batchSize <= 0 && Resting(m) && Leads(c, m, labels, n)
    ensures Resting(n)
    decreases |labels|
  {
    if labels != [] {
      LeadsNowhere(c, Do(c, m, labels[0]), labels[1..], n);
    }
  }

  const ONLY := ItemId("only")
  const FAILURE := Failure("")

  /** The one row of a table, tightly backed off, before its next attempt. */
  predicate Waiting(c: Config, m: Machine) {
    && m.rows.Keys == {ONLY} && m.phase.Idle? && m.clock <= m.rows[ONLY].nextAttempt
    && (m.rows[ONLY].status.Pending? || m.rows[ONLY].status.Failed?)
    && 0 <= m.rows[ONLY].retryCount < c.retryCount
  }

  /** The row's own post and failure, once it is selected. */
  lemma FailSelected(c: Config, m: Machine, now: int, row: Row) returns (labels: seq<Label>, n: Machine)
    requires m.rows == map[ONLY := row] && m.phase == Working(now, [Item(ONLY, row)]) && m.clock == now
    requires !row.status.PermanentlyFailed? && row.retryCount < c.retryCount
    ensures Leads(c, m, labels, n) && n.phase.Idle? && n.clock == now
    ensures n.rows == map[ONLY := Row(row.retryCount + 1, Failed, row.createdAt,
                                      now + RetryDelay(c.baseDelay, row.retryCount), Some(FAILURE))]
  {
    var m1 := Do(c, m, Claim(true, true));
    var m2 := Do(c, m1, Deliver(Some(FAILURE)));
    n := Do(c, m2, Record(now, true));
    assert Leads(c, n, [], n);
    LeadsCons(c, m2, Record(now, true), [], n);
    LeadsCons(c, m1, Deliver(Some(FAILURE)), [Record(now, true)], n);
    labels := [Claim(true, true)] + ([Deliver(Some(FAILURE))] + ([Record(now, true)] + []));
    assert [Record(now, true)] + [] == [Record(now, true)];
    LeadsCons(c, m, Claim(true, true), [Deliver(Some(FAILURE))] + [Record(now, true)], n);
  }

  /** An attempt made as soon as the row is due, and failed at once. */
  lemma FailAtOnce(c: Config, m: Machine) returns (labels: seq<Label>, n: Machine)
    requires Waiting(c, m) && 0 < c.batchSize
    ensures Leads(c, m, labels, n) && n.phase.Idle? && n.clock == m.rows[ONLY].nextAttempt
    ensures var row := m.rows[ONLY];
            n.rows == map[ONLY := Row(row.retryCount + 1, Failed, row.createdAt,
                                      row.nextAttempt + RetryDelay(c.baseDelay, row.retryCount), Some(FAILURE))]
  {
    var row := m.rows[ONLY];
    var now, batch := row.nextAttempt, [Item(ONLY, row)];
    var m1 := Do(c, m, Recover(now, false));
    assert Listed(batch, ONLY) by {
      assert batch[0].id == ONLY;
    }
    assert m1.rows == map[ONLY := row];
    var rest;
    rest, n := FailSelected(c, Do(c, m1, Select(batch)), now, row);
    LeadsCons(c, m1, Select(batch), rest, n);
    LeadsCons(c, m, Recover(now, false), [Select(batch)] + rest, n);
    labels := [Recover(now, false)] + ([Select(batch)] + rest);
  }

  lemma LeadsCons(c: Config, m: Machine, l: Label, labels: seq<Label>, n: Machine)
    requires Enabled(c, m, l) && Leads(c, Do(c, m, l), labels, n)
    ensures Leads(c, m, [l] + labels, n)
  {
    assert ([l] + labels)[1..] == labels;
  }

  lemma {:induction false} LeadsConcat(c: Config, m: Machine, a: seq<Label>, k: Machine, b: seq<Label>, n: Machine)
    requires Leads(c, m, a, k) && Leads(c, k, b, n)
    ensures Leads(c, m, a + b, n)
    decreases |a|
  {
    if a == [] {
      assert a + b == b;
    } else {
      LeadsConcat(c, Do(c, m, a[0]), a[1..], k, b, n);
      assert (a + b)[1..] == a[1..] + b;
    }
  }

  /** Wrapping only ever shortens a delay. */
  lemma WrapShortens(base: int, n: nat)
    requires 0 <= base
    ensures RetryDelay(base, n) <= base * Pow2(n)
  {
  }

  /** A row that is tightly backed off stays so by an exact delay, and by no other. */
  lemma TightOrBroken(base: int, n: nat, next: int, created: int)
    requires 0 <= base && next == created + base * (Pow2(n) - 1)
    ensures next + RetryDelay(base, n) <= created + base * (Pow2(n + 1) - 1)
    ensures RetryDelay(base, n) == base * Pow2(n) <==>
              next + RetryDelay(base, n) == created + base * (Pow2(n + 1) - 1)
  {
    WrapShortens(base, n);
    Pow2Step(base, n);
  }

  /** Failing at once again and again, the row gets to a delay that wraps. */
  lemma {:induction false} FailToOverflow(c: Config, m: Machine) returns (labels: seq<Label>, n: Machine)
    requires Waiting(c, m) && 0 < c.batchSize && !Sane(c)
    requires m.rows[ONLY].nextAttempt == m.rows[ONLY].createdAt + c.baseDelay * (Pow2(m.rows[ONLY].retryCount) - 1)
    ensures Leads(c, m, labels, n) && ONLY in n.rows && !BackedOff(c, n.rows[ONLY])
    decreases c.retryCount - m.rows[ONLY].retryCount
  {
    var row := m.rows[ONLY];
    labels, n := FailAtOnce(c, m);
    MulSign(c.baseDelay, Pow2(c.retryCount - 1));
    TightOrBroken(c.baseDelay, row.retryCount, row.nextAttempt, row.createdAt);
    RetryDelayExact(c.baseDelay, c.retryCount - 1);
    if RetryDelay(c.baseDelay, row.retryCount) == c.baseDelay * Pow2(row.retryCount) {
      var rest, last := FailToOverflow(c, n);
      LeadsConcat(c, m, labels, n, rest, last);
      labels, n := labels + rest, last;
    }
  }

  /** Whatever the configuration, if a delay exceeds 63 bits some run breaks the back-off. */
  lemma OverflowBreaksBackOff(c: Config) returns (labels: seq<Label>, n: Machine)
    requires 0 < c.batchSize && !Sane(c)
    ensures Leads(c, Start(0), labels, n) && ONLY in n.rows && !BackedOff(c, n.rows[ONLY])
  {
    var m := Do(c, Start(0), Enqueue(ONLY, 0));
    var rest;
    rest, n := FailToOverflow(c, m);
    LeadsCons(c, Start(0), Enqueue(ONLY, 0), rest, n);
    labels := [Enqueue(ONLY, 0)] + rest;
  }

  // ----- main results: queue safety, whatever the delays -----

  /** An item is posted at most RetryCount + 1 times, plus once for every attempt whose
      outcome could not be recorded - even after its row is gone. */
  lemma PostsBounded(c: Config, clock: int, labels: seq<Label>, n: Machine, id: ItemId)
    requires Leads(c, Start(clock), labels, n) && id in n.posts
    ensures id in n.unrecorded && n.posts[id] <= c.retryCount + 1 + n.unrecorded[id]
    ensures id in n.rows && Terminal(n.rows[id].status) ==>
              n.posts[id] == n.rows[id].retryCount + 1 + n.unrecorded[id]
  {
    LeadsSafe(c, Start(clock), labels, n);
    assert PostsExplained(c, n, id);
  }

  /** A failed attempt of the item is recorded. */
  predicate RecordsFailure(m: Machine, l: Label, id: ItemId) {
    l.Record? && l.applied && m.phase.Recording? && m.phase.item.id == id && m.phase.error.Some?
  }

  /** The error of the last recorded failure of the item in a run, if there was one. */
  function LastFailure(c: Config, m: Machine, labels: seq<Label>, id: ItemId, before: Option<Failure>): Option<Failure>
    decreases |labels|
  {
    if labels == [] || !Enabled(c, m, labels[0]) then before
    else
      LastFailure(c, Do(c, m, labels[0]), labels[1..], id,
                  if RecordsFailure(m, labels[0], id) then m.phase.error else before)
  }

  /** The row bears this error, or there was no row yet and there is none. */
  predicate Bears(m: Machine, id: ItemId, error: Option<Failure>) {
    (id in m.rows ==> m.rows[id].lastError == error) && (id !in m.posts ==> error == None)
  }

  lemma StepBears(c: Config, m: Machine, l: Label, id: ItemId, before: Option<Failure>)
    requires Safe(c, m) && Enabled(c, m, l) && Bears(m, id, before)
    ensures Bears(Do(c, m, l), id, if RecordsFailure(m, l, id) then m.phase.error else before)
  {
  }

  lemma {:induction false} LastFailureStands(
      c: Config, m: Machine, labels: seq<Label>, n: Machine, id: ItemId, before: Option<Failure>)
    requires Safe(c, m) && Leads(c, m, labels, n) && Bears(m, id, before)
    ensures id in n.rows ==> n.rows[id].lastError == LastFailure(c, m, labels, id, before)
    decreases |labels|
  {
    if labels != [] {
      StepSafe(c, m, labels[0]);
      StepBears(c, m, labels[0], id, before);
      LastFailureStands(c, Do(c, m, labels[0]), labels[1..], n, id,
                        if RecordsFailure(m, labels[0], id) then m.phase.error else before);
    }
  }

  /** In every run a row bears the error of its last recorded failure, and one at all if and
      only if it was retried or given up. */
  lemma ErrorIsLastRecorded(c: Config, clock: int, labels: seq<Label>, n: Machine, id: ItemId)
    requires Leads(c, Start(clock), labels, n) && id in n.rows
    ensures n.rows[id].lastError == LastFailure(c, Start(clock), labels, id, None)
    ensures n.rows[id].lastError.Some? <==> 0 < n.rows[id].retryCount || n.rows[id].status.PermanentlyFailed?
  {
    LeadsSafe(c, Start(clock), labels, n);
    LastFailureStands(c, Start(clock), labels, n, id, None);
    assert Counted(c, n.rows[id]);
  }

  /** QUEUE SAFETY, although no update but the recovery looks at the status it overwrites:
      a Completed or PermanentlyFailed row never changes; only such rows are ever removed. */
  lemma TerminalIsFinal(c: Config, m: Machine, l: Label, id: ItemId)
    requires Safe(c, m) && Enabled(c, m, l) && id in m.rows
    ensures var n := Do(c, m, l);
            if Terminal(m.rows[id].status) then id in n.rows ==> n.rows[id] == m.rows[id]
            else id in n.rows
  {
  }

  /** A finished row, of an item enqueued before that time. */
  predicate Old(row: Row, before: int) {
    (row.status.Completed? || row.status.PermanentlyFailed?) && row.createdAt < before
  }

  /** The run went through a cleanup that found the row finished and past its retention. */
  ghost predicate CleanedUp(c: Config, m: Machine, labels: seq<Label>, id: ItemId) {
    exists before, at ::
      && before + [Clean(true)] <= labels && Leads(c, m, before, at)
      && at.phase.Cleaning? && id in at.rows && Old(at.rows[id], at.phase.now - c.retention)
  }

  lemma CleanedUpBefore(c: Config, m: Machine, l: Label, labels: seq<Label>, id: ItemId)
    requires Enabled(c, m, l) && CleanedUp(c, Do(c, m, l), labels, id)
    ensures CleanedUp(c, m, [l] + labels, id)
  {
    var before, at :| before + [Clean(true)] <= labels && Leads(c, Do(c, m, l), before, at)
                      && at.phase.Cleaning? && id in at.rows && Old(at.rows[id], at.phase.now - c.retention);
    LeadsCons(c, m, l, before, at);
    assert [l] + before + [Clean(true)] == [l] + (before + [Clean(true)]);
  }

  lemma {:induction false} LeadsGone(c: Config, m: Machine, labels: seq<Label>, n: Machine, id: ItemId)
    requires Safe(c, m) && Leads(c, m, labels, n)
    requires (id in m.rows || id !in m.posts) && id in n.posts && id !in n.rows
    ensures CleanedUp(c, m, labels, id)
    decreases |labels|
  {
    assert labels != [];
    var l := labels[0];
    assert labels == [l] + labels[1..];
    if id in m.rows && id !in Do(c, m, l).rows {
      assert [] + [Clean(true)] <= labels && Leads(c, m, [], m);
    } else {
      StepSafe(c, m, l);
      LeadsGone(c, Do(c, m, l), labels[1..], n, id);
      CleanedUpBefore(c, m, l, labels[1..], id);
    }
  }

  /** RETENTION. In every run an item whose row is gone was removed by a cleanup, at a time
      when it was finished and had been enqueued longer ago than the retention. */
  lemma GoneWasOld(c: Config, clock: int, labels: seq<Label>, n: Machine, id: ItemId)
    requires Leads(c, Start(clock), labels, n) && id in n.posts && id !in n.rows
    ensures CleanedUp(c, Start(clock), labels, id)
  {
    LeadsGone(c, Start(clock), labels, n, id);
  }

  /** And a cleanup leaves none of those, and all others as they are. */
  lemma CleanupExact(c: Config, m: Machine, id: ItemId)
    requires Enabled(c, m, Clean(true)) && id in m.rows
    ensures var rows := Do(c, m, Clean(true)).rows;
            if Old(m.rows[id], m.phase.now - c.retention) then id !in rows
            else id in rows && rows[id] == m.rows[id]
  {
  }

  /** A recovery makes exactly the rows pending that are processing since before the timeout. */
  lemma RecoveryExact(c: Config, m: Machine, now: int, id: ItemId)
    requires Enabled(c, m, Recover(now, true)) && id in m.rows
    ensures var rows := Do(c, m, Recover(now, true)).rows;
            && id in rows
            && (m.rows[id].status.Processing? && m.rows[id].nextAttempt < now - c.stuckTimeout ==>
                  rows[id] == m.rows[id].(status := Pending))
            && (!m.rows[id].status.Processing? || m.rows[id].nextAttempt >= now - c.stuckTimeout ==>
                  rows[id] == m.rows[id])
  {
  }

  /** The record of an attempt: completed, retried after its delay, or given up. */
  lemma OutcomeExact(c: Config, m: Machine, at: int)
    requires Safe(c, m) && Enabled(c, m, Record(at, true))
    ensures var id, error, rows := m.phase.item.id, m.phase.error, Do(c, m, Record(at, true)).rows;
            && id in m.rows && id in rows && rows - {id} == m.rows - {id}
            && rows[id] ==
                 if error.None? then m.rows[id].(status := Completed)
                 else if m.rows[id].retryCount < c.retryCount then
                   Row(m.rows[id].retryCount + 1, Failed, m.rows[id].createdAt,
                       at + RetryDelay(c.baseDelay, m.rows[id].retryCount), error)
                 else m.rows[id].(status := PermanentlyFailed, lastError := error)
  {
  }

  /** What is selected is pending or failed and due, and nothing of that kind is passed over
      unless the batch is full. */
  lemma SelectionExact(c: Config, m: Machine, batch: seq<Item>, id: ItemId)
    requires Enabled(c, m, Select(batch)) && id in m.rows
    ensures var row := m.rows[id];
            var due := (row.status.Pending? || row.status.Failed?) && row.nextAttempt <= m.phase.now;
            && (Listed(batch, id) ==> due)
            && (due && !Listed(batch, id) ==>
                  && |batch| >= c.batchSize
                  && forall i :: 0 <= i < |batch| ==> batch[i].row.nextAttempt <= row.nextAttempt)
    ensures forall i, j :: 0 <= i <= j < |batch| ==> batch[i].row.nextAttempt <= batch[j].row.nextAttempt
  {
  }

  /** A new item is pending, never tried, and due at once. */
  lemma EnqueuedIsDue(c: Config, m: Machine, id: ItemId, at: int)
    requires Enabled(c, m, Enqueue(id, at))
    ensures var rows := Do(c, m, Enqueue(id, at)).rows;
            && id in rows && rows[id].status.Pending? && rows[id].retryCount == 0
            && rows[id].createdAt == rows[id].nextAttempt == at && rows[id].lastError.None?
            && rows - {id} == m.rows - {id}
  {
  }

  lemma {:induction false} GoneForGood(c: Config, m: Machine, labels: seq<Label>, n: Machine, id: ItemId)
    requires Safe(c, m) && Leads(c, m, labels, n) && id in m.posts && id !in m.rows
    ensures id !in n.rows
    decreases |labels|
  {
    if labels != [] {
      StepSafe(c, m, labels[0]);
      GoneForGood(c, Do(c, m, labels[0]), labels[1..], n, id);
    }
  }

  /** So over every run from there on: the row is as it was, or gone for good. */
  lemma {:induction false} TerminalForever(c: Config, m: Machine, labels: seq<Label>, n: Machine, id: ItemId)
    requires Safe(c, m) && Leads(c, m, labels, n) && id in m.rows && Terminal(m.rows[id].status)
    ensures id in n.rows ==> n.rows[id] == m.rows[id]
    decreases |labels|
  {
    if labels != [] {
      var next := Do(c, m, labels[0]);
      StepSafe(c, m, labels[0]);
      TerminalIsFinal(c, m, labels[0], id);
      assert PostsExplained(c, m, id);
      if id in next.rows {
        TerminalForever(c, next, labels[1..], n, id);
      } else {
        GoneForGood(c, next, labels[1..], n, id);
      }
    }
  }

  /** No enqueued item is ever lost: a row that is gone had reached its final outcome. */
  lemma NoneLost(c: Config, clock: int, labels: seq<Label>, n: Machine, id: ItemId)
    requires Leads(c, Start(clock), labels, n) && id in n.posts
    ensures id in n.rows || id in n.finished
    ensures id in n.rows ==> (id in n.finished <==> Terminal(n.rows[id].status))
  {
    LeadsSafe(c, Start(clock), labels, n);
    assert PostsExplained(c, n, id);
  }

  /** A row left in Processing by a lost outcome or a crash is not stuck: a recovery after
      the timeout makes it due at once. */
  lemma StuckIsRecovered(c: Config, m: Machine, now: int, id: ItemId)
    requires 0 <= c.stuckTimeout && Enabled(c, m, Recover(now, true))
    requires id in m.rows && m.rows[id].status.Processing? && m.rows[id].nextAttempt < now - c.stuckTimeout
    ensures Due(Do(c, m, Recover(now, true)).rows[id], now)
  {
  }
}
