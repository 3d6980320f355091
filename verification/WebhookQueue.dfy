/**
  The webhook delivery queue: the queue table (internal/webhooks/repository.go) and the
  arithmetic of its retries (internal/webhooks/service.go). Times and durations are
  integers in nanoseconds.
 */
module WebhookQueue {
  import opened Options

  datatype ItemId = ItemId(text: string)

  datatype Status = Pending | Processing | Completed | Failed | PermanentlyFailed

  /** What a failed delivery is recorded with. */
  datatype Failure = Failure(text: string)

  datatype Row = Row(retryCount: int, status: Status, createdAt: int, nextAttempt: int, lastError: Option<Failure>)

  type Rows = map<ItemId, Row>

  datatype Item = Item(id: ItemId, row: Row)

  predicate Terminal(status: Status) {
    status.Completed? || status.PermanentlyFailed?
  }

  // ----- retries -----

  const INT64: int := 0x1_0000_0000_0000_0000

  function Pow2(n: nat): (p: nat)
    ensures 1 <= p
  {
    if n == 0 then 1 else 2 * Pow2(n - 1)
  }

  /** The value a 64-bit signed register holds. */
  function Wrap64(x: int): int {
    var r := x % INT64;
    if 2 * r < INT64 then r else r - INT64
  }

  /** retryDelay: the base shifted left in int64. */
  function RetryDelay(base: int, retryCount: int): int {
    if retryCount < 0 then 0 else Wrap64(base * Pow2(retryCount))
  }

  lemma {:induction false} Pow2Grows(n: nat, m: nat)
    requires n <= m
    ensures Pow2(n) <= Pow2(m)
  {
    if n < m {
      Pow2Grows(n, m - 1);
    }
  }

  /** The delay is the promised doubling exactly as long as that fits the register. */
  lemma RetryDelayExact(base: int, retryCount: nat)
    ensures RetryDelay(base, retryCount) == base * Pow2(retryCount) <==>
              -INT64 <= 2 * (base * Pow2(retryCount)) < INT64
  {
  }

  // ----- the statements of the repository -----

  function Marked(rows: Rows, id: ItemId, status: Status): Rows {
    if id in rows then rows[id := rows[id].(status := status)] else rows
  }

  function MarkedFailed(rows: Rows, id: ItemId, nextAttempt: int, failure: Failure): Rows {
    if id in rows then
      rows[id := rows[id].(status := Failed, retryCount := rows[id].retryCount + 1, nextAttempt := nextAttempt,
                           lastError := Some(failure))]
    else rows
  }

  function GivenUp(rows: Rows, id: ItemId, failure: Failure): Rows {
    if id in rows then rows[id := rows[id].(status := PermanentlyFailed, lastError := Some(failure))] else rows
  }

  function Recovered(rows: Rows, threshold: int): Rows {
    map id | id in rows ::
      if rows[id].status.Processing? && rows[id].nextAttempt < threshold then rows[id].(status := Pending)
      else rows[id]
  }

  function Cleaned(rows: Rows, cutoff: int): Rows {
    map id | id in rows && !(Terminal(rows[id].status) && rows[id].createdAt < cutoff) :: rows[id]
  }

  predicate Due(row: Row, now: int) {
    (row.status.Pending? || row.status.Failed?) && row.nextAttempt <= now
  }

  predicate DistinctItems(batch: seq<Item>) {
    forall i, j :: 0 <= i < j < |batch| ==> batch[i].id != batch[j].id
  }

  predicate Listed(batch: seq<Item>, id: ItemId) {
    exists i :: 0 <= i < |batch| && batch[i].id == id
  }

  /** A batch: due rows as they are, each once, earliest first, and none left out that is
      due before a listed one unless the limit is reached. */
  predicate DueBatch(rows: Rows, now: int, limit: int, batch: seq<Item>) {
    && DistinctItems(batch)
    && (forall i :: 0 <= i < |batch| ==>
          batch[i].id in rows && rows[batch[i].id] == batch[i].row && Due(batch[i].row, now))
    && (forall i, j :: 0 <= i <= j < |batch| ==> batch[i].row.nextAttempt <= batch[j].row.nextAttempt)
    && (forall id :: id in rows && Due(rows[id], now) && !Listed(batch, id) ==>
          |batch| >= limit && forall i :: 0 <= i < |batch| ==> batch[i].row.nextAttempt <= rows[id].nextAttempt)
    && (|batch| <= limit || batch == [])
  }

  /** Due rows as they are, each once, earliest first. */
  predicate Selected(rows: Rows, now: int, batch: seq<Item>) {
    && DistinctItems(batch)
    && (forall i :: 0 <= i < |batch| ==>
          batch[i].id in rows && rows[batch[i].id] == batch[i].row && Due(batch[i].row, now))
    && (forall i, j :: 0 <= i <= j < |batch| ==> batch[i].row.nextAttempt <= batch[j].row.nextAttempt)
  }

  /** The due rows not yet selected, none of them due before a selected one. */
  ghost predicate Left(rows: Rows, now: int, batch: seq<Item>, left: set<ItemId>) {
    && (forall id :: id in left <==> id in rows && Due(rows[id], now) && !Listed(batch, id))
    && (forall id, i :: id in left && 0 <= i < |batch| ==> batch[i].row.nextAttempt <= rows[id].nextAttempt)
  }

  lemma SelectNext(rows: Rows, now: int, batch: seq<Item>, left: set<ItemId>, first: ItemId)
    requires Selected(rows, now, batch) && Left(rows, now, batch, left) && first in left
    requires forall id :: id in left ==> rows[first].nextAttempt <= rows[id].nextAttempt
    ensures Selected(rows, now, batch + [Item(first, rows[first])])
    ensures Left(rows, now, batch + [Item(first, rows[first])], left - {first})
  {
    ListedAppend(batch, Item(first, rows[first]));
  }

  /** The queue table. No update but RecoverStuck looks at the status it overwrites. */
  class Repository {
    var rows: Rows

    constructor ()
      ensures rows == map[]
    {
      rows := map[];
    }

    /** The id is the primary key, so a known one is refused. */
    method Enqueue(id: ItemId, row: Row) returns (ok: bool)
      modifies this
      ensures ok <==> id !in old(rows)
      ensures rows == if ok then old(rows)[id := row] else old(rows)
    {
      ok := id !in rows;
      if ok {
        rows := rows[id := row];
      }
    }

    method DueItems(now: int, limit: int) returns (batch: seq<Item>)
      ensures DueBatch(rows, now, limit, batch)
      ensures forall i :: 0 <= i < |batch| ==>
                && batch[i].id in rows && rows[batch[i].id] == batch[i].row
                && (batch[i].row.status.Pending? || batch[i].row.status.Failed?) && batch[i].row.nextAttempt <= now
      ensures forall i, j :: 0 <= i <= j < |batch| ==> batch[i].row.nextAttempt <= batch[j].row.nextAttempt
      ensures forall id :: id in rows && !Listed(batch, id)
                           && (rows[id].status.Pending? || rows[id].status.Failed?) && rows[id].nextAttempt <= now ==>
                |batch| >= limit && forall i :: 0 <= i < |batch| ==> batch[i].row.nextAttempt <= rows[id].nextAttempt
    {
      batch := [];
      if limit <= 0 {
        return;
      }
      var left := set id | id in rows && Due(rows[id], now);
      while left != {} && |batch| < limit
        invariant |batch| <= limit && Selected(rows, now, batch) && Left(rows, now, batch, left)
        decreases |left|
      {
        var first := Earliest(left);
        SelectNext(rows, now, batch, left, first);
        batch := batch + [Item(first, rows[first])];
        left := left - {first};
      }
    }

    /** The row of a set that is due first. */
    method Earliest(ids: set<ItemId>) returns (first: ItemId)
      requires ids != {} && ids <= rows.Keys
      ensures first in ids && forall id :: id in ids ==> rows[first].nextAttempt <= rows[id].nextAttempt
    {
      first :| first in ids;
      var rest := ids - {first};
      while rest != {}
        invariant first in ids && rest <= ids
        invariant forall id :: id in ids && id !in rest ==> rows[first].nextAttempt <= rows[id].nextAttempt
        decreases |rest|
      {
        var id :| id in rest;
        rest := rest - {id};
        if rows[id].nextAttempt < rows[first].nextAttempt {
          first := id;
        }
      }
    }

    method MarkProcessing(id: ItemId)
      modifies this
      ensures rows == if id in old(rows) then old(rows)[id := old(rows)[id].(status := Processing)] else old(rows)
    {
      if id in rows {
        rows := rows[id := rows[id].(status := Processing)];
      }
    }

    method MarkCompleted(id: ItemId)
      modifies this
      ensures rows == if id in old(rows) then old(rows)[id := old(rows)[id].(status := Completed)] else old(rows)
    {
      if id in rows {
        rows := rows[id := rows[id].(status := Completed)];
      }
    }

    method MarkFailed(id: ItemId, nextAttempt: int, failure: Failure)
      modifies this
      ensures rows == MarkedFailed(old(rows), id, nextAttempt, failure)
      ensures id in old(rows) ==>
                && id in rows
                && rows[id] == Row(old(rows)[id].retryCount + 1, Failed, old(rows)[id].createdAt, nextAttempt,
                                   Some(failure))
      ensures rows - {id} == old(rows) - {id}
    {
      if id in rows {
        var row := rows[id];
        rows := rows[id := Row(row.retryCount + 1, Failed, row.createdAt, nextAttempt, Some(failure))];
      }
    }

    method MarkPermanentlyFailed(id: ItemId, failure: Failure)
      modifies this
      ensures rows ==
                if id in old(rows) then
                  old(rows)[id := old(rows)[id].(status := PermanentlyFailed, lastError := Some(failure))]
                else old(rows)
    {
      if id in rows {
        rows := rows[id := rows[id].(status := PermanentlyFailed, lastError := Some(failure))];
      }
    }

    method RecoverStuck(threshold: int)
      modifies this
      ensures rows == Recovered(old(rows), threshold) && rows.Keys == old(rows).Keys
      ensures forall id :: id in rows ==>
                rows[id] == if old(rows)[id].status.Processing? && old(rows)[id].nextAttempt < threshold
                            then old(rows)[id].(status := Pending) else old(rows)[id]
    {
      rows := map id | id in rows ::
        if rows[id].status == Processing && rows[id].nextAttempt < threshold then rows[id].(status := Pending)
        else rows[id];
    }

    method Cleanup(cutoff: int)
      modifies this
      ensures rows == Cleaned(old(rows), cutoff)
      ensures forall id :: id in rows <==>
                && id in old(rows)
                && ((old(rows)[id].status.Completed? || old(rows)[id].status.PermanentlyFailed?) ==>
                      cutoff <= old(rows)[id].createdAt)
      ensures forall id :: id in rows ==> rows[id] == old(rows)[id]
    {
      rows := map id | id in rows
                       && !((rows[id].status == Completed || rows[id].status == PermanentlyFailed)
                            && rows[id].createdAt < cutoff)
                    :: rows[id];
    }
  }

  lemma ListedAppend(batch: seq<Item>, item: Item)
    ensures forall id :: Listed(batch + [item], id) <==> Listed(batch, id) || id == item.id
  {
    var all := batch + [item];
    assert all[|batch|] == item;
    forall id ensures Listed(all, id) <==> Listed(batch, id) || id == item.id {
      if Listed(batch, id) {
        var i :| 0 <= i < |batch| && batch[i].id == id;
        assert all[i].id == id;
      }
    }
  }
}
