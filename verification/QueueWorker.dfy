/**
  One pass of the queue worker as the code runs it (internal/webhooks/service.go), every
  statement tied to a step of the machine of QueueRuns: what is proved of the machine's
  runs holds of the code's. What befalls each step - a statement that fails, applied or
  not, the answer of a webhook, a cancelled context - is an arbitrary script.
 */
module QueueWorker {
  import opened Options
  import opened WebhookQueue
  import opened QueueRuns

  lemma {:induction false} LeadsOn(c: Config, m: Machine, labels: seq<Label>, n: Machine, l: Label)
    requires Leads(c, m, labels, n) && Enabled(c, n, l)
    ensures Leads(c, m, labels + [l], Do(c, n, l))
    decreases |labels|
  {
    var all := labels + [l];
    if labels == [] {
      assert all[1..] == [];
    } else {
      LeadsOn(c, Do(c, m, labels[0]), labels[1..], n, l);
      assert all[1..] == labels[1..] + [l];
    }
  }

  datatype Fate = Fate(applied: bool, ok: bool, stop: bool, failure: Failure)

  /** The step turned out as the script says. */
  predicate Follows(l: Label, fate: Fate) {
    match l
    case Recover(_, applied) => applied == fate.applied
    case Select(_) => fate.ok
    case SelectError => !fate.ok
    case Clean(applied) => applied == fate.applied
    case Claim(applied, ok) => !fate.stop && ok == fate.ok && applied == (fate.applied || fate.ok)
    case Deliver(error) => error == if fate.ok then None else Some(fate.failure)
    case Record(_, applied) => applied == fate.applied
    case Restart => fate.stop
    case Enqueue(_, _) => true
  }

  // ----- the steps of a pass -----

  /** The steps of one item: a claim and, if it was confirmed, one post and the record of its
      outcome. */
  predicate ItemSteps(turn: seq<Label>) {
    && turn != [] && turn[0].Claim?
    && if turn[0].ok then |turn| == 3 && turn[1].Deliver? && turn[2].Record? else |turn| == 1
  }

  /** The posts after the steps of an item. */
  function Posted(posts: map<ItemId, nat>, id: ItemId, turn: seq<Label>): map<ItemId, nat> {
    if |turn| == 3 then Bump(posts, id) else posts
  }

  predicate BatchSteps(turns: seq<seq<Label>>) {
    forall i :: 0 <= i < |turns| ==> ItemSteps(turns[i])
  }

  function Flat(turns: seq<seq<Label>>): seq<Label> {
    if turns == [] then [] else Flat(turns[..|turns| - 1]) + turns[|turns| - 1]
  }

  /** The posts after the steps of the first items. */
  function PostedAll(posts: map<ItemId, nat>, items: seq<Item>, turns: seq<seq<Label>>): map<ItemId, nat>
    requires |turns| <= |items|
  {
    if turns == [] then posts
    else
      var n := |turns| - 1;
      Posted(PostedAll(posts, items, turns[..n]), items[n].id, turns[n])
  }

  /** The run went on with the steps of these items, one after the other. */
  predicate Attempted(before: seq<Label>, posts: map<ItemId, nat>, items: seq<Item>, turns: seq<seq<Label>>,
                      after: seq<Label>, posts': map<ItemId, nat>)
  {
    && |turns| <= |items| && BatchSteps(turns)
    && after == before + Flat(turns) && posts' == PostedAll(posts, items, turns)
  }

  lemma AttemptedOn(before: seq<Label>, posts: map<ItemId, nat>, items: seq<Item>, turns: seq<seq<Label>>,
                    past: seq<Label>, posts': map<ItemId, nat>, turn: seq<Label>)
    requires Attempted(before, posts, items, turns, past, posts') && |turns| < |items| && ItemSteps(turn)
    ensures Attempted(before, posts, items, turns + [turn], past + turn, Posted(posts', items[|turns|].id, turn))
  {
    var all := turns + [turn];
    assert all[..|turns|] == turns;
    assert before + (Flat(turns) + turn) == (before + Flat(turns)) + turn;
  }

  /** The steps of a whole pass: recovery, selection, and the steps of the selected items in
      their order - all of them, or those before a stop - or the cleanup if there are none. */
  predicate PassSteps(steps: seq<Label>, items: seq<Item>, turns: seq<seq<Label>>) {
    && 2 <= |steps| && steps[0].Recover? && |turns| <= |items| && BatchSteps(turns)
    && if steps[1].SelectError? then |steps| == 2 && items == []
       else if items == [] then |steps| == 3 && steps[1] == Select(items) && steps[2].Clean?
       else steps[1] == Select(items) && steps[2..] == Flat(turns) + if |turns| < |items| then [Restart] else []
  }

  /** What follows the selection of these items. */
  predicate SelectedSteps(rest: seq<Label>, items: seq<Item>, turns: seq<seq<Label>>) {
    && |turns| <= |items| && BatchSteps(turns)
    && if items == [] then |rest| == 1 && rest[0].Clean?
       else rest == Flat(turns) + if |turns| < |items| then [Restart] else []
  }

  lemma PassJoins(before: seq<Label>, recovery: Label, items: seq<Item>, turns: seq<seq<Label>>, rest: seq<Label>)
    requires recovery.Recover? && SelectedSteps(rest, items, turns)
    ensures PassSteps([recovery, Select(items)] + rest, items, turns)
    ensures before + [recovery] + [Select(items)] + rest == before + ([recovery, Select(items)] + rest)
  {
    assert ([recovery, Select(items)] + rest)[2..] == rest;
  }

  lemma PassFails(before: seq<Label>, recovery: Label)
    requires recovery.Recover?
    ensures PassSteps([recovery, SelectError], [], [])
    ensures before + [recovery] + [SelectError] == before + [recovery, SelectError]
  {
  }

  class Service {
    const config: Config
    const webhooks: Repository
    const script: nat -> Fate
    var step: nat
    var clock: int
    ghost const began: int
    ghost var machine: Machine
    ghost var past: seq<Label>
    ghost var passes: nat
    ghost var stops: nat

    /** The table is the machine's, after a run of the machine from the empty table that
        follows the script. */
    ghost predicate Valid()
      reads this, webhooks
    {
      && machine.rows == webhooks.rows
      && machine.clock <= clock
      && Leads(config, Start(began), past, machine)
      && Scripted() && step == |past|
    }

    ghost predicate Scripted()
      reads this
    {
      forall i :: 0 <= i < |past| ==> Follows(past[i], script(i))
    }

    constructor (config: Config, script: nat -> Fate, clock: int)
      ensures Valid() && machine == Start(clock) && this.config == config && this.script == script && fresh(webhooks)
    {
      this.config := config;
      this.script := script;
      step := 0;
      webhooks := new Repository();
      this.clock := clock;
      began := clock;
      machine := Start(clock);
      past := [];
      passes, stops := 0, 0;
    }

    /** One step of the machine; opened passes and stops are counted. */
    ghost method Take(l: Label)
      requires Leads(config, Start(began), past, machine) && Enabled(config, machine, l)
      requires Scripted() && Follows(l, script(|past|))
      modifies this`machine, this`past, this`passes, this`stops
      ensures Leads(config, Start(began), past, machine) && Scripted()
      ensures machine == Do(config, old(machine), l) && past == old(past) + [l]
      ensures passes == old(passes) + One(l.Recover?) && stops == old(stops) + One(l.Restart?)
    {
      LeadsOn(config, Start(began), past, machine, l);
      machine := Do(config, machine, l);
      past := past + [l];
      passes, stops := passes + One(l.Recover?), stops + One(l.Restart?);
    }

    /** What the script has for the coming step. */
    method Meet() returns (fate: Fate)
      modifies this`step
      ensures fate == script(old(step)) && step == old(step) + 1
    {
      fate := script(step);
      step := step + 1;
    }

    /** A clock that never runs backwards. */
    method Now() returns (now: int)
      modifies this`clock
      ensures now == clock && old(clock) <= clock
    {
      now := *;
      if now < clock {
        now := clock;
      }
      clock := now;
    }

    /** The statement of markDeliveryFailure: one more retry, or none. */
    method StoreFailure(item: Item, at: int, failure: Failure)
      modifies webhooks
      ensures webhooks.rows == Verdict(config, old(webhooks.rows), item, Some(failure), at)
    {
      if item.row.retryCount < config.retryCount && item.row.status != PermanentlyFailed {
        webhooks.MarkFailed(item.id, at + RetryDelay(config.baseDelay, item.row.retryCount), failure);
      } else {
        webhooks.MarkPermanentlyFailed(item.id, failure);
      }
    }

    /** markDeliveryFailure: the retry or the end of a failed attempt. */
    method MarkDeliveryFailure(item: Item, failure: Failure) returns (ghost record: Label)
      requires Valid() && machine.phase.Recording? && machine.phase.item == item
      requires machine.phase.error == Some(failure)
      modifies this`clock, this`step, this`machine, this`past, this`passes, this`stops, webhooks
      ensures Valid() && machine.phase == Next(old(machine).phase.now, old(machine).phase.rest)
      ensures passes == old(passes) && stops == old(stops)
      ensures record.Record? && past == old(past) + [record] && machine.posts == old(machine).posts
    {
      var at := Now();
      var fate := Meet();
      if fate.applied {
        StoreFailure(item, at, failure);
      }
      record := Record(at, fate.applied);
      Take(record);
    }

    /** The post of one claimed item, and the record of its outcome. */
    method Settle(item: Item) returns (ghost post: Label, ghost record: Label)
      requires Valid() && machine.phase.Delivering? && machine.phase.item == item
      modifies this`clock, this`step, this`machine, this`past, this`passes, this`stops, webhooks
      ensures Valid() && machine.phase == Next(old(machine).phase.now, old(machine).phase.rest)
      ensures passes == old(passes) && stops == old(stops)
      ensures post.Deliver? && record.Record? && past == old(past) + [post] + [record]
      ensures machine.posts == Bump(old(machine).posts, item.id)
    {
      var delivery := Meet();
      post := Deliver(if delivery.ok then None else Some(delivery.failure));
      Take(post);
      if !delivery.ok {
        record := MarkDeliveryFailure(item, delivery.failure);
        return;
      }
      record := Complete(item);
    }

    /** The record of a delivery. */
    method Complete(item: Item) returns (ghost record: Label)
      requires Valid() && machine.phase.Recording? && machine.phase.item == item && machine.phase.error == None
      modifies this`clock, this`step, this`machine, this`past, this`passes, this`stops, webhooks
      ensures Valid() && machine.phase == Next(old(machine).phase.now, old(machine).phase.rest)
      ensures passes == old(passes) && stops == old(stops)
      ensures record.Record? && past == old(past) + [record] && machine.posts == old(machine).posts
    {
      var fate := Meet();
      if fate.applied {
        webhooks.MarkCompleted(item.id);
      }
      record := Record(clock, fate.applied);
      Take(record);
    }

    /** The body of the loop of processQueuePass: claim one item and settle it. */
    method Attempt(item: Item) returns (ghost turn: seq<Label>)
      requires Valid() && machine.phase.Working? && machine.phase.rest != [] && machine.phase.rest[0] == item
      requires !script(step).stop
      modifies this`clock, this`step, this`machine, this`past, this`passes, this`stops, webhooks
      ensures Valid() && machine.phase == Next(old(machine).phase.now, old(machine).phase.rest[1..])
      ensures passes == old(passes) && stops == old(stops)
      ensures ItemSteps(turn) && past == old(past) + turn
      ensures machine.posts == Posted(old(machine).posts, item.id, turn)
    {
      var fate := Meet();
      var applied := fate.applied || fate.ok;
      if applied {
        webhooks.MarkProcessing(item.id);
      }
      turn := [Claim(applied, fate.ok)];
      Take(Claim(applied, fate.ok));
      if fate.ok {
        ghost var post, record;
        post, record := Settle(item);
        turn := [Claim(applied, fate.ok), post, record];
        assert past == old(past) + turn;
      }
    }

    /** The loop of processQueuePass over the selected items; false when it is cancelled. */
    method AttemptAll(now: int, items: seq<Item>) returns (again: bool, ghost turns: seq<seq<Label>>)
      requires Valid() && items != [] && machine.phase == Working(now, items)
      modifies this`clock, this`step, this`machine, this`past, this`passes, this`stops, webhooks
      ensures Valid() && machine.phase.Idle?
      ensures passes == old(passes) && stops == old(stops) + One(!again) && (again <==> |turns| == |items|)
      ensures |turns| <= |items| && BatchSteps(turns)
      ensures past == old(past) + Flat(turns) + if again then [] else [Restart]
      ensures machine.posts == PostedAll(old(machine).posts, items, turns)
    {
      turns := [];
      var i := 0;
      while i < |items|
        invariant 0 <= i <= |items| && |turns| == i
        invariant Valid() && machine.phase == Next(now, items[i..])
        invariant passes == old(passes) && stops == old(stops)
        invariant Attempted(old(past), old(machine).posts, items, turns, past, machine.posts)
      {
        if script(step).stop {
          var fate := Meet();
          Take(Restart);
          return false, turns;
        }
        ghost var before, posts, turn := past, machine.posts, [];
        turn := Attempt(items[i]);
        AttemptedOn(old(past), old(machine).posts, items, turns, before, posts, turn);
        turns := turns + [turn];
        i := i + 1;
      }
      again := true;
    }

    /** What processQueuePass begins with. */
    method RecoverStale() returns (now: int, ghost recovery: Label)
      requires Valid() && machine.phase.Idle?
      modifies this`clock, this`step, this`machine, this`past, this`passes, this`stops, webhooks
      ensures Valid() && machine.phase == Selecting(now)
      ensures passes == old(passes) + 1 && stops == old(stops)
      ensures recovery.Recover? && past == old(past) + [recovery] && machine.posts == old(machine).posts
    {
      now := Now();
      var fate := Meet();
      if fate.applied {
        webhooks.RecoverStuck(now - config.stuckTimeout);
      }
      recovery := Recover(now, fate.applied);
      Take(recovery);
    }

    /** What processQueuePass does when nothing is due. */
    method CleanUp(now: int) returns (ghost cleanup: Label)
      requires Valid() && machine.phase == Cleaning(now)
      modifies this`step, this`machine, this`past, this`passes, this`stops, webhooks
      ensures Valid() && machine.phase.Idle?
      ensures passes == old(passes) && stops == old(stops)
      ensures cleanup.Clean? && past == old(past) + [cleanup] && machine.posts == old(machine).posts
    {
      var fate := Meet();
      if fate.applied {
        webhooks.Cleanup(now - config.retention);
      }
      cleanup := Clean(fate.applied);
      Take(cleanup);
    }

    /** processQueuePass once something is selected, or nothing. */
    method ProcessSelected(now: int, items: seq<Item>)
        returns (again: bool, ghost turns: seq<seq<Label>>, ghost rest: seq<Label>)
      requires Valid() && machine.phase == if items == [] then Cleaning(now) else Working(now, items)
      modifies this`clock, this`step, this`machine, this`past, this`passes, this`stops, webhooks
      ensures Valid() && machine.phase.Idle?
      ensures passes == old(passes) && stops == old(stops) + One(|turns| < |items|) && (again ==> stops == old(stops))
      ensures SelectedSteps(rest, items, turns) && past == old(past) + rest
      ensures machine.posts == PostedAll(old(machine).posts, items, turns)
    {
      if items == [] {
        ghost var cleanup;
        cleanup := CleanUp(now);
        turns, rest := [], [cleanup];
        again := *;
      } else {
        again, turns := AttemptAll(now, items);
        rest := Flat(turns) + if |turns| < |items| then [Restart] else [];
        assert past == old(past) + rest;
      }
    }

    /** processQueuePass: recover, select, and attempt every selected item once - one whole
        pass of the machine, unless it is cancelled. */
    method ProcessQueuePass()
        returns (again: bool, ghost items: seq<Item>, ghost turns: seq<seq<Label>>, ghost steps: seq<Label>)
      requires Valid() && machine.phase.Idle?
      modifies this`clock, this`step, this`machine, this`past, this`passes, this`stops, webhooks
      ensures Valid() && machine.phase.Idle?
      ensures passes == old(passes) + 1 && (again ==> stops == old(stops))
      ensures PassSteps(steps, items, turns) && past == old(past) + steps
      ensures machine.posts == PostedAll(old(machine).posts, items, turns)
    {
      items, turns := [], [];
      var now;
      ghost var recovery, rest;
      now, recovery := RecoverStale();
      var selection := Meet();
      if !selection.ok {
        Take(SelectError);
        PassFails(old(past), recovery);
        steps := [recovery, SelectError];
        again := *;
        return;
      }
      var selected := webhooks.DueItems(now, config.batchSize);
      items := selected;
      Take(Select(selected));
      again, turns, rest := ProcessSelected(now, selected);
      PassJoins(old(past), recovery, items, turns, rest);
      steps := [recovery, Select(items)] + rest;
    }
  }
}
