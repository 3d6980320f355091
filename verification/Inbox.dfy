/**
  The inbound pipeline object (internal/inbox/service.go): reassembly groups and the
  dedupe, updated in place by the single run loop. Message ids and webhook selection
  are inputs; see MessageIdentity and Emission.
 */
module Inbox {
  import opened Options
  import opened Dedupe
  import opened Emission
  import opened Reassembly
  import opened ReassemblyRuns

  type Groups = map<Key, Group>

  /** The groups in memory are the live groups of the log. */
  ghost predicate Agrees(groups: Groups, log: seq<Fact>) {
    forall key :: GroupOf(log, key) == if key in groups then Some(groups[key]) else None
  }

  predicate Overdue(g: Group, now: int, timeout: int) {
    now - g.firstAt >= timeout
  }

  function Unexpired(groups: Groups, now: int, timeout: int): Groups {
    map key | key in groups && !Overdue(groups[key], now, timeout) :: groups[key]
  }

  /** Groups were given up only to make room: those whose window elapsed or, when none
      did in a full map, one that began first. All others, but for these, are as they were. */
  predicate GivenUpFairly(before: Groups, after: Groups, but: set<Key>, now: int, timeout: int) {
    && (forall key :: key in after && key !in but ==> key in before && after[key] == before[key])
    && (forall key :: key in before && key !in after && key !in but ==>
          && |before| == MAX_GROUPS
          && (now - before[key].firstAt >= timeout
              || (forall k :: k in before ==>
                    now - before[k].firstAt < timeout && before[key].firstAt <= before[k].firstAt)))
  }

  /** later is earlier plus groups given up: no part arrived in between. */
  predicate OnlyDrops(earlier: seq<Fact>, later: seq<Fact>) {
    && |earlier| <= |later| && later[..|earlier|] == earlier
    && forall i :: |earlier| <= i < |later| ==> later[i].Dropped?
  }

  lemma DropAgrees(groups: Groups, log: seq<Fact>, key: Key)
    requires Agrees(groups, log) && key in groups
    ensures Agrees(groups - {key}, log + [Dropped(key)])
    ensures GivenUp(log + [Dropped(key)]) == GivenUp(log) + 1
    ensures |groups - {key}| == |groups| - 1
  {
  }

  lemma ArrivalAgrees(groups: Groups, log: seq<Fact>, p: Piece, at: int)
    requires Agrees(groups, log)
    ensures var g := Grown(if KeyOf(p) in groups then Some(groups[KeyOf(p)]) else None, p, at);
            && GrownAt(log + [Arrived(p, at)], |log|) == g
            && Agrees(if Complete(g) then groups - {KeyOf(p)} else groups[KeyOf(p) := g], log + [Arrived(p, at)])
    ensures GivenUp(log + [Arrived(p, at)]) == GivenUp(log)
  {
  }

  class InboundService {
    var inboundGroups: Groups
    const inboundDedup: InboundDeduper
    const reassemblyTimeout: int
    // at_gateway_inbox reassembly counters
    var timeouts: nat
    var aborted: nat
    ghost var log: seq<Fact>

    ghost predicate Valid()
      reads this
    {
      && Agrees(inboundGroups, log)
      && |inboundGroups| <= MAX_GROUPS
      && GivenUp(log) == timeouts + aborted
    }

    constructor (timeout: int)
      ensures Valid() && inboundGroups == map[] && log == [] && timeouts == aborted == 0
      ensures reassemblyTimeout == timeout
      ensures fresh(inboundDedup) && inboundDedup.Abs() == EMPTY
    {
      inboundGroups, reassemblyTimeout, timeouts, aborted, log := map[], timeout, 0, 0, [];
      inboundDedup := new InboundDeduper();
    }

    /** One group leaves the map and is counted as timed out. */
    method GiveUp(key: Key)
      requires Valid() && key in inboundGroups
      modifies this
      ensures Valid()
      ensures inboundGroups == old(inboundGroups) - {key} && |inboundGroups| == old(|inboundGroups|) - 1
      ensures timeouts == old(timeouts) + 1 && aborted == old(aborted)
      ensures log == old(log) + [Dropped(key)]
    {
      DropAgrees(inboundGroups, log, key);
      inboundGroups := inboundGroups - {key};
      timeouts := timeouts + 1;
      log := log + [Dropped(key)];
    }

    method SweepInbound(now: int)
      requires Valid()
      modifies this, inboundDedup
      ensures Valid()
      ensures inboundGroups == Unexpired(old(inboundGroups), now, reassemblyTimeout)
      ensures forall key :: key in inboundGroups <==>
                key in old(inboundGroups) && now - old(inboundGroups)[key].firstAt < reassemblyTimeout
      ensures timeouts == old(timeouts) + old(|inboundGroups|) - |inboundGroups| && aborted == old(aborted)
      ensures OnlyDrops(old(log), log)
      ensures inboundDedup.Abs() == AfterSweep(old(inboundDedup.Abs()), now)
    {
      var rest := inboundGroups.Keys;
      while rest != {}
        invariant Valid()
        invariant rest <= old(inboundGroups).Keys
        invariant inboundGroups == map key |
                                     && key in old(inboundGroups)
                                     && (key in rest || !Overdue(old(inboundGroups)[key], now, reassemblyTimeout))
                                   :: old(inboundGroups)[key]
        invariant timeouts + |inboundGroups| == old(timeouts) + old(|inboundGroups|) && aborted == old(aborted)
        invariant OnlyDrops(old(log), log)
        invariant inboundDedup.Abs() == old(inboundDedup.Abs())
        decreases |rest|
      {
        var key :| key in rest;
        rest := rest - {key};
        if now - inboundGroups[key].firstAt < reassemblyTimeout {
          continue;
        }
        GiveUp(key);
      }
      inboundDedup.Sweep(now);
    }

    /** Drops a group with minimal firstAt; map iteration order decides between ties. */
    method EvictOldestInboundGroup() returns (ghost victim: Option<Key>)
      requires Valid()
      modifies this
      ensures Valid()
      ensures old(inboundGroups) == map[] ==> victim == None && inboundGroups == map[] && log == old(log)
      ensures old(inboundGroups) != map[] ==>
                && victim.Some? && victim.value in old(inboundGroups)
                && (forall key :: key in old(inboundGroups) ==>
                      old(inboundGroups)[victim.value].firstAt <= old(inboundGroups)[key].firstAt)
                && inboundGroups == old(inboundGroups) - {victim.value}
                && log == old(log) + [Dropped(victim.value)]
      ensures timeouts == old(timeouts) + old(|inboundGroups|) - |inboundGroups| && aborted == old(aborted)
    {
      var oldest := None;
      var rest := inboundGroups.Keys;
      while rest != {}
        invariant rest <= inboundGroups.Keys
        invariant oldest.None? ==> rest == inboundGroups.Keys
        invariant oldest.Some? ==> oldest.value in inboundGroups
        invariant oldest.Some? ==> forall k :: k in inboundGroups && k !in rest ==>
                                     inboundGroups[oldest.value].firstAt <= inboundGroups[k].firstAt
        decreases |rest|
      {
        var key :| key in rest;
        rest := rest - {key};
        if oldest == None || inboundGroups[key].firstAt < inboundGroups[oldest.value].firstAt {
          oldest := Some(key);
        }
      }
      victim := oldest;
      if oldest != None {
        GiveUp(oldest.value);
      }
    }

    /** Makes room for one more group: expired groups go first, and only when none is
        expired does a group with minimal firstAt go. */
    method NewInboundGroup(segments: int, now: int) returns (group: Group, ghost victim: Option<Key>)
      requires Valid()
      modifies this, inboundDedup
      ensures Valid() && group == Group(segments, now, map[]) && |inboundGroups| < MAX_GROUPS
      ensures OnlyDrops(old(log), log) && aborted == old(aborted)
      ensures old(|inboundGroups|) < MAX_GROUPS ==> victim.None? && inboundGroups == old(inboundGroups)
      ensures GivenUpFairly(old(inboundGroups), inboundGroups, {}, now, reassemblyTimeout)
      ensures old(|inboundGroups|) == MAX_GROUPS && victim.None? ==>
                forall key :: key in inboundGroups ==> now - inboundGroups[key].firstAt < reassemblyTimeout
      ensures victim.Some? ==>
                && old(|inboundGroups|) == MAX_GROUPS && victim.value in old(inboundGroups)
                && inboundGroups == old(inboundGroups) - {victim.value}
    {
      victim := None;
      if |inboundGroups| >= MAX_GROUPS {
        SweepInbound(now);
        ghost var swept := inboundGroups;
        if |inboundGroups| >= MAX_GROUPS {
          SameSize(swept, old(inboundGroups));
          victim := EvictOldestInboundGroup();
        }
      }
      group := Group(segments, now, map[]);
    }

    /** assembleInbound. The log gains the arrival, after the groups given up to make
        room for it; the message comes out exactly when the log says so. */
    method AssembleInbound(part: InboundPart, now: int) returns (message: Option<InboundMessage>)
      requires Valid()
      modifies this, inboundDedup
      ensures Valid() && aborted == old(aborted)
      ensures part.concat.None? ==>
                && message == Some(InboundMessage(part.sender, part.content, part.ported, part.port,
                                                  part.receivedAt, part.timestampValid, None))
                && log == old(log) && inboundGroups == old(inboundGroups)
      ensures part.concat.Some? ==>
                && old(|log|) < |log| && OnlyDrops(old(log), log[..|log| - 1])
                && log[|log| - 1] == Arrived(part, now)
                && (message.Some? <==> EmitsAt(log, |log| - 1))
                && (message.Some? ==> message.value == EmittedAt(log, |log| - 1))
                && GivenUpFairly(old(inboundGroups), inboundGroups, {KeyOf(part)}, now, reassemblyTimeout)
    {
      if part.concat == None {
        return Some(InboundMessage(part.sender, part.content, part.ported, part.port,
                                   part.receivedAt, part.timestampValid, None));
      }
      var key := Key(part.sender, part.concat.value.refWidth, part.concat.value.ref);
      var group := GroupFor(part, key, now);
      ghost var mid := inboundGroups;
      group := group.(parts := group.parts[part.concat.value.sequence := part]);
      message := Join(group);
      Settle(part, now, key, group, message == None);
      SettledFairly(old(inboundGroups), mid, inboundGroups, key, now, reassemblyTimeout);
    }

    /** The group a part is added to: the live one of its key if the counts agree, else a
        new one. */
    method GroupFor(part: Piece, key: Key, now: int) returns (group: Group)
      requires Valid() && key == KeyOf(part)
      modifies this, inboundDedup
      ensures Valid() && aborted == old(aborted) && OnlyDrops(old(log), log)
      ensures GivenUpFairly(old(inboundGroups), inboundGroups, {}, now, reassemblyTimeout)
      ensures key in inboundGroups || |inboundGroups| < MAX_GROUPS
      ensures group.(parts := group.parts[part.concat.value.sequence := part])
              == Grown(if key in inboundGroups then Some(inboundGroups[key]) else None, part, now)
    {
      if key !in inboundGroups || inboundGroups[key].segments != part.concat.value.segments {
        ghost var victim;
        group, victim := NewInboundGroup(part.concat.value.segments, now);
        RestartGrows(old(inboundGroups), inboundGroups, part, now);
      } else {
        group := inboundGroups[key];
      }
    }

    /** The end of assembleInbound: the grown group is kept while incomplete, and leaves
        the map once its message is out. */
    method Settle(part: Piece, now: int, key: Key, group: Group, incomplete: bool)
      requires Valid() && key == KeyOf(part)
      requires key in inboundGroups || |inboundGroups| < MAX_GROUPS
      requires group == Grown(if key in inboundGroups then Some(inboundGroups[key]) else None, part, now)
      requires incomplete <==> !Complete(group)
      modifies `inboundGroups, `log
      ensures Valid()
      ensures log == old(log) + [Arrived(part, now)] && log[..|log| - 1] == old(log)
      ensures GrownAt(log, |log| - 1) == group && inboundGroups - {key} == old(inboundGroups) - {key}
    {
      ArrivalAgrees(inboundGroups, log, part, now);
      OthersStay(inboundGroups, key, group);
      log := log + [Arrived(part, now)];
      if incomplete {
        InsertSize(inboundGroups, key, group);
        inboundGroups := inboundGroups[key := group];
      } else {
        inboundGroups := inboundGroups - {key};
      }
    }

    /** abortInbound: what is still incomplete at shutdown is counted once per group. */
    method AbortInbound()
      requires Valid()
      modifies this
      ensures Valid() && inboundGroups == map[]
      ensures aborted == old(aborted) + old(|inboundGroups|) && timeouts == old(timeouts)
      ensures OnlyDrops(old(log), log)
    {
      var rest := inboundGroups.Keys;
      ghost var left := inboundGroups;
      while rest != {}
        invariant rest == left.Keys && rest <= inboundGroups.Keys
        invariant Agrees(left, log) && GivenUp(log) == timeouts + aborted
        invariant aborted + |left| == old(aborted) + old(|inboundGroups|) && timeouts == old(timeouts)
        invariant OnlyDrops(old(log), log)
        decreases |rest|
      {
        var key :| key in rest;
        rest := rest - {key};
        aborted := aborted + 1;
        DropAgrees(left, log, key);
        left, log := left - {key}, log + [Dropped(key)];
      }
      assert left == map[];
      inboundGroups := map[];
    }

    /** The dedupe half of emitInbound: attempt whoever is not served, mark whoever got an item. */
    method EmitInbound(id: MessageId, now: int, selected: seq<WebhookId>, inserts: seq<Insert>)
        returns (results: seq<Verdict>, suppressed: nat)
      requires |inserts| == |selected|
      modifies inboundDedup
      ensures results == Verdicts(selected, inserts, ServedBy(old(inboundDedup.Abs()), id, now))
      ensures suppressed == Suppressed(selected, ServedBy(old(inboundDedup.Abs()), id, now))
      ensures forall p: Pipeline :: p.run.state == old(inboundDedup.Abs()) ==>
                inboundDedup.Abs() == ExecFrom(p.run, MarksOf(id, results, now)).state
    {
      var served := inboundDedup.Served(id, now);
      assert (set hook | hook in served) == ServedBy(inboundDedup.Abs(), id, now);
      results, suppressed := EmitTracked(selected, inserts, served);
      for i := 0 to |results|
        invariant forall p: Pipeline :: p.run.state == old(inboundDedup.Abs()) ==>
                    inboundDedup.Abs() == ExecFrom(p.run, MarksOf(id, results[..i], now)).state
      {
        forall p: Pipeline {
          MarksAppend(p.run, id, results[..i], results[i], now);
        }
        assert results[..i + 1] == results[..i] + [results[i]];
        if results[i].insert.Stored? {
          inboundDedup.Mark(id, results[i].hook, now);
        }
      }
      assert results[..|results|] == results;
    }

    /** Nothing is lost without a trace: every group ever created is live, was emitted,
        timed out, was aborted, or was restarted by a changed part count. */
    lemma Accounting()
      requires Valid()
      ensures Created(log) == |inboundGroups| + Emitted(log) + timeouts + aborted + Overwritten(log)
    {
      GroupsAccounted(log);
      forall key ensures key in LiveKeys(log) <==> key in inboundGroups {
        LiveKeysExact(log, key);
      }
      assert LiveKeys(log) == inboundGroups.Keys;
    }
  }

  lemma SameSize(kept: Groups, all: Groups)
    requires kept.Keys <= all.Keys && |kept| >= |all|
    requires forall key :: key in kept ==> kept[key] == all[key]
    ensures kept == all
  {
    assert |all.Keys - kept.Keys| == |all.Keys| - |kept.Keys|;
    assert all.Keys == kept.Keys + (all.Keys - kept.Keys);
  }

  lemma SettledFairly(before: Groups, mid: Groups, after: Groups, key: Key, now: int, timeout: int)
    requires GivenUpFairly(before, mid, {}, now, timeout) && after - {key} == mid - {key}
    ensures GivenUpFairly(before, after, {key}, now, timeout)
  {
    forall k | k != key
      ensures k in after <==> k in mid
      ensures k in after ==> after[k] == mid[k]
    {
      assert k in after <==> k in after - {key};
      assert k in mid <==> k in mid - {key};
      assert k in after ==> after[k] == (after - {key})[k];
      assert k in mid ==> mid[k] == (mid - {key})[k];
    }
  }

  lemma OthersStay(groups: Groups, key: Key, g: Group)
    ensures groups[key := g] - {key} == groups - {key} && (groups - {key}) - {key} == groups - {key}
  {
  }

  lemma InsertSize(groups: Groups, key: Key, g: Group)
    ensures |groups[key := g]| <= |groups| + 1
    ensures key in groups ==> |groups[key := g]| == |groups|
  {
  }

  /** Whether the old group of the key was evicted to make room or is restarted in
      place, the part starts a group of its own. */
  lemma RestartGrows(before: Groups, after: Groups, p: Piece, at: int)
    requires KeyOf(p) !in before || before[KeyOf(p)].segments != p.concat.value.segments
    requires forall key :: key in after ==> key in before && after[key] == before[key]
    ensures Grown(if KeyOf(p) in after then Some(after[KeyOf(p)]) else None, p, at)
            == Group(p.concat.value.segments, at, map[p.concat.value.sequence := p])
  {
  }

  /** Joins a group if it is complete: a size check first, then one walk over 1..segments. */
  method Join(group: Group) returns (message: Option<InboundMessage>)
    ensures message.Some? <==> Complete(group)
    ensures message.Some? ==> message.value == Assembled(group)
  {
    if |group.parts| < group.segments {
      TooFewParts(group);
      return None;
    }
    var contents := "";
    var sequence := 1;
    while sequence <= group.segments
      invariant 1 <= sequence
      invariant sequence == 1 || sequence <= group.segments + 1
      invariant forall k :: 1 <= k < sequence ==> k in group.parts
      invariant contents == Joined(group.parts, sequence - 1)
      decreases group.segments - sequence
    {
      if sequence !in group.parts {
        assert Needed(group.segments, sequence);
        return None;
      }
      contents := contents + group.parts[sequence].content;
      sequence := sequence + 1;
    }
    if 1 !in group.parts {
      assert Needed(group.segments, 1);
      return None;
    }
    var first := group.parts[1];
    assert Joined(group.parts, group.segments) == contents by {
      if group.segments <= 0 {
        assert Joined(group.parts, 0) == "" == Joined(group.parts, group.segments);
      }
    }
    return Some(InboundMessage(first.sender, contents, first.ported, first.port,
                               first.receivedAt, first.timestampValid, first.concat));
  }
}
