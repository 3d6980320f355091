/**
  What every run of the command layer keeps, whatever the modem answers and however the
  sections interleave.
 */
module CommandRuns {
  import opened Options
  import opened CommandLayer

  predicate TimedOut(wire: seq<Event>) {
    wire != [] && wire[|wire| - 1].reply.answer.Deadline?
  }

  /** A drain is sent after an exchange that timed out, and only then. */
  predicate Barrier(wire: seq<Event>) {
    if wire == [] then true
    else
      var before := wire[..|wire| - 1];
      Barrier(before) && (wire[|wire| - 1].request.Drain? <==> TimedOut(before))
  }

  /** The store of the last +CPMS that was confirmed. */
  function Confirmed(wire: seq<Event>): Store {
    if wire == [] then NONE
    else
      var last := wire[|wire| - 1];
      if last.request.Select? && last.reply.answer.Lines? then last.request.store
      else Confirmed(wire[..|wire| - 1])
  }

  /** The store of the last +CPMS that took effect unconfirmed, since the last confirmed one. */
  function Stray(wire: seq<Event>): Option<Store> {
    if wire == [] then None
    else
      var last := wire[|wire| - 1];
      if last.request.Select? && last.reply.answer.Lines? then None
      else if last.request.Select? && last.reply.took then Some(last.request.store)
      else Stray(wire[..|wire| - 1])
  }

  /** The store the modem reads, lists and deletes in: that of the last +CPMS that took
      effect, or the one it booted with. */
  function Preferred(boot: Store, wire: seq<Event>): Store {
    if wire == [] then boot
    else
      var last := wire[|wire| - 1];
      if last.request.Select? && (last.reply.answer.Lines? || last.reply.took) then last.request.store
      else Preferred(boot, wire[..|wire| - 1])
  }

  /** A store command is sent only when the last confirmed selection is its caller's. */
  predicate Aimed(wire: seq<Event>) {
    if wire == [] then true
    else
      var before, last := wire[..|wire| - 1], wire[|wire| - 1];
      && Aimed(before)
      && (last.request.OnStore? && last.request.wanted != NONE ==> Confirmed(before) == last.request.wanted)
  }

  predicate NoSubmit(wire: seq<Event>) {
    forall i :: 0 <= i < |wire| ==> !wire[i].request.Submit?
  }

  predicate Sound(s: State) {
    && (s.pendingDrain <==> TimedOut(s.wire))
    && Barrier(s.wire)
    && s.selected == Confirmed(s.wire)
    && Aimed(s.wire)
    && (!s.initialized ==> NoSubmit(s.wire))
  }

  // ----- every section keeps it -----

  lemma EventKeeps(wire: seq<Event>, e: Event)
    requires Barrier(wire) && Aimed(wire) && (e.request.Drain? <==> TimedOut(wire))
    requires e.request.OnStore? && e.request.wanted != NONE ==> Confirmed(wire) == e.request.wanted
    ensures Barrier(wire + [e]) && Aimed(wire + [e])
    ensures TimedOut(wire + [e]) <==> e.reply.answer.Deadline?
    ensures Confirmed(wire + [e]) ==
              if e.request.Select? && e.reply.answer.Lines? then e.request.store else Confirmed(wire)
  {
  }

  lemma DrainKeeps(s: State, drain: Reply)
    requires Sound(s)
    ensures var d := AfterDrain(s, drain);
            Sound(d) && d.selected == s.selected && (!Blocked(s, drain) ==> !d.pendingDrain)
  {
  }

  lemma RequestKeeps(s: State, request: Request, reply: Reply)
    requires Sound(s) && !s.pendingDrain && !request.Drain? && (request.Submit? ==> s.initialized)
    requires request.OnStore? && request.wanted != NONE ==> s.selected == request.wanted
    ensures Sound(State(reply.answer.Deadline?, s.initialized,
                        if request.Select? && reply.answer.Lines? then request.store else s.selected,
                        s.wire + [Event(request, reply)]))
  {
    EventKeeps(s.wire, Event(request, reply));
  }

  /** All but the selection, which is still to follow a confirmed +CPMS. */
  lemma ExecKeeps(s: State, request: Request, drain: Reply, reply: Reply)
    requires Sound(s) && !request.Drain? && (request.Submit? ==> s.initialized)
    requires request.OnStore? && request.wanted != NONE ==> s.selected == request.wanted
    ensures var n := AfterExec(s, request, drain, reply);
            var store := if request.Select? && Outcome(s, false, drain, reply).Ok? then request.store else s.selected;
            Sound(n.(selected := store))
  {
    DrainKeeps(s, drain);
    if !Blocked(s, drain) {
      RequestKeeps(AfterDrain(s, drain), request, reply);
    }
  }

  lemma SelectKeeps(s: State, mem: Store, drain: Reply, reply: Reply)
    requires Sound(s)
    ensures Sound(AfterSelect(s, mem, drain, reply))
    ensures SelectOk(s, mem, drain, reply) && mem != NONE ==> AfterSelect(s, mem, drain, reply).selected == mem
  {
    if !Cached(s, mem) {
      ExecKeeps(s, Select(mem), drain, reply);
    }
  }

  lemma StoreKeeps(s: State, op: StoreOp, mem: Store, env: Env)
    requires Sound(s)
    ensures Sound(AfterStore(s, op, mem, env))
  {
    SelectKeeps(s, mem, env.selectDrain, env.select);
    if SelectOk(s, mem, env.selectDrain, env.select) {
      ExecKeeps(AfterSelect(s, mem, env.selectDrain, env.select), OnStore(op, mem), env.drain, env.reply);
    }
  }

  lemma SectionKeeps(s: State, section: Section)
    requires Sound(s) && Allowed(s, section)
    ensures Sound(AfterSection(s, section))
  {
    match section
    case Command(text, drain, reply) => ExecKeeps(s, Plain(text), drain, reply);
    case SubmitPart(length, drain, reply) => ExecKeeps(s, Submit(length), drain, reply);
    case StoreCommand(op, mem, env) => StoreKeeps(s, op, mem, env);
    case Initialized =>
  }

  lemma {:induction false} RunSound(sections: seq<Section>)
    requires Lawful(sections)
    ensures Sound(Run(sections))
  {
    if sections != [] {
      RunSound(sections[..|sections| - 1]);
      SectionKeeps(Run(sections[..|sections| - 1]), sections[|sections| - 1]);
    }
  }

  // ----- main results -----

  lemma {:induction false} BarrierAt(wire: seq<Event>, i: nat)
    requires Barrier(wire) && 0 < i < |wire|
    ensures wire[i].request.Drain? <==> wire[i - 1].reply.answer.Deadline?
  {
    var before := wire[..|wire| - 1];
    if i < |wire| - 1 {
      BarrierAt(before, i);
    }
  }

  lemma {:induction false} DrainBetween(wire: seq<Event>, i: nat, j: nat) returns (k: nat)
    requires Barrier(wire) && i < j < |wire|
    requires wire[i].reply.answer.Deadline? && !wire[j].request.Drain?
    ensures i < k < j && wire[k].request.Drain? && !wire[k].reply.answer.Deadline?
    decreases j - i
  {
    BarrierAt(wire, i + 1);
    k := i + 1;
    if wire[k].reply.answer.Deadline? {
      k := DrainBetween(wire, i + 1, j);
    }
  }

  /** DRAIN BARRIER. In every run the barrier is set exactly when the last exchange timed
      out; and after an exchange that timed out nothing but drains is sent until a drain
      has ended otherwise. */
  lemma NothingPassesTheBarrier(sections: seq<Section>, i: nat, j: nat)
    requires Lawful(sections) && i < j < |Run(sections).wire|
    requires Run(sections).wire[i].reply.answer.Deadline? && !Run(sections).wire[j].request.Drain?
    ensures exists k :: i < k < j &&
              Run(sections).wire[k].request.Drain? && !Run(sections).wire[k].reply.answer.Deadline?
  {
    RunSound(sections);
    var k := DrainBetween(Run(sections).wire, i, j);
  }

  lemma {:induction false} BarrierIsLastDeadline(sections: seq<Section>)
    requires Lawful(sections)
    ensures Run(sections).pendingDrain <==> TimedOut(Run(sections).wire)
  {
    RunSound(sections);
  }

  lemma {:induction false} InitializedByInit(sections: seq<Section>)
    requires Initialized !in sections
    ensures !Run(sections).initialized
  {
    if sections != [] {
      InitializedByInit(sections[..|sections| - 1]);
    }
  }

  /** Without a successful Init no part goes over the wire. */
  lemma NoSubmitWithoutInit(sections: seq<Section>)
    requires Lawful(sections) && Initialized !in sections
    ensures NoSubmit(Run(sections).wire)
  {
    RunSound(sections);
    InitializedByInit(sections);
  }

  predicate AnyConfirmed(wire: seq<Event>) {
    exists i :: 0 <= i < |wire| && wire[i].request.Select? && wire[i].reply.answer.Lines?
  }

  /** What the modem prefers, from what the gateway saw and what it missed. */
  lemma {:induction false} PreferredExactly(boot: Store, wire: seq<Event>)
    ensures Preferred(boot, wire) == match Stray(wire)
                                     case Some(store) => store
                                     case None => if AnyConfirmed(wire) then Confirmed(wire) else boot
  {
    if wire != [] {
      var before, last := wire[..|wire| - 1], wire[|wire| - 1];
      PreferredExactly(boot, before);
    }
  }

  lemma {:induction false} AimedAt(wire: seq<Event>, k: nat)
    requires Aimed(wire) && k < |wire| && wire[k].request.OnStore? && wire[k].request.wanted != NONE
    ensures Confirmed(wire[..k]) == wire[k].request.wanted
  {
    var before := wire[..|wire| - 1];
    if k < |wire| - 1 {
      AimedAt(before, k);
      assert before[..k] == wire[..k];
    }
  }

  /** STORE SELECTION. In every run the store command at k is executed in the store its
      caller named if and only if no +CPMS took effect unconfirmed since the last confirmed
      one, or the last that did selected that very store. */
  lemma StoreCommandHits(boot: Store, sections: seq<Section>, k: nat)
    requires Lawful(sections) && k < |Run(sections).wire|
    requires Run(sections).wire[k].request.OnStore? && Run(sections).wire[k].request.wanted != NONE
    ensures var wire := Run(sections).wire;
            Preferred(boot, wire[..k]) == wire[k].request.wanted
            <==> Stray(wire[..k]) == None || Stray(wire[..k]) == Some(wire[k].request.wanted)
  {
    RunSound(sections);
    var wire := Run(sections).wire;
    AimedAt(wire, k);
    PreferredExactly(boot, wire[..k]);
    if Confirmed(wire[..k]) != NONE {
      ConfirmedSomewhere(wire[..k]);
    }
  }

  lemma {:induction false} ConfirmedSomewhere(wire: seq<Event>)
    requires Confirmed(wire) != NONE
    ensures AnyConfirmed(wire)
  {
    var last := wire[|wire| - 1];
    if !(last.request.Select? && last.reply.answer.Lines?) {
      var before := wire[..|wire| - 1];
      ConfirmedSomewhere(before);
      var i :| 0 <= i < |before| && before[i].request.Select? && before[i].reply.answer.Lines?;
      assert wire[i] == before[i];
    }
  }

  /** A +CPMS that fails leaves the modem as it was. */
  predicate FailedSelectsInert(wire: seq<Event>) {
    forall i :: 0 <= i < |wire| && wire[i].request.Select? && wire[i].reply.took ==> wire[i].reply.answer.Lines?
  }

  lemma {:induction false} InertNeverStrays(wire: seq<Event>)
    requires FailedSelectsInert(wire)
    ensures Stray(wire) == None
  {
    if wire != [] {
      InertNeverStrays(wire[..|wire| - 1]);
    }
  }

  /** So, as long as a +CPMS that fails leaves the modem as it was, a selected store is the
      modem's preferred one, and every read, delete and listing is executed in the store
      its caller named. */
  lemma SelectionCoherent(boot: Store, sections: seq<Section>)
    requires Lawful(sections) && FailedSelectsInert(Run(sections).wire)
    ensures var s := Run(sections);
            && (s.selected != NONE ==> Preferred(boot, s.wire) == s.selected)
            && forall k :: 0 <= k < |s.wire| && s.wire[k].request.OnStore? && s.wire[k].request.wanted != NONE ==>
                 Preferred(boot, s.wire[..k]) == s.wire[k].request.wanted
  {
    var s := Run(sections);
    RunSound(sections);
    InertNeverStrays(s.wire);
    PreferredExactly(boot, s.wire);
    if s.selected != NONE {
      ConfirmedSomewhere(s.wire);
    }
    forall k | 0 <= k < |s.wire| && s.wire[k].request.OnStore? && s.wire[k].request.wanted != NONE
      ensures Preferred(boot, s.wire[..k]) == s.wire[k].request.wanted
    {
      StoreCommandHits(boot, sections, k);
      InertNeverStrays(s.wire[..k]);
    }
  }

  /** The condition is needed: after a +CPMS that took effect but timed out, the cache still
      names the old store, and a delete meant for it is executed in the other. */
  lemma StraySelectMisdirects(boot: Store, sections: seq<Section>, index: nat, mem: Store, other: Store, drain: Reply)
    requires Lawful(sections) && mem != NONE && other != NONE && other != mem
    requires Run(sections).selected == mem && !Run(sections).pendingDrain && !drain.answer.Deadline?
    ensures var ok, lost := Reply(Lines([]), true), Reply(Deadline, true);
            var read := StoreCommand(Read(index), other, Env(ok, lost, ok, ok));
            var delete := StoreCommand(Delete(index), mem, Env(ok, ok, drain, ok));
            var wire := Run(sections + [read] + [delete]).wire;
            && Lawful(sections + [read] + [delete])
            && wire != [] && wire[|wire| - 1] == Event(OnStore(Delete(index), mem), ok)
            && Preferred(boot, wire[..|wire| - 1]) == other
  {
  }
}
