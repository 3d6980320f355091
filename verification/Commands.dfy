/**
  Commands, the object over the AT handle (internal/modem/sms.go and store.go). Every
  method is a list of sections under the mutex; between two of them other callers run
  theirs. The replies of the modem are arbitrary.
 */
module Commands {
  import opened Options
  import opened Text
  import opened StoreParsing
  import opened CommandLayer
  import opened CommandRuns

  // The rows of Init.
  const INIT_ROWS: seq<string> := ["", "E0", "+CMEE=1", "+CMGF=0", "+CNMI=2,1,0,1,0", "+CPIN?"]

  /** The SIM answered, and is not ready. */
  predicate NotReady(lines: seq<string>) {
    exists i :: 0 <= i < |lines| && "+CPIN:" <= lines[i] && TrimSpace(lines[i][6..]) != "READY"
  }

  function ReadResult(outcome: Result<seq<string>>): Result<string> {
    match outcome
    case Err(e) => Err(e)
    case Ok(lines) =>
      if StoredPdu(lines, "+CMGR:").Some? then Ok(StoredPdu(lines, "+CMGR:").value) else Err(NoStoredLine)
  }

  function ListResult(outcome: Result<seq<string>>): Result<seq<int>> {
    match outcome
    case Err(e) => Err(e)
    case Ok(lines) => Ok(Indices(lines))
  }

  function SubmitResult(outcome: Result<seq<string>>): Result<int> {
    match outcome
    case Err(e) => Err(e)
    case Ok(lines) => if MessageRef(lines).Some? then Ok(MessageRef(lines).value) else Err(NoReference)
  }

  /** The section at a place submitted a part, and the modem accepted it under ref. */
  predicate Accepted(sections: seq<Section>, at: nat, length: nat, ref: int) {
    && at < |sections| && sections[at].SubmitPart? && sections[at].length == length
    && SubmitResult(Outcome(Run(sections[..at]), true, sections[at].drain, sections[at].reply)) == Ok(ref)
  }

  predicate IsRow(sections: seq<Section>, at: nat, text: string) {
    at < |sections| && sections[at].Command? && sections[at].text == text
  }

  predicate Increasing(places: seq<nat>) {
    forall i, j :: 0 <= i < j < |places| ==> places[i] < places[j]
  }

  /** Rows of Init, in their order, since the given section. */
  predicate RowsSent(sections: seq<Section>, from: nat, places: seq<nat>) {
    && |places| <= |INIT_ROWS| && Increasing(places)
    && forall i :: 0 <= i < |places| ==> from <= places[i] && IsRow(sections, places[i], INIT_ROWS[i])
  }

  lemma RowsSentOn(before: seq<Section>, after: seq<Section>, from: nat, places: seq<nat>, place: nat)
    requires RowsSent(before, from, places) && |places| < |INIT_ROWS| && before <= after
    requires from <= |before| <= place && IsRow(after, place, INIT_ROWS[|places|])
    ensures RowsSent(after, from, places + [place])
  {
    assert forall k :: 0 <= k < |places| ==> after[places[k]] == before[places[k]];
  }

  /** Part by part, in order: the sections that submitted them, and their references. */
  predicate AllAccepted(sections: seq<Section>, start: nat, places: seq<nat>, lengths: seq<nat>, refs: seq<int>) {
    && |places| == |refs| <= |lengths|
    && Increasing(places)
    && forall i :: 0 <= i < |places| ==> start <= places[i] && Accepted(sections, places[i], lengths[i], refs[i])
  }

  /** The section at a place submitted a part, and it failed with that error. */
  predicate Failed(sections: seq<Section>, at: nat, length: nat, error: Error) {
    && at < |sections| && sections[at].SubmitPart? && sections[at].length == length
    && SubmitResult(Outcome(Run(sections[..at]), true, sections[at].drain, sections[at].reply)) == Err(error)
  }

  /** A part is accepted under the very reference the modem wrote into its response, whatever
      leaked into that. */
  lemma ResponseAccepted(sections: seq<Section>, at: nat, ref: nat)
    requires at < |sections| && sections[at].SubmitPart? && sections[at].reply.answer.Lines? && ref <= MAX_INT
    requires Leaked(["+CMGS: " + Itoa(ref)], sections[at].reply.answer.lines, "+CMGS:")
    requires !(Run(sections[..at]).pendingDrain && sections[at].drain.answer.Deadline?)
    ensures forall r :: Accepted(sections, at, sections[at].length, r) <==> r == ref
  {
    SubmitGivesReference(ref, sections[at].reply.answer.lines);
  }

  /** What the part loop comes to: it goes on while parts are accepted and the context is not
      cancelled, and its result tells how far it came. */
  predicate PartsSent(
      sections: seq<Section>, start: nat, parts: seq<nat>, stop: Option<nat>, places: seq<nat>, refs: seq<int>,
      failed: nat, sent: Sent)
  {
    && AllAccepted(sections, start, places, parts, refs)
    && (stop.Some? ==> |refs| <= stop.value)
    && if |refs| == |parts| then sent == Sent(refs, None, None)
       else
         && sent.error.Some?
         && (if stop == Some(|refs|) then sent.error.value == Cancelled
             else Failed(sections, failed, parts[|refs|], sent.error.value))
         && sent.refs == (if |parts| == 1 then [] else refs)
         && sent.failing == if |parts| == 1 then None else Some(|refs|)
  }

  /** The send ends without error exactly if every part was accepted, and otherwise tells how
      many were, unless there was only one. */
  lemma PartsSentMeans(
      sections: seq<Section>, start: nat, parts: seq<nat>, stop: Option<nat>, places: seq<nat>, refs: seq<int>,
      failed: nat, sent: Sent)
    requires PartsSent(sections, start, parts, stop, places, refs, failed, sent)
    ensures |places| == |refs| <= |parts| && (sent.error.None? <==> |refs| == |parts|)
    ensures forall i :: 0 <= i < |refs| ==> start <= places[i] && Accepted(sections, places[i], parts[i], refs[i])
    ensures forall i, j :: 0 <= i < j < |refs| ==> places[i] < places[j]
    ensures sent == if sent.error.None? then Sent(refs, None, None)
                    else if |parts| == 1 then Sent([], None, sent.error)
                    else Sent(refs, Some(|refs|), sent.error)
    ensures sent.error.Some? ==>
              if stop == Some(|refs|) then sent.error == Some(Cancelled)
              else Failed(sections, failed, parts[|refs|], sent.error.value)
  {
  }

  lemma AcceptedKept(before: seq<Section>, sections: seq<Section>, at: nat, length: nat, ref: int)
    requires Accepted(before, at, length, ref) && before <= sections
    ensures Accepted(sections, at, length, ref)
  {
    assert sections[..at] == before[..at];
  }

  lemma AllAcceptedOn(
    before: seq<Section>, sections: seq<Section>, start: nat, places: seq<nat>, lengths: seq<nat>, refs: seq<int>,
    at: nat, ref: int)
    requires AllAccepted(before, start, places, lengths, refs) && before <= sections
    requires |refs| < |lengths| && start <= |before| <= at && Accepted(sections, at, lengths[|refs|], ref)
    ensures AllAccepted(sections, start, places + [at], lengths, refs + [ref])
  {
    forall i | 0 <= i < |places| ensures start <= places[i] < at && Accepted(sections, places[i], lengths[i], refs[i]) {
      AcceptedKept(before, sections, places[i], lengths[i], refs[i]);
    }
  }

  lemma AllAcceptedKept(
    before: seq<Section>, sections: seq<Section>, start: nat, places: seq<nat>, lengths: seq<nat>, refs: seq<int>)
    requires AllAccepted(before, start, places, lengths, refs) && before <= sections
    ensures AllAccepted(sections, start, places, lengths, refs)
  {
    forall i | 0 <= i < |places| ensures Accepted(sections, places[i], lengths[i], refs[i]) {
      AcceptedKept(before, sections, places[i], lengths[i], refs[i]);
    }
  }

  class Commands {
    var pendingDrain: bool
    var initialized: bool
    var selectedStore: Store
    ghost var wire: seq<Event>
    ghost var sections: seq<Section>

    ghost function Abs(): State
      reads this
    {
      State(pendingDrain, initialized, selectedStore, wire)
    }

    ghost predicate Valid()
      reads this
    {
      Lawful(sections) && Abs() == Run(sections)
    }

    constructor ()
      ensures Valid() && sections == []
    {
      pendingDrain, initialized, selectedStore := false, false, NONE;
      wire, sections := [], [];
    }

    /** at.Command and at.SMSCommand: one exchange on the wire. */
    method Exchange(request: Request) returns (reply: Reply)
      modifies this`wire
      ensures wire == old(wire) + [Event(request, reply)]
    {
      reply := *;
      wire := wire + [Event(request, reply)];
    }

    method DrainLocked() returns (timedOut: bool, ghost drain: Reply)
      modifies this`pendingDrain, this`wire
      ensures Abs() == AfterDrain(old(Abs()), drain)
      ensures timedOut <==> Blocked(old(Abs()), drain)
    {
      drain := Reply(Broken, false);
      if !pendingDrain {
        return false, drain;
      }
      var reply := Exchange(Drain);
      drain := reply;
      if reply.answer.Deadline? {
        return true, drain;
      }
      pendingDrain := false;
      timedOut := false;
    }

    /** execLocked, and execSMS when the request submits a part. */
    method ExecLocked(request: Request, sms: bool)
      returns (result: Result<seq<string>>, ghost drain: Reply, ghost reply: Reply)
      modifies this`pendingDrain, this`wire
      ensures Abs() == AfterExec(old(Abs()), request, drain, reply)
      ensures result == Outcome(old(Abs()), sms, drain, reply)
    {
      var timedOut;
      reply := Reply(Broken, false);
      timedOut, drain := DrainLocked();
      if timedOut {
        return Err(ModemTimeout), drain, reply;
      }
      var answered := Exchange(request);
      reply := answered;
      match answered.answer {
        case Lines(lines) => result := Ok(lines);
        case Deadline => pendingDrain := true; result := Err(ModemTimeout);
        case Refused => result := Err(if sms then SendFailed else InitFailed);
        case Broken => result := Err(Library);
      }
    }

    method Exec(text: string) returns (result: Result<seq<string>>)
      requires Valid()
      modifies this`pendingDrain, this`wire, this`sections
      ensures Valid() && |sections| == |old(sections)| + 1 && sections[..|old(sections)|] == old(sections)
      ensures IsRow(sections, |old(sections)|, text)
    {
      ghost var drain, reply;
      result, drain, reply := ExecLocked(Plain(text), false);
      sections := sections + [Command(text, drain, reply)];
      assert sections[..|old(sections)|] == old(sections);
    }

    method SelectStoreLocked(mem: Store)
      returns (result: Result<seq<string>>, ghost drain: Reply, ghost reply: Reply)
      modifies this`pendingDrain, this`wire, this`selectedStore
      ensures Abs() == AfterSelect(old(Abs()), mem, drain, reply)
      ensures result.Ok? <==> SelectOk(old(Abs()), mem, drain, reply)
      ensures result.Err? ==> result == Outcome(old(Abs()), false, drain, reply)
      ensures mem == NONE || mem == old(selectedStore) ==> result == Ok([]) && wire == old(wire)
      ensures selectedStore == if result.Ok? && mem != NONE then mem else old(selectedStore)
    {
      if mem == NONE || mem == selectedStore {
        return Ok([]), Reply(Broken, false), Reply(Broken, false);
      }
      result, drain, reply := ExecLocked(Select(mem), false);
      if result.Ok? {
        selectedStore := mem;
      }
    }

    /** The section of the three store methods: select the store, then the command. */
    method OnStoreLocked(op: StoreOp, mem: Store) returns (result: Result<seq<string>>, ghost env: Env)
      requires Valid()
      modifies this`pendingDrain, this`wire, this`selectedStore, this`sections
      ensures Valid() && sections == old(sections) + [StoreCommand(op, mem, env)]
      ensures result == StoreOutcome(old(Abs()), mem, env)
    {
      ghost var none := Reply(Broken, false);
      ghost var selectDrain, select, drain, reply := none, none, none, none;
      var selected;
      selected, selectDrain, select := SelectStoreLocked(mem);
      if selected.Ok? {
        result, drain, reply := ExecLocked(OnStore(op, mem), false);
      } else {
        result := Err(selected.error);
      }
      env := Env(selectDrain, select, drain, reply);
      sections := sections + [StoreCommand(op, mem, env)];
      assert sections[..|old(sections)|] == old(sections);
    }

    method ReadStoredMessage(mem: Store, index: nat) returns (result: Result<string>, ghost env: Env)
      requires Valid()
      modifies this`pendingDrain, this`wire, this`selectedStore, this`sections
      ensures Valid() && sections == old(sections) + [StoreCommand(Read(index), mem, env)]
      ensures result == ReadResult(StoreOutcome(old(Abs()), mem, env))
    {
      var lines;
      lines, env := OnStoreLocked(Read(index), mem);
      if lines.Err? {
        return Err(lines.error), env;
      }
      var filtered := DropURCHeads(lines.value, "+CMGR:");
      var pdu := PduOf(filtered, "+CMGR:");
      result := if pdu.Some? then Ok(pdu.value) else Err(NoStoredLine);
    }

    method DeleteStoredMessage(mem: Store, index: nat) returns (result: Result<seq<string>>, ghost env: Env)
      requires Valid()
      modifies this`pendingDrain, this`wire, this`selectedStore, this`sections
      ensures Valid() && sections == old(sections) + [StoreCommand(Delete(index), mem, env)]
      ensures result == StoreOutcome(old(Abs()), mem, env)
    {
      result, env := OnStoreLocked(Delete(index), mem);
    }

    method ListStoredMessages(mem: Store) returns (result: Result<seq<int>>, ghost env: Env)
      requires Valid()
      modifies this`pendingDrain, this`wire, this`selectedStore, this`sections
      ensures Valid() && sections == old(sections) + [StoreCommand(List, mem, env)]
      ensures result == ListResult(StoreOutcome(old(Abs()), mem, env))
    {
      var lines;
      lines, env := OnStoreLocked(List, mem);
      if lines.Err? {
        return Err(lines.error), env;
      }
      var indices := ListedIndices(lines.value);
      result := Ok(indices);
    }

    /** What other callers do between two sections of a method. */
    method Others()
      requires Valid()
      modifies this`pendingDrain, this`wire, this`selectedStore, this`sections
      ensures Valid() && |old(sections)| <= |sections| && sections[..|old(sections)|] == old(sections)
    {
      var calls: nat := *;
      while calls > 0
        invariant Valid() && |old(sections)| <= |sections| && sections[..|old(sections)|] == old(sections)
      {
        var kind: int, index: nat, mem: Store, text: string := *, *, *, *;
        ghost var env;
        if kind == 0 {
          var pdu;
          pdu, env := ReadStoredMessage(mem, index);
        } else if kind == 1 {
          var deleted;
          deleted, env := DeleteStoredMessage(mem, index);
        } else if kind == 2 {
          var listed;
          listed, env := ListStoredMessages(mem);
        } else {
          var answered := Exec(text);
        }
        calls := calls - 1;
      }
    }

    /** One row of Init, after whatever other callers do. */
    method SendRow(row: string) returns (result: Result<seq<string>>, ghost place: nat)
      requires Valid()
      modifies this`pendingDrain, this`wire, this`selectedStore, this`sections
      ensures Valid() && |old(sections)| <= place < |sections| && sections[..|old(sections)|] == old(sections)
      ensures |sections| == place + 1 && IsRow(sections, place, row)
      ensures result.Ok? && row == "+CPIN?" ==> !NotReady(result.value)
    {
      Others();
      place := |sections|;
      ghost var before := sections;
      result := Exec(row);
      assert sections[..|old(sections)|] == before[..|old(sections)|];
      if result.Ok? && row == "+CPIN?" {
        var ready := SimReady(result.value);
        if !ready {
          result := Err(SIMNotReady);
        }
      }
    }

    /** The gate of the send path, opened under the mutex. */
    method OpenGate()
      requires Valid()
      modifies this`initialized, this`sections
      ensures Valid() && initialized && sections == old(sections) + [Initialized]
    {
      initialized := true;
      sections := sections + [Initialized];
      assert sections[..|old(sections)|] == old(sections);
    }

    /** The loop of Init over its rows, until one of them fails or the context is cancelled. */
    method SendRows() returns (result: Result<seq<string>>, ghost places: seq<nat>)
      requires Valid()
      modifies this`pendingDrain, this`wire, this`selectedStore, this`sections
      ensures Valid() && old(sections) <= sections && RowsSent(sections, |old(sections)|, places)
      ensures result.Ok? ==> |places| == |INIT_ROWS| && !NotReady(result.value)
    {
      places := [];
      result := Ok([]);
      for i := 0 to |INIT_ROWS|
        invariant Valid() && old(sections) <= sections
        invariant |places| == i && RowsSent(sections, |old(sections)|, places)
        invariant result.Ok? && (i == |INIT_ROWS| ==> !NotReady(result.value))
      {
        var cancelled: bool := *;
        if cancelled {
          return Err(ModemTimeout), places;
        }
        ghost var before, place := sections, 0;
        result, place := SendRow(INIT_ROWS[i]);
        RowsSentOn(before, sections, |old(sections)|, places, place);
        places := places + [place];
        if result.Err? {
          return;
        }
      }
    }

    /** Init: the rows in their order, and the gate of the send path opened at the end. */
    method Init() returns (result: Result<seq<string>>, ghost places: seq<nat>)
      requires Valid()
      modifies this
      ensures Valid()
      ensures initialized == (old(initialized) || result.Ok?)
      ensures RowsSent(sections, |old(sections)|, places)
      ensures result.Ok? ==>
                && |places| == |INIT_ROWS|
                && forall i :: 0 <= i < |result.value| && "+CPIN:" <= result.value[i] ==>
                     TrimSpace(result.value[i][6..]) == "READY"
    {
      result, places := SendRows();
      if result.Ok? {
        OpenGate();
      }
    }

    method SimReady(lines: seq<string>) returns (ready: bool)
      ensures ready <==> !NotReady(lines)
    {
      for i := 0 to |lines|
        invariant forall k :: 0 <= k < i ==> !("+CPIN:" <= lines[k] && TrimSpace(lines[k][6..]) != "READY")
      {
        if "+CPIN:" <= lines[i] && TrimSpace(lines[i][6..]) != "READY" {
          return false;
        }
      }
      ready := true;
    }

    /** sendPDU: one part; its reference is that of the first +CMGS line of the response. */
    method SendPDU(length: nat) returns (result: Result<int>)
      requires Valid() && initialized
      modifies this`pendingDrain, this`wire, this`sections
      ensures Valid() && |sections| == |old(sections)| + 1 && sections[..|old(sections)|] == old(sections)
      ensures sections[|old(sections)|].SubmitPart? && sections[|old(sections)|].length == length
      ensures result == SubmitResult(Outcome(old(Abs()), true, sections[|old(sections)|].drain,
                                             sections[|old(sections)|].reply))
    {
      var lines;
      ghost var drain, reply;
      lines, drain, reply := ExecLocked(Submit(length), true);
      sections := sections + [SubmitPart(length, drain, reply)];
      assert sections[..|old(sections)|] == old(sections);
      if lines.Err? {
        return Err(lines.error);
      }
      var kept := DropURCHeads(lines.value, "+CMGS:");
      var ref := ReferenceOf(kept);
      result := if ref.Some? then Ok(ref.value) else Err(NoReference);
    }

    method ReferenceOf(kept: seq<string>) returns (result: Option<int>)
      ensures result == FirstRef(kept)
    {
      for i := 0 to |kept|
        invariant FirstRef(kept) == FirstRef(kept[i..])
      {
        if "+CMGS:" <= kept[i] {
          return Atoi(TrimSpace(kept[i][6..]));
        }
      }
      result := None;
    }

    /** SendSMS, from the encoded parts (none: the text cannot be encoded); the context is
        cancelled from the start, or once `stop` parts were submitted. Each refusal has its
        error. Otherwise the parts are submitted one by one until one is refused: one
        reference for each part the modem accepted, in order - all of them, or those before
        the part that failed, and none if there was only one. */
    method SendSMS(encoded: Option<seq<nat>>, cancelled: bool, stop: Option<nat>)
        returns (sent: Sent, ghost places: seq<nat>, ghost accepted: seq<int>, ghost failed: nat)
      requires Valid()
      modifies this`pendingDrain, this`wire, this`selectedStore, this`sections
      ensures Valid()
      ensures cancelled ==> sent == Sent([], None, Some(Cancelled)) && sections == old(sections)
      ensures !cancelled && !initialized ==> sent == Sent([], None, Some(NotStarted)) && sections == old(sections)
      ensures !cancelled && initialized && encoded.None? ==>
                sent == Sent([], None, Some(Encoding)) && sections == old(sections)
      ensures !cancelled && initialized && encoded == Some([]) ==>
                sent == Sent([], None, Some(EmptyText)) && sections == old(sections)
      ensures !cancelled && initialized && encoded.Some? && |encoded.value| > 255 ==>
                sent == Sent([], None, Some(TooLong)) && sections == old(sections)
      ensures !cancelled && initialized && encoded.Some? && 1 <= |encoded.value| <= 255 ==>
                PartsSent(sections, |old(sections)|, encoded.value, stop, places, accepted, failed, sent)
    {
      places, accepted, failed := [], [], 0;
      if cancelled {
        return Sent([], None, Some(Cancelled)), places, accepted, failed;
      }
      if !initialized {
        return Sent([], None, Some(NotStarted)), places, accepted, failed;
      }
      if encoded.None? {
        return Sent([], None, Some(Encoding)), places, accepted, failed;
      }
      var parts := encoded.value;
      if |parts| == 0 {
        return Sent([], None, Some(EmptyText)), places, accepted, failed;
      }
      if |parts| > MAX_PARTS {
        return Sent([], None, Some(TooLong)), places, accepted, failed;
      }
      sent, places, accepted, failed := SendParts(parts, stop);
    }

    /** One turn of the part loop, after whatever other callers do. */
    method SendPart(length: nat) returns (result: Result<int>, ghost place: nat)
      requires Valid() && initialized
      modifies this`pendingDrain, this`wire, this`selectedStore, this`sections
      ensures Valid() && old(sections) <= sections && |old(sections)| <= place
      ensures result.Ok? ==> Accepted(sections, place, length, result.value)
      ensures result.Err? ==> Failed(sections, place, length, result.error)
    {
      Others();
      place := |sections|;
      result := SendPDU(length);
    }

    /** The part loop of SendSMS. */
    method SendParts(parts: seq<nat>, stop: Option<nat>)
        returns (sent: Sent, ghost places: seq<nat>, ghost accepted: seq<int>, ghost failed: nat)
      requires Valid() && initialized && parts != []
      modifies this`pendingDrain, this`wire, this`selectedStore, this`sections
      ensures Valid() && PartsSent(sections, |old(sections)|, parts, stop, places, accepted, failed, sent)
    {
      var refs: seq<int> := [];
      places, accepted, failed := [], [], 0;
      for i := 0 to |parts|
        invariant Valid() && |old(sections)| <= |sections| && |refs| == i && accepted == refs
        invariant AllAccepted(sections, |old(sections)|, places, parts, refs)
        invariant stop.Some? ==> i <= stop.value
      {
        if stop == Some(i) {
          return PartialRefs(refs, i, |parts|, Cancelled), places, accepted, failed;
        }
        ghost var before, place := sections, 0;
        var ref;
        ref, place := SendPart(parts[i]);
        if ref.Err? {
          failed := place;
          AllAcceptedKept(before, sections, |old(sections)|, places, parts, refs);
          return PartialRefs(refs, i, |parts|, ref.error), places, accepted, failed;
        }
        AllAcceptedOn(before, sections, |old(sections)|, places, parts, refs, place, ref.value);
        refs := refs + [ref.value];
        accepted, places := refs, places + [place];
      }
      sent := Sent(refs, None, None);
    }
  }
}
