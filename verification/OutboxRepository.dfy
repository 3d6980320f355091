/**
  The repository methods over the outbox tables (internal/messages/repository.go). One
  method is one statement or transaction; the tables are a sequence of rows that it
  updates in place, scanning for the rows its WHERE clause selects.
 */
module OutboxRepository {
  import opened Collections
  import opened Options
  import opened Outbox

  lemma SweptKeyed(t: Table, i: nat, state: State, now: int)
    requires Keyed(t) && i < |t|
    ensures Keyed(t[i := Entered(t[i], state, now).(recipients := SweptAll(t[i].recipients, state, now))])
  {
    assert UniquePhones(t[i].recipients);
  }

  /** toDomainMap. */
  method ToDomainMap(states: seq<Entry>) returns (times: map<State, int>)
    ensures times == FirstTimes(states)
  {
    times := map[];
    for i := 0 to |states|
      invariant times == FirstTimes(states[..i])
    {
      assert states[..i + 1][..i] == states[..i];
      if states[i].state in times {
        continue;
      }
      times := times[states[i].state := states[i].at];
    }
    assert states[..|states|] == states;
  }

  datatype Creation = Created | AlreadyExists | DuplicateRecipient

  datatype Cancellation = Withdrawn(message: Message) | NotPending | NotFound

  lemma RowIs(t: Table, i: nat)
    requires UniqueIds(t) && i < |t|
    ensures Row(t, t[i].id) == Some(i)
  {
  }

  lemma SlotIs(rs: seq<Recipient>, k: nat)
    requires UniquePhones(rs) && k < |rs|
    ensures Slot(rs, rs[k].phone) == Some(k)
  {
  }

  class Repository {
    var messages: Table

    /** The unique indexes of the schema. */
    ghost predicate Valid()
      reads this
    {
      Keyed(messages)
    }

    constructor ()
      ensures Valid() && messages == []
    {
      messages := [];
    }

    method Find(id: ExtId) returns (at: Option<nat>)
      requires Valid()
      ensures at == Row(messages, id)
    {
      for i := 0 to |messages|
        invariant forall k :: 0 <= k < i ==> messages[k].id != id
      {
        if messages[i].id == id {
          RowIs(messages, i);
          return Some(i);
        }
      }
      at := None;
    }

    method FindRecipient(rs: seq<Recipient>, phone: Phone) returns (at: Option<nat>)
      requires UniquePhones(rs)
      ensures at == Slot(rs, phone)
    {
      for k := 0 to |rs|
        invariant forall j :: 0 <= j < k ==> rs[j].phone != phone
      {
        if rs[k].phone == phone {
          SlotIs(rs, k);
          return Some(k);
        }
      }
      at := None;
    }

    method GetByID(id: ExtId) returns (found: Option<Message>)
      requires Valid()
      ensures found.Some? <==> Row(messages, id).Some?
      ensures found.Some? ==> found.value == messages[Row(messages, id).value]
    {
      var at := Find(id);
      found := if at.Some? then Some(messages[at.value]) else None;
    }

    /** The recipient rows of a message; none if a phone is repeated. */
    method MakeRecipients(phones: seq<Phone>, now: int) returns (made: Option<seq<Recipient>>)
      ensures made.Some? <==> Distinct(phones)
      ensures made.Some? ==> made.value == NewRecipients(phones, now) && UniquePhones(made.value)
    {
      var recipients: seq<Recipient> := [];
      for k := 0 to |phones|
        invariant recipients == NewRecipients(phones[..k], now)
        invariant Distinct(phones[..k])
      {
        if exists j :: 0 <= j < k && phones[j] == phones[k] {
          return None;
        }
        recipients := recipients + [Recipient(phones[k], [Entry(Pending, now)], None)];
        assert phones[..k + 1][..k] == phones[..k];
      }
      assert phones[..|phones|] == phones;
      made := Some(recipients);
    }

    /** Create: a known ext_id or a repeated phone rolls the whole transaction back. */
    method Create(input: Input, now: int) returns (result: Creation)
      requires Valid()
      modifies this
      ensures Valid()
      ensures result.AlreadyExists? <==> exists i :: 0 <= i < |old(messages)| && old(messages)[i].id == input.id
      ensures result.DuplicateRecipient? <==> !result.AlreadyExists? && !Distinct(input.phones)
      ensures messages == old(messages) + if result.Created? then [NewMessage(input, now)] else []
    {
      var known := Find(input.id);
      if known.Some? {
        return AlreadyExists;
      }
      var recipients := MakeRecipients(input.phones, now);
      if recipients.None? {
        return DuplicateRecipient;
      }
      messages := messages + [Message(input.id, input.textual, input.validUntil, input.scheduleAt,
                                      input.withDeliveryReport, Pending, [Entry(Pending, now)], recipients.value)];
      result := Created;
    }

    /** Cancel: only the call that changes the row succeeds. */
    method Cancel(id: ExtId, now: int) returns (result: Cancellation)
      requires Valid()
      modifies this
      ensures Valid() && messages == AfterCancel(old(messages), id, now)
      ensures result.NotFound? <==> Row(old(messages), id).None?
      ensures result.Withdrawn? <==> !result.NotFound? && Cancellable(old(messages)[Row(old(messages), id).value])
      ensures result.Withdrawn? ==> result.message == messages[Row(old(messages), id).value]
    {
      var at := Find(id);
      if at.None? {
        return NotFound;
      }
      if messages[at.value].state == Failed || messages[at.value].state == Cancelled {
        return NotPending;
      }
      var m := messages[at.value];
      var recipients := Sweep(m.recipients, Cancelled, now);
      SweptKeyed(messages, at.value, Cancelled, now);
      messages := messages[at.value := m.(state := Cancelled, states := m.states + [Entry(Cancelled, now)],
                                          recipients := recipients)];
      result := Withdrawn(messages[at.value]);
    }

    /** The cascade of a cancel or an expiry onto the recipients of one message. */
    method Sweep(rs: seq<Recipient>, state: State, now: int) returns (swept: seq<Recipient>)
      ensures swept == SweptAll(rs, state, now)
    {
      swept := [];
      for k := 0 to |rs|
        invariant swept == SweptAll(rs[..k], state, now)
      {
        var r := rs[k];
        if Latest(r.states) != Failed && Latest(r.states) != state {
          r := r.(states := r.states + [Entry(state, now)]);
        }
        swept := swept + [r];
        assert rs[..k + 1][..k] == rs[..k];
      }
      assert rs[..|rs|] == rs;
    }

    method SetState(id: ExtId, state: State, now: int)
      requires Valid()
      modifies this
      ensures Valid() && messages == AfterSetState(old(messages), id, state, now)
    {
      var at := Find(id);
      if at.Some? && messages[at.value].state != state {
        var m := messages[at.value];
        messages := messages[at.value := m.(state := state, states := m.states + [Entry(state, now)])];
      }
    }

    method UpdateRecipientState(id: ExtId, phone: Phone, state: State, onlyPending: bool, ref: Option<int>, now: int)
      requires Valid() && onlyPending == state.Processed?
      modifies this
      ensures Valid() && messages == AfterRecipient(old(messages), id, phone, state, ref, now)
    {
      var at := Find(id);
      if at.None? {
        return;
      }
      var m := messages[at.value];
      var slot := FindRecipient(m.recipients, phone);
      if slot.None? {
        return;
      }
      var r := m.recipients[slot.value];
      if Latest(r.states) != state && (!onlyPending || Latest(r.states) == Pending) {
        r := r.(states := r.states + [Entry(state, now)]);
        if ref.Some? {
          r := r.(refId := ref);
        }
      }
      messages := messages[at.value := m.(recipients := m.recipients[slot.value := r])];
    }

    method SetRecipientProcessed(id: ExtId, phone: Phone, now: int)
      requires Valid()
      modifies this
      ensures Valid() && messages == AfterRecipient(old(messages), id, phone, Processed, None, now)
    {
      UpdateRecipientState(id, phone, Processed, true, None, now);
    }

    method SetRecipientSent(id: ExtId, phone: Phone, ref: int, now: int)
      requires Valid()
      modifies this
      ensures Valid() && messages == AfterRecipient(old(messages), id, phone, Sent, Some(ref), now)
    {
      UpdateRecipientState(id, phone, Sent, false, Some(ref), now);
    }

    method SetRecipientFailed(id: ExtId, phone: Phone, now: int)
      requires Valid()
      modifies this
      ensures Valid() && messages == AfterRecipient(old(messages), id, phone, Failed, None, now)
    {
      UpdateRecipientState(id, phone, Failed, false, None, now);
    }

    /** The nested SELECT ... ORDER BY mr.id ASC LIMIT 1 of the two report statements. */
    method FindAwaiting(ref: int, phone: string) returns (at: Option<Place>)
      ensures Oldest(messages, ref, phone, at)
    {
      for i := 0 to |messages|
        invariant NoMessageAwaits(messages, i, ref, phone)
      {
        var m := messages[i];
        for k := 0 to |m.recipients|
          invariant NoneAwaits(m, k, ref, phone)
        {
          if Awaits(m, m.recipients[k], ref, phone) {
            return Some(Place(i, k));
          }
        }
      }
      at := None;
    }

    /** SetRecipientDeliveredByRef and SetRecipientFailedByRef. */
    method SetRecipientByRef(ref: int, phone: string, state: State, now: int)
      returns (id: Option<ExtId>, ghost at: Option<Place>)
      requires Valid()
      modifies this
      ensures Valid() && Oldest(old(messages), ref, phone, at)
      ensures messages == Reported(old(messages), at, state, now)
      ensures id == if at.Some? then Some(old(messages)[at.value.message].id) else None
    {
      var found := FindAwaiting(ref, phone);
      at := found;
      if found.None? {
        return None, at;
      }
      var m := messages[found.value.message];
      var r := m.recipients[found.value.recipient];
      r := r.(states := r.states + [Entry(state, now)]);
      messages := messages[found.value.message := m.(recipients := m.recipients[found.value.recipient := r])];
      id := Some(m.id);
    }

    /** DequeueNextPending, up to the load: expiry first, then the claim of the oldest due
        message that is left. */
    method DequeueNextPending(now: int) returns (id: Option<ExtId>, ghost at: Option<nat>)
      requires Valid()
      modifies this
      ensures Valid() && NextDue(Expired(old(messages), now), now, at)
      ensures messages == Claimed(Expired(old(messages), now), at, now)
      ensures id == if at.Some? then Some(messages[at.value].id) else None
    {
      Expire(now);
      for i := 0 to |messages|
        invariant messages == Expired(old(messages), now) && Valid()
        invariant forall k :: 0 <= k < i ==> !Scheduled(messages[k], now)
      {
        var m := messages[i];
        if (m.state == Pending || m.state == Processed) && (m.scheduleAt.None? || m.scheduleAt.value <= now) {
          messages := messages[i := m.(state := Processed, states := m.states + [Entry(Processed, now)])];
          return Some(m.id), Some(i);
        }
      }
      id, at := None, None;
    }

    /** The expiry: recipients while their messages are still open, then the messages. */
    method Expire(now: int)
      requires Valid()
      modifies this
      ensures Valid() && messages == Expired(old(messages), now)
    {
      ghost var before := messages;
      ExpireRecipients(now);
      ExpireMessages(now);
      forall k | 0 <= k < |before| ensures messages[k] == ExpiredRow(before[k], now) {
      }
      assert messages == Expired(before, now);
      ExpiredKeyed(before, now);
    }

    method ExpireMessages(now: int)
      modifies this
      ensures |messages| == |old(messages)|
      ensures forall k :: 0 <= k < |messages| ==>
                messages[k] == if Overdue(old(messages)[k], now) then Entered(old(messages)[k], Failed, now)
                               else old(messages)[k]
    {
      ghost var before := messages;
      for i := 0 to |messages|
        invariant |messages| == |before|
        invariant forall k :: 0 <= k < i ==>
                    messages[k] == if Overdue(before[k], now) then Entered(before[k], Failed, now) else before[k]
        invariant forall k :: i <= k < |before| ==> messages[k] == before[k]
      {
        var m := messages[i];
        if (m.state == Pending || m.state == Processed) && m.validUntil.Some? && m.validUntil.value <= now {
          messages := messages[i := m.(state := Failed, states := m.states + [Entry(Failed, now)])];
        }
      }
    }

    method ExpireRecipients(now: int)
      modifies this
      ensures |messages| == |old(messages)|
      ensures forall k :: 0 <= k < |messages| ==>
                messages[k] == if Overdue(old(messages)[k], now)
                               then old(messages)[k].(recipients := SweptAll(old(messages)[k].recipients, Failed, now))
                               else old(messages)[k]
    {
      ghost var before := messages;
      for i := 0 to |messages|
        invariant |messages| == |before|
        invariant forall k :: 0 <= k < i && Overdue(before[k], now) ==>
                    messages[k] == before[k].(recipients := SweptAll(before[k].recipients, Failed, now))
        invariant forall k :: 0 <= k < |before| && (i <= k || !Overdue(before[k], now)) ==> messages[k] == before[k]
      {
        var m := messages[i];
        if (m.state == Pending || m.state == Processed) && m.validUntil.Some? && m.validUntil.value <= now {
          var recipients := Sweep(m.recipients, Failed, now);
          messages := messages[i := m.(recipients := recipients)];
        }
      }
    }
  }

  lemma ExpiredKeyed(t: Table, now: int)
    requires Keyed(t)
    ensures Keyed(Expired(t, now))
  {
  }
}
