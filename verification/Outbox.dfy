/**
  The outbox tables and their statements (internal/messages/repository.go, models.go and
  domain.go). Rows are listed in the order of their ids, which is the order of insertion:
  nothing deletes them. A message's recipients are inserted with it, so the id of a
  recipient orders first by message, then by place in the message.
 */
module Outbox {
  import opened Options

  datatype ExtId = ExtId(text: string)
  datatype Phone = Phone(text: string)

  datatype State = Pending | Cancelling | Cancelled | Processed | Sent | Delivered | Failed

  datatype Entry = Entry(state: State, at: int)

  /** A history is created with one entry and only appended to. */
  type History = s: seq<Entry> | s != [] witness [Entry(Pending, 0)]

  datatype Recipient = Recipient(phone: Phone, states: History, refId: Option<int>)

  datatype Message = Message(
    id: ExtId,
    textual: bool,
    validUntil: Option<int>,
    scheduleAt: Option<int>,
    withDeliveryReport: Option<bool>,
    state: State,
    states: History,
    recipients: seq<Recipient>)

  type Table = seq<Message>

  function Latest(states: History): State {
    states[|states| - 1].state
  }

  function Current(r: Recipient): State {
    Latest(r.states)
  }

  /** The states in which a message may be claimed, and a recipient is still to be sent to. */
  predicate Open(s: State) {
    s.Pending? || s.Processed?
  }

  function Currents(rs: seq<Recipient>): (states: seq<State>)
    ensures |states| == |rs| && forall j :: 0 <= j < |rs| ==> states[j] == Current(rs[j])
  {
    if rs == [] then [] else Currents(rs[..|rs| - 1]) + [Current(rs[|rs| - 1])]
  }

  /** toDomainMap: when each state was FIRST entered. */
  function FirstTimes(states: seq<Entry>): (times: map<State, int>)
    ensures forall s :: s in times <==> exists i :: 0 <= i < |states| && states[i].state == s
  {
    if states == [] then map[]
    else
      var before, last := FirstTimes(states[..|states| - 1]), states[|states| - 1];
      assert states == states[..|states| - 1] + [last];
      if last.state in before then before else before[last.state := last.at]
  }

  /** What a history has told stays told, however it grows. */
  lemma {:induction false} FirstTimesStay(states: seq<Entry>, longer: seq<Entry>, s: State)
    requires states <= longer && s in FirstTimes(states)
    ensures s in FirstTimes(longer) && FirstTimes(longer)[s] == FirstTimes(states)[s]
  {
    if |states| < |longer| {
      FirstTimesStay(states, longer[..|longer| - 1], s);
    } else {
      assert states == longer;
    }
  }

  // ----- statements on one row -----

  function Entered(m: Message, state: State, now: int): Message {
    m.(state := state, states := m.states + [Entry(state, now)])
  }

  /** SetState is guarded by the same state only. */
  function StateSet(m: Message, state: State, now: int): Message {
    if m.state == state then m else Entered(m, state, now)
  }

  /** updateRecipientState, with the extra guard of SetRecipientProcessed. */
  function Moved(r: Recipient, state: State, ref: Option<int>, now: int): Recipient {
    if Current(r) == state || (state.Processed? && !Current(r).Pending?) then r
    else r.(states := r.states + [Entry(state, now)], refId := if ref.Some? then ref else r.refId)
  }

  function RecipientSet(m: Message, k: nat, state: State, ref: Option<int>, now: int): Message
    requires k < |m.recipients|
  {
    m.(recipients := m.recipients[k := Moved(m.recipients[k], state, ref, now)])
  }

  /** What a cancel or an expiry does to a recipient. */
  function Swept(r: Recipient, state: State, now: int): Recipient {
    if Current(r).Failed? || Current(r) == state then r else r.(states := r.states + [Entry(state, now)])
  }

  function SweptAll(rs: seq<Recipient>, state: State, now: int): (swept: seq<Recipient>)
    ensures |swept| == |rs| && forall j :: 0 <= j < |rs| ==> swept[j] == Swept(rs[j], state, now)
  {
    if rs == [] then [] else SweptAll(rs[..|rs| - 1], state, now) + [Swept(rs[|rs| - 1], state, now)]
  }

  predicate Cancellable(m: Message) {
    !m.state.Failed? && !m.state.Cancelled?
  }

  function CancelledRow(m: Message, now: int): Message {
    if Cancellable(m) then Entered(m, Cancelled, now).(recipients := SweptAll(m.recipients, Cancelled, now)) else m
  }

  predicate Overdue(m: Message, now: int) {
    Open(m.state) && m.validUntil.Some? && m.validUntil.value <= now
  }

  function ExpiredRow(m: Message, now: int): Message {
    if Overdue(m, now) then Entered(m, Failed, now).(recipients := SweptAll(m.recipients, Failed, now)) else m
  }

  // ----- statements on the tables -----

  predicate UniqueIds(t: Table) {
    forall i, j :: 0 <= i < j < |t| ==> t[i].id != t[j].id
  }

  predicate UniquePhones(rs: seq<Recipient>) {
    forall i, j :: 0 <= i < j < |rs| ==> rs[i].phone != rs[j].phone
  }

  predicate Keyed(t: Table) {
    UniqueIds(t) && forall i :: 0 <= i < |t| ==> UniquePhones(t[i].recipients)
  }

  /** The row of an ext_id. */
  function Row(t: Table, id: ExtId): (at: Option<nat>)
    ensures at.Some? ==> at.value < |t| && t[at.value].id == id
    ensures at.None? ==> forall i :: 0 <= i < |t| ==> t[i].id != id
  {
    if t == [] then None
    else if t[|t| - 1].id == id then Some(|t| - 1)
    else Row(t[..|t| - 1], id)
  }

  function Slot(rs: seq<Recipient>, phone: Phone): (at: Option<nat>)
    ensures at.Some? ==> at.value < |rs| && rs[at.value].phone == phone
    ensures at.None? ==> forall j :: 0 <= j < |rs| ==> rs[j].phone != phone
  {
    if rs == [] then None
    else if rs[|rs| - 1].phone == phone then Some(|rs| - 1)
    else Slot(rs[..|rs| - 1], phone)
  }

  function AfterSetState(t: Table, id: ExtId, state: State, now: int): Table {
    match Row(t, id)
    case None => t
    case Some(i) => t[i := StateSet(t[i], state, now)]
  }

  function AfterRecipient(t: Table, id: ExtId, phone: Phone, state: State, ref: Option<int>, now: int): Table {
    match Row(t, id)
    case None => t
    case Some(i) =>
      match Slot(t[i].recipients, phone)
      case None => t
      case Some(k) => t[i := RecipientSet(t[i], k, state, ref, now)]
  }

  function AfterCancel(t: Table, id: ExtId, now: int): Table {
    match Row(t, id)
    case None => t
    case Some(i) => t[i := CancelledRow(t[i], now)]
  }

  function Expired(t: Table, now: int): (u: Table)
    ensures |u| == |t| && forall i :: 0 <= i < |t| ==> u[i] == ExpiredRow(t[i], now)
  {
    if t == [] then [] else Expired(t[..|t| - 1], now) + [ExpiredRow(t[|t| - 1], now)]
  }

  predicate Scheduled(m: Message, now: int) {
    Open(m.state) && (m.scheduleAt.Some? ==> m.scheduleAt.value <= now)
  }

  /** The row a claim takes: the lowest id that is open and due. */
  predicate NextDue(t: Table, now: int, at: Option<nat>) {
    match at
    case None => forall i :: 0 <= i < |t| ==> !Scheduled(t[i], now)
    case Some(n) => n < |t| && Scheduled(t[n], now) && forall i :: 0 <= i < n ==> !Scheduled(t[i], now)
  }

  function Claimed(t: Table, at: Option<nat>, now: int): Table
    requires at.Some? ==> at.value < |t|
  {
    if at.None? then t else t[at.value := Entered(t[at.value], Processed, now)]
  }

  /** replace(phone, '+', ''). */
  function Bare(text: string): (digits: string)
    ensures '+' !in digits
  {
    if text == "" then "" else (if text[0] == '+' then "" else [text[0]]) + Bare(text[1..])
  }

  /** It drops the plus signs and keeps all else in order. */
  lemma {:induction false} BareDrops(before: string, after: string)
    ensures Bare(before + "+" + after) == Bare(before) + Bare(after)
    ensures '+' !in before ==> Bare(before) == before
  {
    if before == "" {
      assert (before + "+" + after)[1..] == after;
    } else {
      assert (before + "+" + after)[1..] == before[1..] + "+" + after;
      assert before == [before[0]] + before[1..];
      BareDrops(before[1..], after);
    }
  }

  /** A delivery report is owed to a recipient that is Sent under that reference. */
  predicate Awaits(m: Message, r: Recipient, ref: int, phone: string) {
    && r.refId == Some(ref)
    && Current(r).Sent?
    && m.withDeliveryReport != Some(false)
    && (phone == "" || Bare(r.phone.text) == phone)
  }

  datatype Place = Place(message: nat, recipient: nat)

  predicate Exists(t: Table, p: Place) {
    p.message < |t| && p.recipient < |t[p.message].recipients|
  }

  predicate NoneAwaits(m: Message, until: nat, ref: int, phone: string)
    requires until <= |m.recipients|
  {
    forall j :: 0 <= j < until ==> !Awaits(m, m.recipients[j], ref, phone)
  }

  predicate NoMessageAwaits(t: Table, until: nat, ref: int, phone: string)
    requires until <= |t|
  {
    forall i :: 0 <= i < until ==> NoneAwaits(t[i], |t[i].recipients|, ref, phone)
  }

  /** The recipient a report goes to: the oldest that awaits it. */
  predicate Oldest(t: Table, ref: int, phone: string, at: Option<Place>) {
    match at
    case None => NoMessageAwaits(t, |t|, ref, phone)
    case Some(p) =>
      && Exists(t, p)
      && Awaits(t[p.message], t[p.message].recipients[p.recipient], ref, phone)
      && NoneAwaits(t[p.message], p.recipient, ref, phone)
      && NoMessageAwaits(t, p.message, ref, phone)
  }

  function Reported(t: Table, at: Option<Place>, state: State, now: int): Table
    requires at.Some? ==> Exists(t, at.value)
  {
    match at
    case None => t
    case Some(p) =>
      var m := t[p.message];
      var r := m.recipients[p.recipient];
      t[p.message := m.(recipients := m.recipients[p.recipient := r.(states := r.states + [Entry(state, now)])])]
  }

  // ----- what Create inserts -----

  datatype Input = Input(
    id: ExtId,
    textual: bool,
    validUntil: Option<int>,
    scheduleAt: Option<int>,
    withDeliveryReport: Option<bool>,
    phones: seq<Phone>)

  function NewRecipients(phones: seq<Phone>, now: int): (rs: seq<Recipient>)
    ensures |rs| == |phones|
    ensures forall j :: 0 <= j < |phones| ==> rs[j] == Recipient(phones[j], [Entry(Pending, now)], None)
  {
    if phones == [] then []
    else NewRecipients(phones[..|phones| - 1], now) + [Recipient(phones[|phones| - 1], [Entry(Pending, now)], None)]
  }

  function NewMessage(input: Input, now: int): Message {
    Message(input.id, input.textual, input.validUntil, input.scheduleAt, input.withDeliveryReport,
            Pending, [Entry(Pending, now)], NewRecipients(input.phones, now))
  }
}
