/**
  The AT command layer (internal/modem/sms.go and store.go): the drain barrier and the
  cached store selection, with the trace of everything that went over the wire. What the
  modem answers is an input; every section that runs under the mutex is one step.
 */
module CommandLayer {
  import opened Options
  import opened Text
  import opened StoreParsing

  datatype Store = Store(name: string)

  /** The empty name: the modem's own preferred store. */
  const NONE := Store("")

  datatype StoreOp = Read(index: nat) | Delete(index: nat) | List

  /** What goes over the wire; a store command carries the store its caller named. */
  datatype Request =
    | Drain
    | Plain(text: string)
    | Select(store: Store)
    | OnStore(op: StoreOp, wanted: Store)
    | Submit(length: nat)

  /** How an exchange ends: with lines, by its deadline, with a status of the modem (ERROR,
      +CME, +CMS), or with any other error of the library. */
  datatype Answer = Lines(lines: seq<string>) | Deadline | Refused | Broken

  /** took: the modem acted on the request, whatever reached the gateway. */
  datatype Reply = Reply(answer: Answer, took: bool)

  datatype Event = Event(request: Request, reply: Reply)

  datatype State = State(pendingDrain: bool, initialized: bool, selected: Store, wire: seq<Event>)

  datatype Error =
    | ModemTimeout | InitFailed | SendFailed | Library | NoStoredLine | NoReference | SIMNotReady | NotStarted
    | Encoding | EmptyText | TooLong | Cancelled

  datatype Result<T> = Ok(value: T) | Err(error: Error)

  // ----- one command through the barrier -----

  /** The drain itself timed out: the whole call fails and the barrier stays. */
  predicate Blocked(s: State, drain: Reply) {
    s.pendingDrain && drain.answer.Deadline?
  }

  function AfterDrain(s: State, drain: Reply): State {
    if s.pendingDrain then
      s.(wire := s.wire + [Event(Drain, drain)], pendingDrain := drain.answer.Deadline?)
    else s
  }

  function AfterExec(s: State, request: Request, drain: Reply, reply: Reply): State {
    var drained := AfterDrain(s, drain);
    if Blocked(s, drain) then drained
    else drained.(wire := drained.wire + [Event(request, reply)], pendingDrain := reply.answer.Deadline?)
  }

  /** mapCommandError and mapSMSError. */
  function Mapped(answer: Answer, sms: bool): Error
    requires !answer.Lines?
  {
    match answer
    case Deadline => ModemTimeout
    case Refused => if sms then SendFailed else InitFailed
    case Broken => Library
  }

  /** What an exchange does: a drain first if the barrier is set, the command unless that
      drain timed out, and the barrier set exactly if the last of them did. */
  lemma ExecExact(s: State, request: Request, drain: Reply, reply: Reply)
    ensures var n := AfterExec(s, request, drain, reply);
            && n.initialized == s.initialized && n.selected == s.selected
            && if s.pendingDrain && drain.answer.Deadline?
               then n.wire == s.wire + [Event(Drain, drain)] && n.pendingDrain
               else
                 && n.wire == s.wire + (if s.pendingDrain then [Event(Drain, drain)] else []) + [Event(request, reply)]
                 && n.pendingDrain == reply.answer.Deadline?
  {
  }

  /** What a caller gets, answer by answer; a drain that times out is its own answer. */
  lemma OutcomeExact(s: State, sms: bool, drain: Reply, reply: Reply)
    ensures Outcome(s, sms, drain, reply) ==
              if s.pendingDrain && drain.answer.Deadline? then Err(ModemTimeout)
              else match reply.answer
                   case Lines(lines) => Ok(lines)
                   case Deadline => Err(ModemTimeout)
                   case Refused => Err(if sms then SendFailed else InitFailed)
                   case Broken => Err(Library)
  {
  }

  function Outcome(s: State, sms: bool, drain: Reply, reply: Reply): Result<seq<string>> {
    if Blocked(s, drain) then Err(ModemTimeout)
    else if reply.answer.Lines? then Ok(reply.answer.lines)
    else Err(Mapped(reply.answer, sms))
  }

  // ----- a command on a store -----

  predicate Cached(s: State, mem: Store) {
    mem == NONE || mem == s.selected
  }

  function AfterSelect(s: State, mem: Store, drain: Reply, reply: Reply): State {
    if Cached(s, mem) then s
    else
      var next := AfterExec(s, Select(mem), drain, reply);
      if Outcome(s, false, drain, reply).Ok? then next.(selected := mem) else next
  }

  predicate SelectOk(s: State, mem: Store, drain: Reply, reply: Reply) {
    Cached(s, mem) || Outcome(s, false, drain, reply).Ok?
  }

  /** The replies to a store command: to its select, and to itself. */
  datatype Env = Env(selectDrain: Reply, select: Reply, drain: Reply, reply: Reply)

  function AfterStore(s: State, op: StoreOp, mem: Store, env: Env): State {
    var next := AfterSelect(s, mem, env.selectDrain, env.select);
    if SelectOk(s, mem, env.selectDrain, env.select) then AfterExec(next, OnStore(op, mem), env.drain, env.reply)
    else next
  }

  function StoreOutcome(s: State, mem: Store, env: Env): Result<seq<string>> {
    if SelectOk(s, mem, env.selectDrain, env.select) then
      Outcome(AfterSelect(s, mem, env.selectDrain, env.select), false, env.drain, env.reply)
    else Err(Outcome(s, false, env.selectDrain, env.select).error)
  }

  /** No +CPMS goes out for a store that is selected already, nor for the empty name; and a
      store is remembered exactly if its +CPMS succeeded. */
  lemma SelectExact(s: State, mem: Store, drain: Reply, reply: Reply)
    ensures var n := AfterSelect(s, mem, drain, reply);
            if mem == NONE || mem == s.selected then n == s
            else
              var exchange := AfterExec(s, Select(mem), drain, reply);
              n == exchange.(selected := if Outcome(s, false, drain, reply).Ok? then mem else s.selected)
  {
  }

  /** The command on the store goes out right behind a selection that is confirmed or was not
      needed, and not at all behind one that failed, whose error is then the result. */
  lemma StoreExact(s: State, op: StoreOp, mem: Store, env: Env)
    ensures var selected := AfterSelect(s, mem, env.selectDrain, env.select);
            if mem == NONE || mem == s.selected || Outcome(s, false, env.selectDrain, env.select).Ok? then
              && AfterStore(s, op, mem, env) == AfterExec(selected, OnStore(op, mem), env.drain, env.reply)
              && StoreOutcome(s, mem, env) == Outcome(selected, false, env.drain, env.reply)
            else
              && AfterStore(s, op, mem, env) == selected
              && StoreOutcome(s, mem, env) == Err(Outcome(s, false, env.selectDrain, env.select).error)
  {
  }

  // ----- runs: the sections under the mutex, in any order -----

  datatype Section =
    | Command(text: string, drain: Reply, reply: Reply)
    | SubmitPart(length: nat, drain: Reply, reply: Reply)
    | StoreCommand(op: StoreOp, mem: Store, env: Env)
    | Initialized

  /** No part is submitted to a modem that was never initialized. */
  predicate Allowed(s: State, section: Section) {
    section.SubmitPart? ==> s.initialized
  }

  function AfterSection(s: State, section: Section): State {
    match section
    case Command(text, drain, reply) => AfterExec(s, Plain(text), drain, reply)
    case SubmitPart(length, drain, reply) => AfterExec(s, Submit(length), drain, reply)
    case StoreCommand(op, mem, env) => AfterStore(s, op, mem, env)
    case Initialized => s.(initialized := true)
  }

  const FRESH := State(false, false, NONE, [])

  function Run(sections: seq<Section>): State {
    if sections == [] then FRESH
    else AfterSection(Run(sections[..|sections| - 1]), sections[|sections| - 1])
  }

  predicate Lawful(sections: seq<Section>) {
    if sections == [] then true
    else
      var before := sections[..|sections| - 1];
      Lawful(before) && Allowed(Run(before), sections[|sections| - 1])
  }

  // smsMaxParts
  const MAX_PARTS: nat := 255

  datatype Sent = Sent(refs: seq<int>, failing: Option<nat>, error: Option<Error>)

  /** partialRefs: a part of several keeps the references of the parts before it. */
  function PartialRefs(refs: seq<int>, failing: nat, total: nat, cause: Error): Sent {
    if total == 1 then Sent([], None, Some(cause)) else Sent(refs, Some(failing), Some(cause))
  }
}
