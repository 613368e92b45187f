/** The process-local circuit that stops Redis work after a fatal provider error. */
module RedisCircuit {
  import opened Wrappers

  datatype State = CLOSED | OPEN

  /** What the circuit does: errors seen, hooks called, reminders logged, Redis reached. */
  datatype Event =
    | Fatal(at: int)
    | OpenHook(at: int)
    | RecoverHook
    | Reminder(at: int)
    | Contact(bypass: bool, whileOpen: bool)

  /** Those events, oldest innermost. */
  datatype History = Nothing | Then(before: History, last: Event)

  /** The variables of the circuit, with the history of what the process did. */
  datatype Circuit = Circuit(
    state: State,
    opening: Option<Opening>,
    openTransitionCount: nat,
    suppressedWhileOpen: nat,
    lastReminderAt: int,
    history: History)

  datatype Opening = Opening(at: int, reason: string)

  /** The circuit, the last ping's time and answer, and the number of jobs added. */
  datatype Process = Process(circuit: Circuit, lastPingAt: int, lastPingOk: bool, added: nat)

  const PING_CACHE_MS := 15000

  /** An error observed; whether its message is a fatal provider reply is decided by a pattern. */
  datatype RedisError = RedisError(message: string, fatal: bool)

  /** What happens once a ping gets past the circuit and the cache. */
  datatype Reply = RemoteBlocked | ConfigurationThrows | BadUrl | Pong(ok: bool) | Fails(error: RedisError)

  datatype Failure = CircuitOpen | RedisUnavailable | Thrown

  function Cut(message: string): string {
    if |message| <= 240 then message else message[..240]
  }

  function Reached(c: Circuit, bypass: bool): Circuit {
    c.(history := Then(c.history, Contact(bypass, c.state == OPEN)))
  }

  function Reminded(c: Circuit, now: int, reminderMs: int): Circuit {
    if now - c.lastReminderAt < reminderMs then c
    else c.(lastReminderAt := now, history := Then(c.history, Reminder(now)))
  }

  /** The call that opens the circuit returns true. */
  predicate Opens(c: Circuit, error: RedisError) {
    error.fatal && c.state == CLOSED
  }

  function Noted(c: Circuit, error: RedisError, now: int, reminderMs: int): Circuit {
    if !error.fatal then c
    else if c.state == OPEN then
      Reminded(c.(suppressedWhileOpen := c.suppressedWhileOpen + 1, history := Then(c.history, Fatal(now))), now, reminderMs)
    else
      Circuit(OPEN, Some(Opening(now, Cut(error.message))), c.openTransitionCount + 1, 0, now,
              Then(Then(c.history, Fatal(now)), OpenHook(now)))
  }

  function Cleared(c: Circuit): Circuit {
    if c.state != OPEN then c
    else c.(state := CLOSED, opening := None, suppressedWhileOpen := 0, history := Then(c.history, RecoverHook))
  }

  /** Neither the circuit nor the cached answer ends the ping early. */
  predicate GoesOut(p: Process, bypass: bool, now: int) {
    bypass || (p.circuit.state == CLOSED && now - p.lastPingAt >= PING_CACHE_MS)
  }

  /** The circuit after a ping whose reply arrives at `later`. */
  function CircuitAfterPing(c: Circuit, bypass: bool, reply: Reply, later: int, reminderMs: int): Circuit {
    if reply.Pong? then Reached(c, bypass)
    else if reply.Fails? then Noted(Reached(c, bypass), reply.error, later, reminderMs)
    else c
  }

  /** A ping that starts at `now` and whose reply arrives at `later`. */
  function Pinged(p: Process, bypass: bool, reply: Reply, now: int, later: int, reminderMs: int): Process {
    if !GoesOut(p, bypass, now) || reply.ConfigurationThrows? then p
    else Process(CircuitAfterPing(p.circuit, bypass, reply, later, reminderMs), now, reply.Pong? && reply.ok, p.added)
  }

  function PingAnswer(p: Process, bypass: bool, reply: Reply, now: int): Result<bool, Failure> {
    if !bypass && p.circuit.state == OPEN then Ok(false)
    else if !GoesOut(p, bypass, now) then Ok(p.lastPingOk)
    else match reply
      case RemoteBlocked => Ok(false)
      case ConfigurationThrows => Err(Thrown)
      case BadUrl => Ok(false)
      case Pong(ok) => Ok(ok)
      case Fails(_) => Ok(false)
  }

  /** The outcome of the checks before a job is added. */
  function Allowed(p: Process, reply: Reply, now: int): Result<(), Failure> {
    if p.circuit.state == OPEN then Err(CircuitOpen)
    else
      var up := PingAnswer(p, false, reply, now);
      if up.Err? then Err(up.error) else if up.value then Ok(()) else Err(RedisUnavailable)
  }

  /** The addition itself, which reaches Redis whatever the circuit says. */
  function Added(p: Process): Process {
    p.(circuit := Reached(p.circuit, false), added := p.added + 1)
  }

  /** The checks, and the addition when they allow it, in one go. */
  function Enqueued(p: Process, reply: Reply, now: int, later: int, reminderMs: int): Process {
    var pinged := Pinged(p, false, reply, now, later, reminderMs);
    if Allowed(p, reply, now).Ok? then Added(pinged) else pinged
  }

  function Initial(): Process {
    Process(Circuit(CLOSED, None, 0, 0, 0, Nothing), 0, false, 0)
  }

  class RedisGate {
    const reminderMs: int
    var state: State
    var openedAt: Option<int>
    var openReason: string
    var openTransitionCount: nat
    var suppressedWhileOpen: nat
    var lastReminderAt: int
    var lastPingAt: int
    var lastPingOk: bool
    var added: nat
    ghost var history: History

    ghost function View(): Process
      reads this
    {
      Process(
        Circuit(state, if openedAt.Some? then Some(Opening(openedAt.value, openReason)) else None,
                openTransitionCount, suppressedWhileOpen, lastReminderAt, history),
        lastPingAt, lastPingOk, added)
    }

    constructor (reminder: int)
      ensures View() == Initial() && reminderMs == reminder
    {
      reminderMs := reminder;
      state, openedAt, openReason := CLOSED, None, "";
      openTransitionCount, suppressedWhileOpen, lastReminderAt := 0, 0, 0;
      lastPingAt, lastPingOk, added := 0, false, 0;
      history := Nothing;
    }

    method NoteRedisError(error: RedisError, now: int) returns (opens: bool)
      modifies this
      ensures View() == old(View()).(circuit := Noted(old(View()).circuit, error, now, reminderMs))
      ensures opens == Opens(old(View()).circuit, error)
    {
      if !error.fatal {
        return false;
      }
      history := Then(history, Fatal(now));
      if state == OPEN {
        suppressedWhileOpen := suppressedWhileOpen + 1;
        MaybeRemind(now);
        return false;
      }
      state := OPEN;
      openedAt := Some(now);
      openReason := if |error.message| <= 240 then error.message else error.message[..240];
      openTransitionCount := openTransitionCount + 1;
      suppressedWhileOpen := 0;
      lastReminderAt := now;
      history := Then(history, OpenHook(now));
      return true;
    }

    method MaybeRemind(now: int)
      modifies this
      ensures View() == old(View()).(circuit := Reminded(old(View()).circuit, now, reminderMs))
    {
      if now - lastReminderAt < reminderMs {
        return;
      }
      lastReminderAt := now;
      history := Then(history, Reminder(now));
    }

    method ClearRedisCircuit() returns (closes: bool)
      modifies this
      ensures View() == old(View()).(circuit := Cleared(old(View()).circuit))
      ensures closes == (old(state) == OPEN)
    {
      if state != OPEN {
        return false;
      }
      state := CLOSED;
      openedAt := None;
      openReason := "";
      suppressedWhileOpen := 0;
      history := Then(history, RecoverHook);
      return true;
    }

    method PingRedis(bypass: bool, reply: Reply, now: int, later: int) returns (up: Result<bool, Failure>)
      modifies this
      ensures View() == Pinged(old(View()), bypass, reply, now, later, reminderMs)
      ensures up == PingAnswer(old(View()), bypass, reply, now)
    {
      if !bypass && state == OPEN {
        return Ok(false);
      }
      if !bypass && now - lastPingAt < PING_CACHE_MS {
        return Ok(lastPingOk);
      }
      match reply {
        case ConfigurationThrows =>
          return Err(Thrown);
        case RemoteBlocked | BadUrl =>
          lastPingAt, lastPingOk := now, false;
          return Ok(false);
        case Pong(ok) =>
          history := Then(history, Contact(bypass, state == OPEN));
          lastPingOk := ok;
          lastPingAt := now;
          return Ok(ok);
        case Fails(error) =>
          history := Then(history, Contact(bypass, state == OPEN));
          var _ := NoteRedisError(error, later);
          lastPingOk := false;
          lastPingAt := now;
          return Ok(false);
      }
    }

    method EnqueueAgentRunJob(reply: Reply, now: int, later: int) returns (queued: Result<(), Failure>)
      modifies this
      ensures View() == Enqueued(old(View()), reply, now, later, reminderMs)
      ensures queued == Allowed(old(View()), reply, now)
    {
      if state == OPEN {
        return Err(CircuitOpen);
      }
      var up := PingRedis(false, reply, now, later);
      if up.Err? {
        return Err(up.error);
      }
      if !up.value {
        return Err(RedisUnavailable);
      }
      history := Then(history, Contact(false, state == OPEN));
      added := added + 1;
      return Ok(());
    }
  }

  datatype Action =
    | Note(error: RedisError)
    | Clear
    | Ping(bypass: bool, reply: Reply)
    | Enqueue(reply: Reply)

  /** Time passes, then one call runs to its end, which takes a while. */
  datatype Step = Step(elapsed: nat, action: Action, takes: nat)

  datatype World = World(process: Process, now: int)

  function Act(p: Process, action: Action, now: int, later: int, reminderMs: int): Process {
    match action
    case Note(error) => p.(circuit := Noted(p.circuit, error, now, reminderMs))
    case Clear => p.(circuit := Cleared(p.circuit))
    case Ping(bypass, reply) => Pinged(p, bypass, reply, now, later, reminderMs)
    case Enqueue(reply) => Enqueued(p, reply, now, later, reminderMs)
  }

  function Next(w: World, step: Step, reminderMs: int): World {
    var now := w.now + step.elapsed;
    World(Act(w.process, step.action, now, now + step.takes, reminderMs), now + step.takes)
  }

  function Run(start: nat, steps: seq<Step>, reminderMs: int): World
    decreases |steps|
  {
    if steps == [] then World(Initial(), start)
    else Next(Run(start, steps[..|steps| - 1], reminderMs), steps[|steps| - 1], reminderMs)
  }

  /** The circuit at the end of a run. */
  function CircuitAfter(start: nat, steps: seq<Step>, reminderMs: int): Circuit {
    Run(start, steps, reminderMs).process.circuit
  }

  /** The history ends in an open circuit: its last hook is an open hook. */
  predicate LeftOpen(h: History) {
    h.Then? && (h.last.OpenHook? || (!h.last.RecoverHook? && LeftOpen(h.before)))
  }

  /** Hooks alternate, beginning with an open hook. */
  predicate Alternates(h: History) {
    h.Then? ==>
      && Alternates(h.before)
      && (h.last.OpenHook? ==> !LeftOpen(h.before))
      && (h.last.RecoverHook? ==> LeftOpen(h.before))
  }

  function Openings(h: History): nat {
    if h.Nothing? then 0 else Openings(h.before) + (if h.last.OpenHook? then 1 else 0)
  }

  function Recoveries(h: History): nat {
    if h.Nothing? then 0 else Recoveries(h.before) + (if h.last.RecoverHook? then 1 else 0)
  }

  /** Fatal errors seen since the open hook, if the circuit is left open. */
  function FatalSinceOpening(h: History): nat {
    if !LeftOpen(h) || h.last.OpenHook? then 0
    else FatalSinceOpening(h.before) + (if h.last.Fatal? then 1 else 0)
  }

  predicate IsNotice(e: Event) {
    e.OpenHook? || e.Reminder?
  }

  /** Every opening and reminder is no later than `at`. */
  predicate NoticesBefore(h: History, at: int) {
    h.Then? ==> NoticesBefore(h.before, at) && (IsNotice(h.last) ==> h.last.at <= at)
  }

  /** Every reminder comes at least the interval after every earlier opening and reminder. */
  predicate RemindersApart(h: History, reminderMs: int) {
    h.Then? ==>
      && RemindersApart(h.before, reminderMs)
      && (h.last.Reminder? ==> NoticesBefore(h.before, h.last.at - reminderMs))
  }

  /** Nothing but a recovery probe reaches Redis while the circuit is open. */
  predicate ContactsGated(h: History) {
    h.Then? ==> ContactsGated(h.before) && (h.last.Contact? && !h.last.bypass ==> !h.last.whileOpen)
  }

  ghost predicate Sound(c: Circuit, now: int, reminderMs: int) {
    && (c.state == OPEN <==> LeftOpen(c.history))
    && (c.opening.Some? <==> c.state == OPEN)
    && Alternates(c.history)
    && c.openTransitionCount == Openings(c.history)
    && c.suppressedWhileOpen == FatalSinceOpening(c.history)
    && RemindersApart(c.history, reminderMs)
    && NoticesBefore(c.history, c.lastReminderAt)
    && c.lastReminderAt <= now
    && ContactsGated(c.history)
  }

  lemma {:induction false} LaterBound(h: History, at: int, later: int)
    requires NoticesBefore(h, at) && at <= later
    ensures NoticesBefore(h, later)
  {
    if h.Then? {
      LaterBound(h.before, at, later);
    }
  }

  lemma TimePasses(c: Circuit, now: int, later: int, reminderMs: int)
    requires Sound(c, now, reminderMs) && now <= later
    ensures Sound(c, later, reminderMs)
  {
  }

  lemma ContactKeepsSound(c: Circuit, bypass: bool, now: int, reminderMs: int)
    requires Sound(c, now, reminderMs) && (bypass || c.state == CLOSED)
    ensures Sound(Reached(c, bypass), now, reminderMs)
  {
  }

  lemma NoteKeepsSound(c: Circuit, error: RedisError, now: int, reminderMs: int)
    requires Sound(c, now, reminderMs)
    ensures Sound(Noted(c, error, now, reminderMs), now, reminderMs)
  {
    LaterBound(c.history, c.lastReminderAt, now);
    if now - c.lastReminderAt >= reminderMs {
      LaterBound(c.history, c.lastReminderAt, now - reminderMs);
    }
  }

  lemma ClearKeepsSound(c: Circuit, now: int, reminderMs: int)
    requires Sound(c, now, reminderMs)
    ensures Sound(Cleared(c), now, reminderMs)
  {
  }

  lemma PingKeepsSound(c: Circuit, bypass: bool, reply: Reply, later: int, reminderMs: int)
    requires Sound(c, later, reminderMs) && (bypass || c.state == CLOSED)
    ensures Sound(CircuitAfterPing(c, bypass, reply, later, reminderMs), later, reminderMs)
  {
    ContactKeepsSound(c, bypass, later, reminderMs);
    if reply.Fails? {
      NoteKeepsSound(Reached(c, bypass), reply.error, later, reminderMs);
    }
  }

  /** A ping that answers leaves the circuit closed: only a failing one can open it. */
  lemma AnsweredPingStaysClosed(p: Process, reply: Reply, now: int, later: int, reminderMs: int)
    requires Allowed(p, reply, now).Ok?
    ensures p.circuit.state == CLOSED && Pinged(p, false, reply, now, later, reminderMs).circuit.state == CLOSED
  {
  }

  lemma PingedIsSound(p: Process, bypass: bool, reply: Reply, now: int, later: int, reminderMs: int)
    requires Sound(p.circuit, later, reminderMs)
    ensures Sound(Pinged(p, bypass, reply, now, later, reminderMs).circuit, later, reminderMs)
  {
    if GoesOut(p, bypass, now) {
      PingKeepsSound(p.circuit, bypass, reply, later, reminderMs);
    }
  }

  lemma EnqueuedIsSound(p: Process, reply: Reply, now: int, later: int, reminderMs: int)
    requires Sound(p.circuit, later, reminderMs)
    ensures Sound(Enqueued(p, reply, now, later, reminderMs).circuit, later, reminderMs)
  {
    PingedIsSound(p, false, reply, now, later, reminderMs);
    if Allowed(p, reply, now).Ok? {
      AnsweredPingStaysClosed(p, reply, now, later, reminderMs);
      ContactKeepsSound(Pinged(p, false, reply, now, later, reminderMs).circuit, false, later, reminderMs);
    }
  }

  lemma NoteStepKeepsSound(w: World, step: Step, reminderMs: int)
    requires Sound(w.process.circuit, w.now, reminderMs) && step.action.Note?
    ensures Sound(Next(w, step, reminderMs).process.circuit, Next(w, step, reminderMs).now, reminderMs)
  {
    var c, now := w.process.circuit, w.now + step.elapsed;
    var later := now + step.takes;
    TimePasses(c, w.now, now, reminderMs);
    NoteKeepsSound(c, step.action.error, now, reminderMs);
    TimePasses(Noted(c, step.action.error, now, reminderMs), now, later, reminderMs);
  }

  lemma ClearStepKeepsSound(w: World, step: Step, reminderMs: int)
    requires Sound(w.process.circuit, w.now, reminderMs) && step.action.Clear?
    ensures Sound(Next(w, step, reminderMs).process.circuit, Next(w, step, reminderMs).now, reminderMs)
  {
    var c, now := w.process.circuit, w.now + step.elapsed;
    var later := now + step.takes;
    TimePasses(c, w.now, later, reminderMs);
    ClearKeepsSound(c, later, reminderMs);
  }

  lemma PingStepKeepsSound(w: World, step: Step, reminderMs: int)
    requires Sound(w.process.circuit, w.now, reminderMs) && step.action.Ping?
    ensures Sound(Next(w, step, reminderMs).process.circuit, Next(w, step, reminderMs).now, reminderMs)
  {
    var c, now := w.process.circuit, w.now + step.elapsed;
    var later := now + step.takes;
    TimePasses(c, w.now, later, reminderMs);
    PingedIsSound(w.process, step.action.bypass, step.action.reply, now, later, reminderMs);
  }

  lemma EnqueueStepKeepsSound(w: World, step: Step, reminderMs: int)
    requires Sound(w.process.circuit, w.now, reminderMs) && step.action.Enqueue?
    ensures Sound(Next(w, step, reminderMs).process.circuit, Next(w, step, reminderMs).now, reminderMs)
  {
    var c, now := w.process.circuit, w.now + step.elapsed;
    var later := now + step.takes;
    TimePasses(c, w.now, later, reminderMs);
    EnqueuedIsSound(w.process, step.action.reply, now, later, reminderMs);
  }

  lemma StepKeepsSound(w: World, step: Step, reminderMs: int)
    requires Sound(w.process.circuit, w.now, reminderMs)
    ensures Sound(Next(w, step, reminderMs).process.circuit, Next(w, step, reminderMs).now, reminderMs)
  {
    match step.action
    case Note(_) => NoteStepKeepsSound(w, step, reminderMs);
    case Clear => ClearStepKeepsSound(w, step, reminderMs);
    case Ping(_, _) => PingStepKeepsSound(w, step, reminderMs);
    case Enqueue(_) => EnqueueStepKeepsSound(w, step, reminderMs);
  }

  lemma {:induction false} RunIsSound(start: nat, steps: seq<Step>, reminderMs: int)
    ensures Sound(CircuitAfter(start, steps, reminderMs), Run(start, steps, reminderMs).now, reminderMs)
    decreases |steps|
  {
    if steps != [] {
      RunIsSound(start, steps[..|steps| - 1], reminderMs);
      StepKeepsSound(Run(start, steps[..|steps| - 1], reminderMs), steps[|steps| - 1], reminderMs);
    }
  }

  lemma {:induction false} AlternationBalances(h: History)
    requires Alternates(h)
    ensures Openings(h) == Recoveries(h) + (if LeftOpen(h) then 1 else 0)
  {
    if h.Then? {
      AlternationBalances(h.before);
    }
  }

  /** `e` happened in the history. */
  predicate Happened(h: History, e: Event) {
    h.Then? && (h.last == e || Happened(h.before, e))
  }

  lemma {:induction false} NoticeIsBefore(h: History, at: int, e: Event)
    requires NoticesBefore(h, at) && Happened(h, e) && IsNotice(e)
    ensures e.at <= at
  {
    if h.last != e {
      NoticeIsBefore(h.before, at, e);
    }
  }

  /** Part of a history: what had happened up to some point. */
  predicate StartsWith(h: History, part: History) {
    h == part || (h.Then? && StartsWith(h.before, part))
  }

  lemma {:induction false} ReminderIsApart(h: History, part: History, e: Event, reminderMs: int)
    requires RemindersApart(h, reminderMs) && StartsWith(h, part)
    requires part.Then? && part.last.Reminder? && Happened(part.before, e) && IsNotice(e)
    ensures part.last.at - e.at >= reminderMs
  {
    if h == part {
      NoticeIsBefore(part.before, part.last.at - reminderMs, e);
    } else {
      ReminderIsApart(h.before, part, e, reminderMs);
    }
  }

  lemma {:induction false} ContactIsGated(h: History, e: Event)
    requires ContactsGated(h) && Happened(h, e) && e.Contact? && !e.bypass
    ensures !e.whileOpen
  {
    if h.last != e {
      ContactIsGated(h.before, e);
    }
  }

  /**
   * Over any sequence of errors, recoveries, pings and enqueues run one at a time on a clock that
   * never goes back: open and recover hooks alternate and their numbers differ by one exactly
   * while the circuit is OPEN, and suppressedWhileOpen is the number of fatal errors since it
   * opened.
   */
  lemma HooksAlternate(start: nat, steps: seq<Step>, reminderMs: int)
    ensures
      var c := CircuitAfter(start, steps, reminderMs);
      && Alternates(c.history)
      && Openings(c.history) == Recoveries(c.history) + (if c.state == OPEN then 1 else 0)
      && c.openTransitionCount == Openings(c.history)
      && c.suppressedWhileOpen == FatalSinceOpening(c.history)
      && (c.opening.Some? <==> c.state == OPEN)
  {
    RunIsSound(start, steps, reminderMs);
    AlternationBalances(CircuitAfter(start, steps, reminderMs).history);
  }

  /** In such a run each reminder comes at least the interval after every earlier opening and reminder. */
  lemma RemindersAreApart(start: nat, steps: seq<Step>, reminderMs: int, part: History, earlier: Event)
    requires StartsWith(CircuitAfter(start, steps, reminderMs).history, part)
    requires part.Then? && part.last.Reminder? && Happened(part.before, earlier) && IsNotice(earlier)
    ensures part.last.at - earlier.at >= reminderMs
  {
    RunIsSound(start, steps, reminderMs);
    ReminderIsApart(CircuitAfter(start, steps, reminderMs).history, part, earlier, reminderMs);
  }

  /** In such a run only a recovery probe reaches Redis while the circuit is OPEN. */
  lemma OnlyProbesReachRedisWhileOpen(start: nat, steps: seq<Step>, reminderMs: int, contact: Event)
    requires Happened(CircuitAfter(start, steps, reminderMs).history, contact) && contact.Contact? && contact.whileOpen
    ensures contact.bypass
  {
    RunIsSound(start, steps, reminderMs);
    if !contact.bypass {
      ContactIsGated(CircuitAfter(start, steps, reminderMs).history, contact);
    }
  }

  /**
   * When an error is noted between an enqueue's checks and its addition, the addition still
   * reaches Redis, and does so while the circuit is OPEN exactly when the error was fatal.
   */
  lemma SeparatedAdditionIsNotGated(p: Process, reply: Reply, now: int, later: int, error: RedisError, reminderMs: int)
    requires Allowed(p, reply, now).Ok?
    ensures
      var pinged := Pinged(p, false, reply, now, later, reminderMs);
      var between := pinged.(circuit := Noted(pinged.circuit, error, later, reminderMs));
      Added(between).circuit.history == Then(between.circuit.history, Contact(false, error.fatal))
  {
    AnsweredPingStaysClosed(p, reply, now, later, reminderMs);
  }

  // What errors, pings and enqueues leave behind, apart from the code that runs them

  /** A fatal error opens a closed circuit and names it; while it is open the error is counted and may remind. */
  lemma ErrorIsNoted(c: Circuit, error: RedisError, now: int, reminderMs: int)
    ensures
      var after := Noted(c, error, now, reminderMs);
      && (Opens(c, error) <==> c.state == CLOSED && after.state == OPEN)
      && if !error.fatal then after == c
         else if c.state == CLOSED then
           && after.state == OPEN && after.openTransitionCount == c.openTransitionCount + 1
           && after.suppressedWhileOpen == 0 && after.lastReminderAt == now
           && after.opening.Some? && after.opening.value.at == now && after.opening.value.reason <= error.message
           && |after.opening.value.reason| == (if |error.message| < 240 then |error.message| else 240)
           && after.history == Then(Then(c.history, Fatal(now)), OpenHook(now))
         else
           var due := now - c.lastReminderAt >= reminderMs;
           && after.state == OPEN && after.opening == c.opening && after.openTransitionCount == c.openTransitionCount
           && after.suppressedWhileOpen == c.suppressedWhileOpen + 1
           && after.lastReminderAt == (if due then now else c.lastReminderAt)
           && after.history == (if due then Then(Then(c.history, Fatal(now)), Reminder(now)) else Then(c.history, Fatal(now)))
  {
  }

  /** A step's ping settles: neither the circuit nor a cached answer stops it and the configuration is in order. */
  predicate Settles(w: World, step: Step) {
    var p, now := w.process, w.now + step.elapsed;
    var free := p.circuit.state == CLOSED && now - p.lastPingAt >= 15000;
    match step.action
    case Ping(bypass, reply) => (bypass || free) && reply != ConfigurationThrows
    case Enqueue(reply) => free && reply != ConfigurationThrows
    case _ => false
  }

  datatype Settled = Settled(at: int, up: bool)

  /** The last settled ping of a run: when it started and whether Redis answered it. */
  function LastSettled(start: nat, steps: seq<Step>, reminderMs: int): Settled {
    if steps == [] then Settled(0, false)
    else
      var last, w := steps[|steps| - 1], Run(start, steps[..|steps| - 1], reminderMs);
      if Settles(w, last) then Settled(w.now + last.elapsed, last.action.reply == Pong(true))
      else LastSettled(start, steps[..|steps| - 1], reminderMs)
  }

  lemma StepSettles(w: World, step: Step, reminderMs: int, after: Process)
    requires after == Next(w, step, reminderMs).process
    ensures if Settles(w, step) then
              after.lastPingAt == w.now + step.elapsed && after.lastPingOk == (step.action.reply == Pong(true))
            else after.lastPingAt == w.process.lastPingAt && after.lastPingOk == w.process.lastPingOk
  {
  }

  lemma {:induction false} LastSettledIsCached(start: nat, steps: seq<Step>, reminderMs: int)
    ensures var p := Run(start, steps, reminderMs).process;
            LastSettled(start, steps, reminderMs) == Settled(p.lastPingAt, p.lastPingOk)
  {
    if steps != [] {
      LastSettledIsCached(start, steps[..|steps| - 1], reminderMs);
      StepSettles(Run(start, steps[..|steps| - 1], reminderMs), steps[|steps| - 1], reminderMs,
                  Run(start, steps, reminderMs).process);
    }
  }

  /**
   * In every run a ping answers no while the circuit is OPEN unless it bypasses it, repeats the answer of the last
   * settled ping for 15 seconds, and otherwise says whether Redis answered.
   */
  lemma PingRepeatsLastAnswer(start: nat, steps: seq<Step>, bypass: bool, reply: Reply, now: int, reminderMs: int)
    ensures
      var p, last := Run(start, steps, reminderMs).process, LastSettled(start, steps, reminderMs);
      PingAnswer(p, bypass, reply, now)
      == if !bypass && p.circuit.state == OPEN then Ok(false)
         else if !bypass && now - last.at < 15000 then Ok(last.up)
         else if reply == ConfigurationThrows then Err(Thrown)
         else Ok(reply == Pong(true))
  {
    LastSettledIsCached(start, steps, reminderMs);
  }

  /** An enqueue adds its job if and only if the circuit is closed and such a ping says yes; else it says why not. */
  lemma EnqueueAddsWhenUp(start: nat, steps: seq<Step>, reply: Reply, now: int, later: int, reminderMs: int)
    ensures
      var p, last := Run(start, steps, reminderMs).process, LastSettled(start, steps, reminderMs);
      var answer, cached := Allowed(p, reply, now), now - last.at < 15000;
      && Enqueued(p, reply, now, later, reminderMs).added == p.added + (if answer.Ok? then 1 else 0)
      && answer == if p.circuit.state == OPEN then Err(CircuitOpen)
                   else if cached then (if last.up then Ok(()) else Err(RedisUnavailable))
                   else if reply == ConfigurationThrows then Err(Thrown)
                   else if reply == Pong(true) then Ok(()) else Err(RedisUnavailable)
  {
    LastSettledIsCached(start, steps, reminderMs);
  }

  /** The state a step leaves the circuit in: a fatal error it observes opens it, clearing closes it. */
  function Verdict(w: World, step: Step): Option<State> {
    match step.action
    case Note(error) => if error.fatal then Some(OPEN) else None
    case Clear => Some(CLOSED)
    case Ping(_, reply) => if Settles(w, step) && reply.Fails? && reply.error.fatal then Some(OPEN) else None
    case Enqueue(reply) => if Settles(w, step) && reply.Fails? && reply.error.fatal then Some(OPEN) else None
  }

  function LastVerdict(start: nat, steps: seq<Step>, reminderMs: int): State {
    if steps == [] then CLOSED
    else
      var verdict := Verdict(Run(start, steps[..|steps| - 1], reminderMs), steps[|steps| - 1]);
      if verdict.Some? then verdict.value else LastVerdict(start, steps[..|steps| - 1], reminderMs)
  }

  /** The circuit is OPEN if and only if a fatal error was observed since it was last cleared. */
  lemma {:induction false} OpenExactlyAfterFatal(start: nat, steps: seq<Step>, reminderMs: int)
    ensures CircuitAfter(start, steps, reminderMs).state == LastVerdict(start, steps, reminderMs)
  {
    if steps != [] {
      OpenExactlyAfterFatal(start, steps[..|steps| - 1], reminderMs);
    }
  }
}
