/**
 The batch scheduler of the looper, as values.

 A tick collects the messages that have arrived into buckets and dispatches the buckets in phase order. Requests and
 notifications share a budget; what is over it waits for the next tick. The clock is an arbitrary test.
 */
module Scheduler {
  import opened Engine

  const BATCH_MSG_LIMIT: nat := 64

  /** Inbound work: a request or a notification. */
  datatype Item = Ask(port: Port, body: Body) | Tell(to: Session, body: Body)

  function SessionOf(x: Item): Session {
    match x
    case Ask(p, _) => p.session
    case Tell(s, _) => s
  }

  function OpOf(x: Item): Op {
    match x
    case Ask(p, body) => Asked(p, body)
    case Tell(s, body) => Notice(s, body)
  }

  datatype Message =
    | SyncCall(session: Session)
    | LifecycleEvent(what: nat)
    | ServiceTeardown(session: Session)
    | PaneExited(address: nat)
    | InterestAccepted(session: Session)
    | LocalRevoke(session: Session)
    | ReplyFrame(session: Session, token: Token)
    | FailedFrame(session: Session, token: Token)
    | Work(item: Item)
    | NewConnection(id: nat)
    | Ignored
    | ChannelClosed

  /** A connection to take over from a bridge thread that waits for the outcome. */
  datatype Handoff = NoHandoff | Handoff(id: nat)

  datatype Batch = Batch(
    syncs: seq<Session>,
    replies: seq<Token>,
    failed: seq<Token>,
    teardowns: seq<Session>,
    departed: seq<nat>,
    connected: seq<Session>,
    lifecycle: seq<nat>,
    requests: seq<Item>,
    notices: seq<Item>,
    revoked: set<Session>,
    ctl: seq<Session>,
    handoff: Handoff,
    closed: bool)

  const NO_BATCH := Batch([], [], [], [], [], [], [], [], [], {}, [], NoHandoff, false)

  predicate Empty(b: Batch) {
    && b.syncs == [] && b.replies == [] && b.failed == [] && b.teardowns == [] && b.departed == []
    && b.connected == [] && b.lifecycle == [] && b.requests == [] && b.notices == [] && b.ctl == []
    && b.handoff == NoHandoff && !b.closed
  }

  function Collect(b: Batch, m: Message): Batch {
    match m
    case SyncCall(s) => b.(syncs := b.syncs + [s])
    case LifecycleEvent(x) => b.(lifecycle := b.lifecycle + [x])
    case ServiceTeardown(s) => b.(teardowns := b.teardowns + [s])
    case PaneExited(a) => b.(departed := b.departed + [a])
    case InterestAccepted(s) => b.(connected := b.connected + [s])
    case LocalRevoke(s) => if s in b.revoked then b else b.(revoked := b.revoked + {s}, ctl := b.ctl + [s])
    case ReplyFrame(_, t) => b.(replies := b.replies + [t])
    case FailedFrame(_, t) => b.(failed := b.failed + [t])
    case Work(x) => if x.Ask? then b.(requests := b.requests + [x]) else b.(notices := b.notices + [x])
    case NewConnection(id) => b.(handoff := Handoff(id))
    case Ignored => b
    case ChannelClosed => b.(closed := true)
  }

  /** An exit discards what was collected; revocations and the closed channel are permanent. */
  function Cleared(b: Batch): Batch {
    NO_BATCH.(revoked := b.revoked, closed := b.closed)
  }

  // ---- phases 0 to 3 ----

  function SyncOps(ss: seq<Session>): seq<Op> {
    seq(|ss|, i requires 0 <= i < |ss| => SyncSend(ss[i]))
  }

  function ReplyOps(ts: seq<Token>): seq<Op> {
    seq(|ts|, i requires 0 <= i < |ts| => ReplyTo(ts[i]))
  }

  function FailureOps(ts: seq<Token>): seq<Op> {
    seq(|ts|, i requires 0 <= i < |ts| => FailureOf(ts[i]))
  }

  /** Each teardown fails its requests, then tells the handler. */
  function TeardownOps(ss: seq<Session>): seq<Op> {
    if ss == [] then [] else TeardownOps(ss[..|ss| - 1]) + [TeardownOf(ss[|ss| - 1]), Call]
  }

  function Calls(n: nat): seq<Op> {
    seq(n, i => Call)
  }

  function FirstOps(b: Batch): seq<Op> {
    SyncOps(b.syncs) + ReplyOps(b.replies)
  }

  function LaterOps(b: Batch): seq<Op> {
    FailureOps(b.failed) + TeardownOps(b.teardowns) + Calls(|b.departed| + |b.connected| + |b.lifecycle|)
  }

  function FrameworkOps(b: Batch): seq<Op> {
    FirstOps(b) + LaterOps(b)
  }

  // ---- phase 5 ----

  /** What happens to inbound work, revocations and connections, in order. */
  datatype Event =
    | Arrived(item: Item)
    | Revoked(session: Session)
    | Handed(item: Item)
    | Skipped(item: Item)
    | TookOver(id: nat)
    | Closing

  /** Whether the time is up, by tick and by messages dispatched in it; whether a connection can be registered. */
  datatype World = World(late: (nat, nat) -> bool, registers: nat -> bool)

  datatype Served = Served(core: Core, rest: seq<Item>, events: seq<Event>, dispatched: nat)

  function After(e: Event, r: Served): Served {
    r.(events := [e] + r.events)
  }

  function Serve(env: Env, world: World, tick: nat, revoked: set<Session>, c: Core, items: seq<Item>, n: nat): Served
    decreases |items|
  {
    if items == [] then Served(c, [], [], n)
    else
      var x, rest := items[0], items[1..];
      if SessionOf(x) in revoked then After(Skipped(x), Serve(env, world, tick, revoked, c, rest, n))
      else
        var next := Step(env, c, OpOf(x));
        if next.exited || n + 1 >= BATCH_MSG_LIMIT || world.late(tick, n + 1)
        then Served(next, rest, [Handed(x)], n + 1)
        else After(Handed(x), Serve(env, world, tick, revoked, next, rest, n + 1))
  }

  // ---- the loop ----

  /** `sent` lists the sessions whose RevokeInterest was offered to the wire; `taken` the connections taken over. */
  datatype Loop = Loop(batch: Batch, core: Core, history: seq<Event>, sent: seq<Session>, taken: seq<nat>, ticks: nat)

  function NewLoop(cap: nat): Loop {
    Loop(NO_BATCH, NewCore(cap), [], [], [], 0)
  }

  function ServeRequests(env: Env, world: World, st: Loop): Served {
    Serve(env, world, st.ticks, st.batch.revoked, st.core, st.batch.requests, 0)
  }

  function ServeNotices(env: Env, world: World, st: Loop, n: nat): Served {
    Serve(env, world, st.ticks, st.batch.revoked, st.core, st.batch.notices, n)
  }

  function EndOfChannel(env: Env, st: Loop): Loop {
    if !st.batch.closed then st
    else st.(batch := st.batch.(closed := false), core := Close(env, st.core), history := st.history + [Closing])
  }

  function PhaseFiveNotices(env: Env, world: World, st: Loop, n: nat): Loop {
    var r := ServeNotices(env, world, st, n);
    var after := st.(core := r.core, history := st.history + r.events);
    if r.core.exited then after.(batch := Cleared(st.batch))
    else if r.rest != [] then after.(batch := st.batch.(notices := r.rest))
    else EndOfChannel(env, after.(batch := st.batch.(notices := [])))
  }

  /** All requests of a batch have been served. */
  function RequestsServed(st: Loop, r: Served): Loop {
    st.(core := r.core, history := st.history + r.events, batch := st.batch.(requests := []))
  }

  function PhaseFive(env: Env, world: World, st: Loop): Loop {
    var r := ServeRequests(env, world, st);
    var after := st.(core := r.core, history := st.history + r.events);
    if r.core.exited then after.(batch := Cleared(st.batch))
    else if r.rest != [] then after.(batch := st.batch.(requests := r.rest))
    else PhaseFiveNotices(env, world, RequestsServed(st, r), r.dispatched)
  }

  /** What is left of a batch for phase 5. */
  function Inbound(b: Batch): Batch {
    NO_BATCH.(requests := b.requests, notices := b.notices, revoked := b.revoked, closed := b.closed)
  }

  function TakenOver(world: World, h: Handoff): seq<nat> {
    if h.Handoff? && world.registers(h.id) then [h.id] else []
  }

  function Handover(world: World, h: Handoff): seq<Event> {
    if h.Handoff? && world.registers(h.id) then [TookOver(h.id)] else []
  }

  /** After phases 0 to 3: the handoff, then the control frames; inbound work is left. */
  function Middle(env: Env, world: World, st: Loop): Loop {
    st.(core := From(env, st.core, FrameworkOps(st.batch)), batch := Inbound(st.batch), sent := st.sent + st.batch.ctl,
        taken := st.taken + TakenOver(world, st.batch.handoff),
        history := st.history + Handover(world, st.batch.handoff))
  }

  function DispatchBatch(env: Env, world: World, st: Loop): Loop {
    var core := From(env, st.core, FrameworkOps(st.batch));
    if core.exited then st.(core := core, batch := Cleared(st.batch)) else PhaseFive(env, world, Middle(env, world, st))
  }

  function Heard(m: Message): seq<Event> {
    match m
    case Work(x) => [Arrived(x)]
    case LocalRevoke(s) => [Revoked(s)]
    case _ => []
  }

  function Take(st: Loop, m: Message): Loop {
    st.(batch := Collect(st.batch, m), history := st.history + Heard(m))
  }

  function Poll(st: Loop, ms: seq<Message>): Loop {
    if ms == [] then st else Take(Poll(st, ms[..|ms| - 1]), ms[|ms| - 1])
  }

  function Tick(env: Env, world: World, st: Loop, ms: seq<Message>): Loop {
    var polled := Poll(st, ms);
    (if Empty(polled.batch) then polled else DispatchBatch(env, world, polled)).(ticks := st.ticks + 1)
  }

  /** One iteration of the main loop: its first poll may fail, with whatever it had collected. */
  datatype Round = Messages(messages: seq<Message>) | PollFailed(messages: seq<Message>)

  function Turn(env: Env, world: World, st: Loop, round: Round): Loop {
    match round
    case Messages(ms) => Tick(env, world, st, ms)
    case PollFailed(ms) => Poll(st, ms).(core := Destroy(env, st.core, InfraError))
  }

  function Ticks(env: Env, world: World, st: Loop, rounds: seq<Round>): Loop {
    if rounds == [] then st
    else
      var before := Ticks(env, world, st, rounds[..|rounds| - 1]);
      if before.core.exited then before else Turn(env, world, before, rounds[|rounds| - 1])
  }

  function RunLooper(env: Env, world: World, cap: nat, rounds: seq<Round>): Loop {
    Ticks(env, world, NewLoop(cap), rounds)
  }
}
