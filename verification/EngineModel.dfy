/**
 The request and reply engine of one looper, as values.

 A request is a token in the correlator and an entry in the dispatch table; the two are kept by different layers.
 User code is a numbered series of calls whose outcome and actions are arbitrary.
 */
module Engine {
  import opened Enumeration

  type Token = nat
  type Session = nat
  type Peer = nat

  // ---- the protocol layer: which tokens are outstanding, and for which session ----

  datatype Correlator = Correlator(next: Token, outstanding: nat, cap: nat, sessions: map<Token, Session>) {
    /** A cap of zero means no limit. */
    predicate WouldExceed() {
      cap > 0 && outstanding >= cap
    }
  }

  function Allocate(c: Correlator, s: Session): Correlator {
    c.(next := c.next + 1, outstanding := c.outstanding + 1, sessions := c.sessions[c.next := s])
  }

  /** Record one resolution; the count saturates at zero. */
  function Settle(c: Correlator, t: Token): Correlator {
    c.(outstanding := if c.outstanding == 0 then 0 else c.outstanding - 1, sessions := c.sessions - {t})
  }

  function SettleAll(c: Correlator, ts: seq<Token>): Correlator {
    if ts == [] then c else Settle(SettleAll(c, ts[..|ts| - 1]), ts[|ts| - 1])
  }

  function Clear(c: Correlator): Correlator {
    c.(outstanding := 0, sessions := map[])
  }

  function TokensOf(c: Correlator, s: Session): set<Token> {
    set t | t in c.sessions && c.sessions[t] == s
  }

  // ---- the handler layer: what to call when a request is resolved ----

  datatype Key = Key(peer: Peer, token: Token)

  /** Who waits for the reply: a callback of the handler, or a thread blocked in a synchronous call. */
  datatype Origin = Handler | Sync

  datatype Verdict = Replied | Failed | RolledBack

  datatype Note = Note(key: Key, verdict: Verdict)

  /** The two entry maps, with the log of resolutions and the set of entries discarded without one. */
  datatype Table = Table(entries: map<Key, Origin>, asyncs: set<Key>, log: seq<Note>, dropped: set<Key>)

  predicate Has(d: Table, k: Key) {
    k in d.entries || k in d.asyncs
  }

  function Insert(d: Table, k: Key, o: Origin): Table {
    d.(entries := d.entries[k := o])
  }

  function InsertAsync(d: Table, k: Key): Table {
    d.(asyncs := d.asyncs + {k})
  }

  /** Take the entry out and use it once: callback entries first, then async ones. */
  function Resolve(d: Table, k: Key, v: Verdict): Table {
    if k in d.entries then d.(entries := d.entries - {k}, log := d.log + [Note(k, v)])
    else if k in d.asyncs then d.(asyncs := d.asyncs - {k}, log := d.log + [Note(k, v)])
    else d
  }

  function FailAll(d: Table, peer: Peer, ts: seq<Token>): Table {
    if ts == [] then d else Resolve(FailAll(d, peer, ts[..|ts| - 1]), Key(peer, ts[|ts| - 1]), Failed)
  }

  function Discard(d: Table): Table {
    d.(entries := map[], asyncs := {}, dropped := d.dropped + d.entries.Keys + d.asyncs)
  }

  // ---- both layers together ----

  /** `attempts` counts the frames offered to the wire. */
  datatype Books = Books(cor: Correlator, tab: Table, attempts: nat)

  function NoBooks(cap: nat): Books {
    Books(Correlator(0, 0, cap, map[]), Table(map[], {}, [], {}), 0)
  }

  datatype Delivery = Sent | Refused | Unserializable

  function Install(peer: Peer, b: Books, s: Session, o: Origin): Books {
    Books(Allocate(b.cor, s), Insert(b.tab, Key(peer, b.cor.next), o), b.attempts + 1)
  }

  function Discharge(peer: Peer, b: Books, t: Token, v: Verdict): Books {
    Books(Settle(b.cor, t), Resolve(b.tab, Key(peer, t), v), b.attempts)
  }

  /** The entry is installed before the frame is offered, and taken back when the frame is refused. */
  function SendRequest(env: Env, b: Books, s: Session, o: Origin): Books {
    var installed := Install(env.peer, b, s, o);
    if env.wire(b.attempts) == Refused then Discharge(env.peer, installed, b.cor.next, RolledBack) else installed
  }

  function SendAsync(peer: Peer, b: Books, s: Session): Books {
    Books(Allocate(b.cor, s), InsertAsync(b.tab, Key(peer, b.cor.next)), b.attempts)
  }

  // ---- the obligations to answer requests received ----

  datatype Port = Port(session: Session, token: Token)

  /**
   How the one-shot closure of a port is used: with a value, with a failure (dropping the port), or with a value that
   cannot be serialized. The last sends no frame; the panic it raises is the caller's, who may or may not catch it.
   */
  datatype Way = Value | Failure | Botched

  datatype Answer = Answer(port: Port, way: Way)

  /** Why user code is called: for a request, for the reply to or failure of one of its own, or for anything else. */
  datatype Cause = OnRequest(port: Port) | OnReply(token: Token) | OnFailed(token: Token) | Plain

  /**
   `trace` lists the calls into user code. `stash` holds the reply ports user code keeps, in its fields or in closures;
   `handed` all it was ever given; `answers` every use of one.
   */
  datatype Ledger = Ledger(trace: seq<Cause>, stash: seq<Port>, handed: seq<Port>, answers: seq<Answer>) {
    const calls: nat := |trace|
  }

  const NO_LEDGER := Ledger([], [], [], [])

  /** Use or drop one stashed port. */
  datatype Release = Release(index: nat, way: Way)

  function Let(l: Ledger, r: Release): Ledger {
    if r.index < |l.stash| then
      l.(stash := l.stash[..r.index] + l.stash[r.index + 1..], answers := l.answers + [Answer(l.stash[r.index], r.way)])
    else l
  }

  function LetAll(l: Ledger, rs: seq<Release>): Ledger {
    if rs == [] then l else Let(LetAll(l, rs[..|rs| - 1]), rs[|rs| - 1])
  }

  function Refuse(l: Ledger, p: Port): Ledger {
    l.(handed := l.handed + [p], answers := l.answers + [Answer(p, Failure)])
  }

  // ---- user code ----

  datatype Outcome = Continue | Stop | Panic

  /**
   What a request handler does, besides using the ports it keeps. A send that panics, at the cap or over a message that
   cannot be serialized, ends the handler unless user code catches the panic.
   */
  datatype Act =
    | OnStash(release: Release)
    | AnswerHeld(way: Way)
    | StashHeld
    | Send(session: Session, caught: bool)
    | TrySend(session: Session, caught: bool)
    | Await(session: Session)

  datatype Env = Env(
    peer: Peer,
    serves: Session -> bool,
    listens: Session -> bool,
    outcome: nat -> Outcome,
    releases: nat -> seq<Release>,
    acts: nat -> seq<Act>,
    wire: nat -> Delivery,
    order: (nat, set<Token>) -> seq<Token>)
  {
    /** A walk over a hash table visits each key once, in an arbitrary order. */
    ghost predicate Fair() {
      forall n: nat, ts: set<Token> :: Enumerates(order(n, ts), ts)
    }
  }

  /** Any environment can be given a fair walk. */
  lemma {:induction false} FairWalkExists(env: Env)
    ensures env.(order := (n: nat, ts: set<Token>) => Listing(ts)).Fair()
  {
  }

  /** A callback with no request of its own: it can only use ports kept from earlier. */
  function Called(env: Env, l: Ledger, cause: Cause): Ledger {
    LetAll(l, env.releases(l.calls)).(trace := l.trace + [cause])
  }

  /** A request handler at work. It may hold the request's own port, and stops at a panic. */
  datatype Scene = Scene(books: Books, ledger: Ledger, held: bool, ok: bool)

  function Hold(l: Ledger, p: Port, act: Act): Ledger {
    match act
    case AnswerHeld(way) => l.(answers := l.answers + [Answer(p, way)])
    case StashHeld => l.(stash := l.stash + [p])
    case _ => l
  }

  function SendWithin(env: Env, sc: Scene, s: Session, caught: bool): Scene {
    sc.(books := SendRequest(env, sc.books, s, Handler), ok := caught || env.wire(sc.books.attempts) != Unserializable)
  }

  function Perform(env: Env, p: Port, sc: Scene, act: Act): Scene {
    if !sc.ok then sc
    else match act
      case OnStash(r) => sc.(ledger := Let(sc.ledger, r))
      case AnswerHeld(_) => if sc.held then sc.(ledger := Hold(sc.ledger, p, act), held := false) else sc
      case StashHeld => if sc.held then sc.(ledger := Hold(sc.ledger, p, act), held := false) else sc
      case Send(s, caught) => if sc.books.cor.WouldExceed() then sc.(ok := caught) else SendWithin(env, sc, s, caught)
      case TrySend(s, caught) => if sc.books.cor.WouldExceed() then sc else SendWithin(env, sc, s, caught)
      case Await(s) => sc.(books := SendAsync(env.peer, sc.books, s))
  }

  function PerformAll(env: Env, p: Port, sc: Scene, acts: seq<Act>): Scene {
    if acts == [] then sc
    else Perform(env, p, PerformAll(env, p, sc, acts[..|acts| - 1]), acts[|acts| - 1])
  }

  /** The handler returns or unwinds: a port still in hand is dropped, which answers with a failure. */
  function Leave(p: Port, sc: Scene): Scene {
    if !sc.held then sc
    else sc.(ledger := sc.ledger.(answers := sc.ledger.answers + [Answer(p, Failure)]), held := false)
  }

  /** The request and its port are handed to the handler. */
  function Opening(b: Books, l: Ledger, p: Port): Scene {
    Scene(b, l.(trace := l.trace + [OnRequest(p)], handed := l.handed + [p]), true, true)
  }

  function Receive(env: Env, b: Books, l: Ledger, p: Port): Scene {
    Leave(p, PerformAll(env, p, Opening(b, l, p), env.acts(l.calls)))
  }

  // ---- the looper core ----

  datatype ExitReason = Graceful | Crashed | Disconnected | InfraError

  datatype Result = Running | Exit(reason: ExitReason)

  /** `exits` is what the server was told; `result` what the core told its driver. */
  datatype Core = Core(books: Books, ledger: Ledger, exits: seq<ExitReason>, exited: bool, result: Result)

  function NewCore(cap: nat): Core {
    Core(NoBooks(cap), NO_LEDGER, [], false, Running)
  }

  /** The entry belongs to the handler, so resolving it runs user code. */
  predicate CallsHandler(d: Table, k: Key) {
    k in d.entries && d.entries[k] == Handler
  }

  /** on_failed of each entry that belongs to the handler runs, in the order the tokens are failed. */
  function FailCalls(env: Env, l: Ledger, d: Table, ts: seq<Token>): Ledger {
    if ts == [] then l
    else
      var init, k := ts[..|ts| - 1], Key(env.peer, ts[|ts| - 1]);
      var before, at := FailCalls(env, l, d, init), FailAll(d, env.peer, init);
      if CallsHandler(at, k) then Called(env, before, OnFailed(k.token)) else before
  }

  function AllTokens(env: Env, b: Books): seq<Token> {
    env.order(|b.tab.log|, b.cor.sessions.Keys)
  }

  function SessionTokens(env: Env, b: Books, s: Session): seq<Token> {
    env.order(|b.tab.log|, TokensOf(b.cor, s))
  }

  /** The destruction sequence on the books: fail everything tracked, then discard what is left. */
  function Wreck(env: Env, b: Books): Books {
    Books(Clear(b.cor), Discard(FailAll(b.tab, env.peer, AllTokens(env, b))), b.attempts)
  }

  function Destroy(env: Env, c: Core, reason: ExitReason): Core {
    Core(Wreck(env, c.books), FailCalls(env, c.ledger, c.books.tab, AllTokens(env, c.books)),
         c.exits + [reason], true, Exit(reason))
  }

  function Finish(env: Env, c: Core, o: Outcome): Core {
    match o
    case Continue => c
    case Stop => Destroy(env, c, Graceful)
    case Panic => Destroy(env, c, Crashed)
  }

  /** Any handler callback that takes no dispatch context. */
  function Callback(env: Env, c: Core): Core {
    Finish(env, c.(ledger := Called(env, c.ledger, Plain)), env.outcome(c.ledger.calls))
  }

  datatype Body = WrongTag | Malformed | Good

  function Notify(env: Env, c: Core, s: Session, body: Body): Core {
    if !env.listens(s) || body == WrongTag then c
    else if body == Malformed then Finish(env, c, Panic)
    else Callback(env, c)
  }

  /** The request handler has run. */
  function Handled(env: Env, c: Core, p: Port): Core {
    var sc := Receive(env, c.books, c.ledger, p);
    c.(books := sc.books, ledger := sc.ledger)
  }

  function HandledOutcome(env: Env, c: Core, p: Port): Outcome {
    if Receive(env, c.books, c.ledger, p).ok then env.outcome(c.ledger.calls) else Panic
  }

  function Request(env: Env, c: Core, p: Port, body: Body): Core {
    if !env.serves(p.session) || body != Good then c.(ledger := Refuse(c.ledger, p))
    else Finish(env, Handled(env, c, p), HandledOutcome(env, c, p))
  }

  function CauseOf(v: Verdict, t: Token): Cause {
    if v == Replied then OnReply(t) else OnFailed(t)
  }

  /** The callback of a reply or failure has run; a panic leaves the correlator as it was. */
  function Concluding(env: Env, c: Core, t: Token, v: Verdict): Core {
    var o := env.outcome(c.ledger.calls);
    c.(books := if o == Panic then c.books.(tab := Resolve(c.books.tab, Key(env.peer, t), v))
                else Discharge(env.peer, c.books, t, v),
       ledger := Called(env, c.ledger, CauseOf(v, t)))
  }

  /** A Reply or Failed frame. After a panic in the callback, the destruction settles the correlator. */
  function Conclude(env: Env, c: Core, t: Token, v: Verdict): Core {
    var k := Key(env.peer, t);
    if !Has(c.books.tab, k) then c
    else if CallsHandler(c.books.tab, k) then Finish(env, Concluding(env, c, t, v), env.outcome(c.ledger.calls))
    else c.(books := Discharge(env.peer, c.books, t, v))
  }

  function Teardown(env: Env, c: Core, s: Session): Core {
    var ts := SessionTokens(env, c.books, s);
    c.(books := Books(SettleAll(c.books.cor, ts), FailAll(c.books.tab, env.peer, ts), c.books.attempts),
       ledger := FailCalls(env, c.ledger, c.books.tab, ts))
  }

  /** The connection is gone; the looper ends whatever the handler says. */
  function Close(env: Env, c: Core): Core {
    var after := Callback(env, c);
    match env.outcome(c.ledger.calls)
    case Continue => Destroy(env, after, Disconnected)
    case Stop => after.(exits := after.exits + [Disconnected], result := Exit(Disconnected))
    case Panic => after
  }

  datatype Op =
    | Call
    | Notice(session: Session, body: Body)
    | Asked(port: Port, body: Body)
    | SyncSend(session: Session)
    | ReplyTo(token: Token)
    | FailureOf(token: Token)
    | TeardownOf(session: Session)
    | Closed
    | Broken

  function Step(env: Env, c: Core, op: Op): Core {
    match op
    case Call => Callback(env, c)
    case Notice(s, body) => Notify(env, c, s, body)
    case Asked(p, body) => Request(env, c, p, body)
    case SyncSend(s) => c.(books := SendRequest(env, c.books, s, Sync))
    case ReplyTo(t) => Conclude(env, c, t, Replied)
    case FailureOf(t) => Conclude(env, c, t, Failed)
    case TeardownOf(s) => Teardown(env, c, s)
    case Closed => Close(env, c)
    case Broken => Destroy(env, c, InfraError)
  }

  /** A looper stops at its first exit. */
  function From(env: Env, c: Core, ops: seq<Op>): Core {
    if ops == [] then c
    else
      var before := From(env, c, ops[..|ops| - 1]);
      if before.exited then before else Step(env, before, ops[|ops| - 1])
  }

  function Run(env: Env, cap: nat, ops: seq<Op>): Core {
    From(env, NewCore(cap), ops)
  }

  function Refusals(ports: seq<Port>): seq<Answer> {
    seq(|ports|, i requires 0 <= i < |ports| => Answer(ports[i], Failure))
  }

  /** Dropping the handler drops every port it still keeps. */
  function Shutdown(l: Ledger): Ledger {
    l.(stash := [], answers := l.answers + Refusals(l.stash))
  }
}
