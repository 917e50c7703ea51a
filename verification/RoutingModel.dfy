/**
 The routing server's state and what one event does to it, as values.

 Every operation is written as "new tables, then a list of frames to enqueue". The frames an
 operation tries to enqueue go to a log, which is the only observation a client has.
 */
module Routing {
  import opened Enumeration

  /** Session ids run from 1; this one is the protocol-abort discriminant. */
  const RESERVED_SESSION: nat := 0xFFFF

  type Conn = nat
  type Uuid = nat

  datatype Option<+T> = None | Some(value: T)

  /** One end of a pipe: a session on a connection. */
  datatype Key = Key(conn: Conn, session: nat)

  datatype Route = Route(consumer: Key, provider: Key) {
    /** The other end, seen from connection `conn`. */
    function Peer(conn: Conn): Key {
      if consumer.conn == conn then provider else consumer
    }
  }

  datatype Address = Address(pane: nat, server: nat)

  function Local(conn: Conn): Address { Address(conn, 0) }

  datatype DeclineReason = ServiceUnknown | SelfProvide | SessionExhausted
  datatype TeardownReason = ServiceRevoked | ConnectionLost

  datatype Control =
    | DeclareInterest(service: Uuid, expectedVersion: nat)
    | InterestAccepted(service: Uuid, session: nat, version: nat)
    | InterestDeclined(service: Uuid, reason: DeclineReason)
    | ServiceTeardown(session: nat, cause: TeardownReason)
    | RevokeInterest(session: nat)
    | Cancel(token: nat)
    | Watch(target: Address)
    | Unwatch(target: Address)
    | PaneExited(address: Address)
    | OtherControl

  /** Bytes on the wire: either the encoding of a control message or bytes that do not decode. */
  datatype Payload = Message(control: Control) | Opaque(bytes: seq<nat>)

  datatype Event =
    | NewConnection(conn: Conn, services: seq<Uuid>)
    | Frame(conn: Conn, service: nat, payload: Payload)
    | Disconnected(conn: Conn)

  /** A frame to enqueue, and an attempt to enqueue it on a registered connection's queue. */
  datatype Msg = Msg(conn: Conn, service: nat, payload: Payload)
  datatype Attempt = Attempt(msg: Msg, accepted: bool)

  /**
   What the program does not control: whether the queue takes the n-th frame, and the order in
   which a hash table is walked the n-th time.
   */
  datatype Env = Env(
    full: nat -> bool,
    watcherOrder: (nat, set<Conn>) -> seq<Conn>,
    keyOrder: (nat, set<Key>) -> seq<Key>)
  {
    ghost predicate Fair() {
      && (forall n, s :: Enumerates(watcherOrder(n, s), s))
      && (forall n, s :: Enumerates(keyOrder(n, s), s))
    }
  }

  /** Fair walks exist, whatever the queues do. */
  lemma {:induction false} FairWalksExist(full: nat -> bool)
    ensures exists env: Env :: env.full == full && env.Fair()
  {
    var env := Env(full, (n: nat, s: set<Conn>) => Listing(s), (n: nat, s: set<Key>) => Listing(s));
    assert env.full == full && env.Fair();
  }

  /** What the actor owns. `tick` counts the connections torn down, to tell walks apart. */
  datatype Tables = Tables(
    providers: map<Uuid, seq<Conn>>,
    routes: map<Key, Route>,
    nextSession: map<Conn, nat>,
    writers: set<Conn>,
    addresses: map<Conn, Address>,
    watch: map<Conn, set<Conn>>,
    watching: map<Conn, set<Conn>>,
    tick: nat)

  /** What it has tried to send, and whose queue refused. */
  datatype Outbox = Outbox(log: seq<Attempt>, overflow: seq<Conn>)

  const NoTables := Tables(map[], map[], map[], {}, map[], map[], map[], 0)
  const NothingSent := Outbox([], [])

  // ---- enqueueing ----

  function TryEnqueue(env: Env, writers: set<Conn>, o: Outbox, m: Msg): Outbox {
    if m.conn !in writers then o
    else
      var accepted := !env.full(|o.log|);
      Outbox(o.log + [Attempt(m, accepted)], if accepted then o.overflow else o.overflow + [m.conn])
  }

  function SendAll(env: Env, writers: set<Conn>, o: Outbox, ms: seq<Msg>): (r: Outbox)
    ensures o.log <= r.log && o.overflow <= r.overflow
  {
    if ms == [] then o
    else TryEnqueue(env, writers, SendAll(env, writers, o, ms[..|ms|-1]), ms[|ms|-1])
  }

  function ControlTo(conn: Conn, c: Control): Msg { Msg(conn, 0, Message(c)) }

  // ---- registration ----

  function AddProviders(p: map<Uuid, seq<Conn>>, conn: Conn, services: seq<Uuid>): map<Uuid, seq<Conn>> {
    if services == [] then p
    else
      var q := AddProviders(p, conn, services[..|services|-1]);
      var u := services[|services|-1];
      q[u := Providers(q, u) + [conn]]
  }

  function Providers(p: map<Uuid, seq<Conn>>, u: Uuid): seq<Conn> {
    if u in p then p[u] else []
  }

  function Register(t: Tables, conn: Conn, services: seq<Uuid>): Tables {
    t.(providers := AddProviders(t.providers, conn, services),
       writers := t.writers + {conn},
       nextSession := t.nextSession[conn := 1],
       addresses := t.addresses[conn := Local(conn)])
  }

  // ---- service negotiation ----

  function NextOf(t: Tables, conn: Conn): nat {
    if conn in t.nextSession then t.nextSession[conn] else 1
  }

  /** The id `conn` would get, and the counters after handing it out; none is left at the reserved id. */
  function AllocSession(t: Tables, conn: Conn): (Tables, Option<nat>) {
    var next := NextOf(t, conn);
    if next == RESERVED_SESSION then (t, None)
    else (t.(nextSession := t.nextSession[conn := next + 1]), Some(next))
  }

  datatype Declared =
    | Accepted(tables: Tables, consumer: Key, provider: Key)
    | Declined(tables: Tables, reason: DeclineReason)

  function Declare(t: Tables, consumer: Conn, service: Uuid): Declared {
    if Providers(t.providers, service) == [] then Declined(t, ServiceUnknown)
    else
      var provider := t.providers[service][0];
      if provider == consumer then Declined(t, SelfProvide)
      else
        var (t1, a) := AllocSession(t, consumer);
        if a.None? then Declined(t1, SessionExhausted)
        else
          var (t2, b) := AllocSession(t1, provider);
          if b.None? then Declined(t2, SessionExhausted)
          else
            var ck, pk := Key(consumer, a.value), Key(provider, b.value);
            var r := Route(ck, pk);
            Accepted(t2.(routes := t2.routes[ck := r][pk := r]), ck, pk)
  }

  // ---- watching ----

  function AddLink(m: map<Conn, set<Conn>>, a: Conn, b: Conn): map<Conn, set<Conn>> {
    m[a := (if a in m then m[a] else {}) + {b}]
  }

  function RemoveLink(m: map<Conn, set<Conn>>, a: Conn, b: Conn): map<Conn, set<Conn>> {
    if a !in m then m
    else if m[a] - {b} == {} then m - {a}
    else m[a := m[a] - {b}]
  }

  /** Forget `c` both as a key and as a member, and every set this leaves empty. */
  function Forget(m: map<Conn, set<Conn>>, c: Conn): map<Conn, set<Conn>> {
    map a | a in m && a != c && m[a] - {c} != {} :: m[a] - {c}
  }

  function Resolve(t: Tables, target: Address): Option<Conn> {
    if target.pane in t.addresses && t.addresses[target.pane] == target then Some(target.pane) else None
  }

  // ---- frames: the tables after one, and the frames it makes the server enqueue ----

  /** Which tables a frame from `conn` changes. Service 0 carries control messages. */
  function FrameTables(t: Tables, conn: Conn, service: nat, payload: Payload): (r: Tables)
    ensures r.writers == t.writers && r.addresses == t.addresses && r.providers == t.providers && r.tick == t.tick
  {
    if service != 0 || payload.Opaque? then t
    else
      match payload.control
      case DeclareInterest(uuid, _) => Declare(t, conn, uuid).tables
      case RevokeInterest(session) =>
        var k := Key(conn, session);
        if k !in t.routes then t else t.(routes := t.routes - {k} - {t.routes[k].Peer(conn)})
      case Watch(target) =>
        (match Resolve(t, target)
         case Some(c) => t.(watch := AddLink(t.watch, c, conn), watching := AddLink(t.watching, conn, c))
         case None => t)
      case Unwatch(target) =>
        (match Resolve(t, target)
         case Some(c) => t.(watch := RemoveLink(t.watch, c, conn), watching := RemoveLink(t.watching, conn, c))
         case None => t)
      case _ => t
  }

  function FrameOutput(t: Tables, conn: Conn, service: nat, payload: Payload): seq<Msg> {
    if service != 0 then ServiceOutput(t, conn, service, payload)
    else if payload.Opaque? then []
    else
      match payload.control
      case DeclareInterest(uuid, _) => DeclareOutput(conn, uuid, Declare(t, conn, uuid))
      case RevokeInterest(session) => RevokeOutput(t, conn, session)
      case Watch(target) => if Resolve(t, target).None? then [ControlTo(conn, PaneExited(target))] else []
      case _ => []
  }

  function ServiceOutput(t: Tables, conn: Conn, session: nat, payload: Payload): seq<Msg> {
    if Key(conn, session) !in t.routes then []
    else
      var p := t.routes[Key(conn, session)].Peer(conn);
      [Msg(p.conn, p.session, payload)]
  }

  function DeclareOutput(conn: Conn, service: Uuid, d: Declared): seq<Msg> {
    match d
    case Accepted(_, ck, pk) => [ControlTo(conn, InterestAccepted(service, ck.session, 1)),
                                 ControlTo(pk.conn, InterestAccepted(service, pk.session, 1))]
    case Declined(_, reason) => [ControlTo(conn, InterestDeclined(service, reason))]
  }

  function RevokeOutput(t: Tables, conn: Conn, session: nat): seq<Msg> {
    if Key(conn, session) !in t.routes then []
    else
      var p := t.routes[Key(conn, session)].Peer(conn);
      [ControlTo(p.conn, ServiceTeardown(p.session, ServiceRevoked)),
       ControlTo(conn, ServiceTeardown(session, ServiceRevoked))]
  }

  // ---- teardown ----

  function Without(cs: seq<Conn>, c: Conn): seq<Conn> {
    if cs == [] then []
    else Without(cs[..|cs|-1], c) + (if cs[|cs|-1] == c then [] else [cs[|cs|-1]])
  }

  /** Leave the connection out of every list, and leave out the lists this empties. */
  function DropProvider(p: map<Uuid, seq<Conn>>, conn: Conn): map<Uuid, seq<Conn>> {
    map u | u in p && Without(p[u], conn) != [] :: Without(p[u], conn)
  }

  function KeysOf(routes: map<Key, Route>, conn: Conn): set<Key> {
    set k | k in routes && k.conn == conn
  }

  function Broadcast(order: seq<Conn>, c: Control): seq<Msg> {
    if order == [] then [] else Broadcast(order[..|order|-1], c) + [ControlTo(order[|order|-1], c)]
  }

  function ExitNotices(env: Env, t: Tables, conn: Conn): seq<Msg> {
    if conn in t.watch && conn in t.addresses
    then Broadcast(env.watcherOrder(t.tick, t.watch[conn]), PaneExited(t.addresses[conn]))
    else []
  }

  function TeardownNotice(peer: Key): Msg {
    ControlTo(peer.conn, ServiceTeardown(peer.session, ConnectionLost))
  }

  /** One notice per route in `order`, to the end that is not on `conn`. */
  function TeardownNotices(routes: map<Key, Route>, order: seq<Key>, conn: Conn): seq<Msg>
    requires forall k :: k in order ==> k in routes
  {
    if order == [] then []
    else
      assert forall k :: k in order[..|order|-1] ==> k in order;
      TeardownNotices(routes, order[..|order|-1], conn) + [TeardownNotice(routes[order[|order|-1]].Peer(conn))]
  }

  function Detached(routes: map<Key, Route>, conn: Conn): map<Key, Route> {
    map k | k in routes && k.conn != conn && routes[k].Peer(k.conn).conn != conn :: routes[k]
  }

  function Remove(t: Tables, conn: Conn): Tables {
    t.(providers := DropProvider(t.providers, conn),
       routes := Detached(t.routes, conn),
       nextSession := t.nextSession - {conn},
       writers := t.writers - {conn},
       addresses := t.addresses - {conn},
       watch := Forget(t.watch, conn),
       watching := Forget(t.watching, conn),
       tick := t.tick + 1)
  }

  /** The connection's own sessions, in the order the table happens to be walked. */
  ghost function KeyOrder(env: Env, t: Tables, conn: Conn): (order: seq<Key>)
    requires env.Fair()
    ensures Enumerates(order, KeysOf(t.routes, conn))
    ensures forall k :: k in order ==> k in t.routes && k.conn == conn
  {
    var order := env.keyOrder(t.tick, KeysOf(t.routes, conn));
    assert forall k :: k in order ==> k in KeysOf(t.routes, conn);
    order
  }

  // ---- operations ----

  /** What the actor does: handle an event, or take the overflow list to tear its members down. */
  datatype Op = Do(event: Event) | TakeOverflow

  function Step(t: Tables, op: Op): Tables {
    match op
    case TakeOverflow => t
    case Do(NewConnection(conn, services)) => Register(t, conn, services)
    case Do(Frame(conn, service, payload)) => FrameTables(t, conn, service, payload)
    case Do(Disconnected(conn)) => Remove(t, conn)
  }

  /** On a teardown, watchers are told while the connection's queue is still there, peers after. */
  ghost function Emit(env: Env, t: Tables, o: Outbox, op: Op): Outbox
    requires env.Fair()
  {
    match op
    case TakeOverflow => o.(overflow := [])
    case Do(NewConnection(_, _)) => o
    case Do(Frame(conn, service, payload)) => SendAll(env, t.writers, o, FrameOutput(t, conn, service, payload))
    case Do(Disconnected(conn)) =>
      SendAll(env, t.writers - {conn}, SendAll(env, t.writers, o, ExitNotices(env, t, conn)),
              TeardownNotices(t.routes, KeyOrder(env, t, conn), conn))
  }

  /** The tables after a run. They depend on what was asked, not on the queues. */
  function After(ops: seq<Op>): Tables {
    if ops == [] then NoTables else Step(After(ops[..|ops|-1]), ops[|ops|-1])
  }

  ghost function Sent(env: Env, ops: seq<Op>): Outbox
    requires env.Fair()
  {
    if ops == [] then NothingSent
    else Emit(env, After(ops[..|ops|-1]), Sent(env, ops[..|ops|-1]), ops[|ops|-1])
  }

  // ---- the actor ----

  function Members(cs: seq<Conn>): set<Conn> { set c | c in cs }

  /** First occurrences only. */
  function Dedup(cs: seq<Conn>): seq<Conn> {
    if cs == [] then []
    else
      var init := Dedup(cs[..|cs|-1]);
      if cs[|cs|-1] in cs[..|cs|-1] then init else init + [cs[|cs|-1]]
  }

  function Disconnects(cs: seq<Conn>): seq<Op> {
    if cs == [] then [] else Disconnects(cs[..|cs|-1]) + [Do(Disconnected(cs[|cs|-1]))]
  }

  /** One turn of the loop: the event, then every connection whose queue has overflowed, once each. */
  ghost function Turn(env: Env, ops: seq<Op>, e: Event): seq<Op>
    requires env.Fair()
  {
    ops + [Do(e)] + [TakeOverflow] + Disconnects(Dedup(Sent(env, ops + [Do(e)]).overflow))
  }

  /** What the loop does for a stream of events. */
  ghost function ActorOps(env: Env, es: seq<Event>): seq<Op>
    requires env.Fair()
  {
    if es == [] then [] else Turn(env, ActorOps(env, es[..|es|-1]), es[|es|-1])
  }
}
