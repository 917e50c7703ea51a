/** What every operation of the routing server keeps, over any sequence of operations. */
module RoutingInvariants {
  import opened Routing

  ghost function Subject(op: Op): set<Conn> {
    match op
    case Do(e) => {e.conn}
    case TakeOverflow => {}
  }

  /** The connections named by some operation so far. */
  ghost function Seen(ops: seq<Op>): set<Conn> {
    if ops == [] then {} else Seen(ops[..|ops|-1]) + Subject(ops[|ops|-1])
  }

  ghost predicate FreshOp(op: Op, seen: set<Conn>) {
    op.Do? && op.event.NewConnection? ==> op.event.conn !in seen
  }

  /** The accept path numbers connections, so a connection is announced before anything else names it. */
  ghost predicate Fresh(ops: seq<Op>) {
    ops == [] || (Fresh(ops[..|ops|-1]) && FreshOp(ops[|ops|-1], Seen(ops[..|ops|-1])))
  }

  // ---- the invariant ----

  /** Both ends of a route hold that same route, and the ends are on different connections. */
  ghost predicate Paired(routes: map<Key, Route>) {
    forall k :: k in routes ==>
      var r := routes[k];
      && (k == r.consumer || k == r.provider)
      && r.consumer.conn != r.provider.conn
      && r.consumer in routes && routes[r.consumer] == r
      && r.provider in routes && routes[r.provider] == r
  }

  ghost predicate IdsBounded(t: Tables) {
    && (forall c :: c in t.nextSession ==> 1 <= t.nextSession[c] <= RESERVED_SESSION)
    && (forall k :: k in t.routes ==> k.conn in t.nextSession && 1 <= k.session < t.nextSession[k.conn])
  }

  /** No empty provider list, and only live providers. */
  ghost predicate Providing(p: map<Uuid, seq<Conn>>, live: set<Conn>) {
    forall u :: u in p ==> p[u] != [] && forall c :: c in p[u] ==> c in live
  }

  ghost predicate Registered(t: Tables) {
    && t.writers <= t.nextSession.Keys
    && t.addresses.Keys == t.writers
    && (forall c :: c in t.addresses ==> t.addresses[c] == Local(c))
    && Providing(t.providers, t.writers)
  }

  predicate Linked(m: map<Conn, set<Conn>>, a: Conn, b: Conn) { a in m && b in m[a] }

  /** The watch table and its reverse index are exact inverses and hold no empty sets. */
  ghost predicate Inverse(t: Tables) {
    && (forall a, b :: Linked(t.watch, a, b) <==> Linked(t.watching, b, a))
    && (forall a :: a in t.watch ==> t.watch[a] != {} && a in t.writers)
    && (forall b :: b in t.watching ==> t.watching[b] != {})
  }

  ghost predicate Known(t: Tables, seen: set<Conn>) {
    && t.nextSession.Keys <= seen
    && (forall b :: b in t.watching ==> b in seen)
  }

  ghost predicate Consistent(t: Tables, seen: set<Conn>) {
    Paired(t.routes) && IdsBounded(t) && Registered(t) && Inverse(t) && Known(t, seen)
  }

  // ---- one step at a time ----

  lemma {:induction false} Widen(t: Tables, seen: set<Conn>, more: set<Conn>)
    requires Consistent(t, seen) && seen <= more
    ensures Consistent(t, more)
  {
  }

  lemma {:induction false} ProvidersGrow(p: map<Uuid, seq<Conn>>, conn: Conn, services: seq<Uuid>, live: set<Conn>)
    requires conn in live && Providing(p, live)
    ensures Providing(AddProviders(p, conn, services), live)
  {
    if services != [] {
      ProvidersGrow(p, conn, services[..|services|-1], live);
      var q0, u := AddProviders(p, conn, services[..|services|-1]), services[|services|-1];
      var q := q0[u := Providers(q0, u) + [conn]];
      assert Providing(q, live) by {
        forall v | v in q ensures q[v] != [] && forall c :: c in q[v] ==> c in live {
          if v == u { assert q[v] == Providers(q0, u) + [conn]; } else { assert q[v] == q0[v]; }
        }
      }
    }
  }

  lemma {:induction false} RegisterConsistent(t: Tables, conn: Conn, services: seq<Uuid>, seen: set<Conn>)
    requires Consistent(t, seen) && conn !in seen
    ensures Consistent(Register(t, conn, services), seen + {conn})
  {
    ProvidersGrow(t.providers, conn, services, t.writers + {conn});
  }

  lemma {:induction false} AllocConsistent(t: Tables, conn: Conn, seen: set<Conn>)
    requires Consistent(t, seen) && conn in seen
    ensures var (t1, id) := AllocSession(t, conn);
            && Consistent(t1, seen)
            && (id.Some? ==> 1 <= id.value < RESERVED_SESSION && t1.nextSession[conn] == id.value + 1)
            && (id.Some? && conn in t.nextSession ==> id.value == t.nextSession[conn])
            && (id.Some? ==> Key(conn, id.value) !in t.routes)
  {
  }

  /** Adding a route between two ids that were just handed out. */
  lemma {:induction false} ConnectConsistent(t: Tables, a: Key, b: Key, seen: set<Conn>)
    requires Consistent(t, seen) && a.conn != b.conn && a !in t.routes && b !in t.routes
    requires a.conn in t.nextSession && 1 <= a.session < t.nextSession[a.conn]
    requires b.conn in t.nextSession && 1 <= b.session < t.nextSession[b.conn]
    ensures Consistent(t.(routes := t.routes[a := Route(a, b)][b := Route(a, b)]), seen)
  {
    var routes := t.routes[a := Route(a, b)][b := Route(a, b)];
    forall k | k in routes
      ensures var r := routes[k];
              && (k == r.consumer || k == r.provider) && r.consumer.conn != r.provider.conn
              && r.consumer in routes && routes[r.consumer] == r
              && r.provider in routes && routes[r.provider] == r
    {
      if k != a && k != b { assert k in t.routes; }
    }
  }

  lemma {:induction false} DeclareConsistent(t: Tables, conn: Conn, service: Uuid, seen: set<Conn>)
    requires Consistent(t, seen)
    ensures Consistent(Declare(t, conn, service).tables, seen + {conn})
  {
    var more := seen + {conn};
    Widen(t, seen, more);
    if Providers(t.providers, service) != [] {
      var provider := t.providers[service][0];
      assert provider in t.writers;
      if provider != conn {
        AllocConsistent(t, conn, more);
        var (t1, a) := AllocSession(t, conn);
        AllocConsistent(t1, provider, more);
        var (t2, b) := AllocSession(t1, provider);
        if a.Some? && b.Some? {
          ConnectConsistent(t2, Key(conn, a.value), Key(provider, b.value), more);
        }
      }
    }
  }

  lemma {:induction false} RevokeTablesConsistent(t: Tables, k: Key, seen: set<Conn>)
    requires Consistent(t, seen) && k in t.routes
    ensures Consistent(t.(routes := t.routes - {k} - {t.routes[k].Peer(k.conn)}), seen)
  {
  }

  lemma {:induction false} RemovedLinks(m: map<Conn, set<Conn>>, a: Conn, b: Conn)
    ensures forall x, y :: Linked(RemoveLink(m, a, b), x, y) <==> Linked(m, x, y) && !(x == a && y == b)
  {
    forall x, y ensures Linked(RemoveLink(m, a, b), x, y) <==> Linked(m, x, y) && !(x == a && y == b) {
      if Linked(m, x, y) && x == a && y != b { assert y in m[a] - {b}; }
    }
  }

  lemma {:induction false} ForgottenLinks(m: map<Conn, set<Conn>>, c: Conn)
    ensures forall x, y :: Linked(Forget(m, c), x, y) <==> Linked(m, x, y) && x != c && y != c
  {
    forall x, y ensures Linked(Forget(m, c), x, y) <==> Linked(m, x, y) && x != c && y != c {
      if Linked(m, x, y) && x != c && y != c { assert y in m[x] - {c}; }
    }
  }

  lemma {:induction false} WatchConsistent(t: Tables, conn: Conn, target: Conn, seen: set<Conn>)
    requires Consistent(t, seen) && target in t.writers
    ensures Consistent(
              t.(watch := AddLink(t.watch, target, conn), watching := AddLink(t.watching, conn, target)),
              seen + {conn})
  {
    var t1 := t.(watch := AddLink(t.watch, target, conn), watching := AddLink(t.watching, conn, target));
    forall a, b ensures Linked(t1.watch, a, b) <==> Linked(t1.watching, b, a) {
      assert Linked(t.watch, a, b) <==> Linked(t.watching, b, a);
    }
  }

  lemma {:induction false} UnwatchConsistent(t: Tables, conn: Conn, target: Conn, seen: set<Conn>)
    requires Consistent(t, seen)
    ensures Consistent(
              t.(watch := RemoveLink(t.watch, target, conn), watching := RemoveLink(t.watching, conn, target)),
              seen + {conn})
  {
    RemovedLinks(t.watch, target, conn);
    RemovedLinks(t.watching, conn, target);
  }

  lemma {:induction false} WithoutMembers(cs: seq<Conn>, c: Conn)
    ensures forall x :: x in Without(cs, c) <==> x in cs && x != c
  {
    if cs != [] {
      WithoutMembers(cs[..|cs|-1], c);
      assert cs == cs[..|cs|-1] + [cs[|cs|-1]];
    }
  }

  lemma {:induction false} DetachedPaired(routes: map<Key, Route>, conn: Conn)
    requires Paired(routes)
    ensures Paired(Detached(routes, conn))
  {
  }

  lemma {:induction false} ProvidersLeave(p: map<Uuid, seq<Conn>>, conn: Conn, live: set<Conn>)
    requires Providing(p, live)
    ensures Providing(DropProvider(p, conn), live - {conn})
  {
    forall u | u in p ensures forall c :: c in Without(p[u], conn) ==> c in live - {conn} {
      WithoutMembers(p[u], conn);
    }
  }

  lemma {:induction false} RemoveConsistent(t: Tables, conn: Conn, seen: set<Conn>)
    requires Consistent(t, seen)
    ensures Consistent(Remove(t, conn), seen)
  {
    ForgottenLinks(t.watch, conn);
    ForgottenLinks(t.watching, conn);
    ProvidersLeave(t.providers, conn, t.writers);
    DetachedPaired(t.routes, conn);
  }

  lemma {:induction false} FrameConsistent(t: Tables, conn: Conn, service: nat, payload: Payload, seen: set<Conn>)
    requires Consistent(t, seen)
    ensures Consistent(FrameTables(t, conn, service, payload), seen + {conn})
  {
    Widen(t, seen, seen + {conn});
    if service == 0 && payload.Message? {
      match payload.control
      case DeclareInterest(uuid, _) => DeclareConsistent(t, conn, uuid, seen);
      case RevokeInterest(session) =>
        if Key(conn, session) in t.routes { RevokeTablesConsistent(t, Key(conn, session), seen + {conn}); }
      case Watch(target) =>
        if Resolve(t, target).Some? { WatchConsistent(t, conn, target.pane, seen); }
      case Unwatch(target) =>
        if Resolve(t, target).Some? { UnwatchConsistent(t, conn, target.pane, seen); }
      case _ =>
    }
  }

  lemma {:induction false} StepConsistent(t: Tables, op: Op, seen: set<Conn>)
    requires Consistent(t, seen) && FreshOp(op, seen)
    ensures Consistent(Step(t, op), seen + Subject(op))
  {
    match op
    case TakeOverflow =>
    case Do(NewConnection(conn, services)) => RegisterConsistent(t, conn, services, seen);
    case Do(Frame(conn, service, payload)) => FrameConsistent(t, conn, service, payload, seen);
    case Do(Disconnected(conn)) =>
      RemoveConsistent(t, conn, seen);
      Widen(Remove(t, conn), seen, seen + {conn});
  }

  /** The tables are consistent in every reachable state. */
  lemma {:induction false} RunConsistent(ops: seq<Op>)
    requires Fresh(ops)
    ensures Consistent(After(ops), Seen(ops))
  {
    if ops != [] {
      RunConsistent(ops[..|ops|-1]);
      StepConsistent(After(ops[..|ops|-1]), ops[|ops|-1], Seen(ops[..|ops|-1]));
    }
  }

  // ---- the outbox ----

  /** Only connections some operation named are ever written to, or marked. */
  ghost predicate Addressed(o: Outbox, seen: set<Conn>) {
    && (forall a :: a in o.log ==> a.msg.conn in seen)
    && (forall c :: c in o.overflow ==> c in seen)
  }

  lemma {:induction false} SendAddressed(env: Env, writers: set<Conn>, o: Outbox, ms: seq<Msg>, seen: set<Conn>)
    requires Addressed(o, seen) && writers <= seen
    ensures Addressed(SendAll(env, writers, o, ms), seen)
  {
    if ms != [] { SendAddressed(env, writers, o, ms[..|ms|-1], seen); }
  }

  lemma {:induction false} EmitAddressed(env: Env, t: Tables, o: Outbox, op: Op, seen: set<Conn>)
    requires env.Fair() && Consistent(t, seen) && Addressed(o, seen)
    ensures Addressed(Emit(env, t, o, op), seen)
  {
    match op
    case TakeOverflow =>
    case Do(NewConnection(_, _)) =>
    case Do(Frame(conn, service, payload)) =>
      SendAddressed(env, t.writers, o, FrameOutput(t, conn, service, payload), seen);
    case Do(Disconnected(conn)) =>
      var exits := ExitNotices(env, t, conn);
      SendAddressed(env, t.writers, o, exits, seen);
      SendAddressed(env, t.writers - {conn}, SendAll(env, t.writers, o, exits),
                    TeardownNotices(t.routes, KeyOrder(env, t, conn), conn), seen);
  }

  lemma {:induction false} RunAddressed(env: Env, ops: seq<Op>)
    requires env.Fair() && Fresh(ops)
    ensures Addressed(Sent(env, ops), Seen(ops))
  {
    if ops != [] {
      var init := ops[..|ops|-1];
      RunAddressed(env, init);
      RunConsistent(init);
      EmitAddressed(env, After(init), Sent(env, init), ops[|ops|-1], Seen(init));
    }
  }
}
