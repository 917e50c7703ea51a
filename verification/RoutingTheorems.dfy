/** What the routing server promises its clients, over every run. */
module RoutingTheorems {
  import opened Routing
  import opened RoutingInvariants
  import opened RoutingLog

  // ---- the routing table is a fixpoint-free involution ----

  /**
   In every reachable state: following a route leads to another connection, whose end holds the same
   route and leads straight back, and both ids are clear of 0 and of the reserved discriminant.
   */
  lemma {:induction false} RoutesAreInvolution(ops: seq<Op>, k: Key)
    requires Fresh(ops) && k in After(ops).routes
    ensures var routes := After(ops).routes;
            var peer := routes[k].Peer(k.conn);
            && peer.conn != k.conn
            && peer in routes && routes[peer] == routes[k]
            && routes[peer].Peer(peer.conn) == k
            && 1 <= k.session < RESERVED_SESSION && 1 <= peer.session < RESERVED_SESSION
  {
    RunConsistent(ops);
  }

  predicate Encodable(m: Msg) { m.service < RESERVED_SESSION }

  lemma {:induction false} SendEncodable(env: Env, writers: set<Conn>, o: Outbox, ms: seq<Msg>)
    requires forall a :: a in o.log ==> Encodable(a.msg)
    requires forall m :: m in ms ==> Encodable(m)
    ensures forall a :: a in SendAll(env, writers, o, ms).log ==> Encodable(a.msg)
  {
    if ms != [] { SendEncodable(env, writers, o, ms[..|ms|-1]); }
  }

  lemma {:induction false} NoticeMembers(routes: map<Key, Route>, order: seq<Key>, conn: Conn)
    requires forall k :: k in order ==> k in routes
    ensures forall m :: m in TeardownNotices(routes, order, conn) ==>
              m.service == 0 && m.payload.Message? && m.payload.control.ServiceTeardown?
  {
    if order != [] {
      assert forall k :: k in order[..|order|-1] ==> k in order;
      NoticeMembers(routes, order[..|order|-1], conn);
    }
  }

  lemma {:induction false} BroadcastMembers(order: seq<Conn>, c: Control)
    ensures forall m :: m in Broadcast(order, c) ==> m.service == 0 && m.payload == Message(c)
  {
    if order != [] { BroadcastMembers(order[..|order|-1], c); }
  }

  lemma {:induction false} ExitMembers(env: Env, t: Tables, conn: Conn)
    ensures forall m :: m in ExitNotices(env, t, conn) ==>
              m.service == 0 && m.payload.Message? && m.payload.control.PaneExited?
  {
    if conn in t.watch && conn in t.addresses {
      BroadcastMembers(env.watcherOrder(t.tick, t.watch[conn]), PaneExited(t.addresses[conn]));
    }
  }

  lemma {:induction false} FrameEncodable(t: Tables, conn: Conn, service: nat, payload: Payload, seen: set<Conn>)
    requires Consistent(t, seen)
    ensures forall m :: m in FrameOutput(t, conn, service, payload) ==> Encodable(m)
  {
  }

  /** The encoder's "not the abort discriminant" assertion holds for every frame ever enqueued. */
  lemma {:induction false} AbortNeverEncoded(env: Env, ops: seq<Op>)
    requires env.Fair() && Fresh(ops)
    ensures forall a :: a in Sent(env, ops).log ==> Encodable(a.msg)
  {
    if ops != [] {
      var init, op := ops[..|ops|-1], ops[|ops|-1];
      AbortNeverEncoded(env, init);
      RunConsistent(init);
      var t, o := After(init), Sent(env, init);
      match op
      case TakeOverflow =>
      case Do(NewConnection(_, _)) =>
      case Do(Frame(conn, service, payload)) =>
        FrameEncodable(t, conn, service, payload, Seen(init));
        SendEncodable(env, t.writers, o, FrameOutput(t, conn, service, payload));
      case Do(Disconnected(conn)) =>
        ExitMembers(env, t, conn);
        NoticeMembers(t.routes, KeyOrder(env, t, conn), conn);
        SendEncodable(env, t.writers, o, ExitNotices(env, t, conn));
        SendEncodable(env, t.writers - {conn}, SendAll(env, t.writers, o, ExitNotices(env, t, conn)),
                      TeardownNotices(t.routes, KeyOrder(env, t, conn), conn));
    }
  }

  // ---- accepts and teardowns balance ----

  ghost function Accepts(o: Outbox, k: Key): nat { |Select(o.log, AcceptOf(k.conn, k.session))| }
  ghost function Teardowns(o: Outbox, k: Key): nat { |Select(o.log, TeardownOf(k.conn, k.session))| }

  /** Opened once and still open, opened once and closed once, or never opened. */
  ghost predicate Balanced(t: Tables, o: Outbox, k: Key) {
    && (k in t.routes ==> Accepts(o, k) == 1 && Teardowns(o, k) == 0)
    && (k !in t.routes ==> Accepts(o, k) == Teardowns(o, k) <= 1)
    && (k.session >= NextOf(t, k.conn) ==> Accepts(o, k) == 0)
  }

  lemma {:induction false} NoticeMatch(routes: map<Key, Route>, q: Key, k: Key)
    requires Paired(routes) && q in routes && k.conn != q.conn
    ensures Matches(TeardownOf(k.conn, k.session), TeardownNotice(routes[q].Peer(q.conn)))
            <==> k in routes && routes[k].Peer(k.conn) == q
  {
    var peer := routes[q].Peer(q.conn);
    assert peer in routes && routes[peer].Peer(peer.conn) == q;
  }

  /** A teardown of `conn` notifies end `k` once if its other end is in `order`, and never otherwise. */
  lemma {:induction false} NoticesPerEnd(routes: map<Key, Route>, order: seq<Key>, conn: Conn, k: Key)
    requires Paired(routes)
    requires forall q :: q in order ==> q in routes && q.conn == conn
    requires forall i, j :: 0 <= i < j < |order| ==> order[i] != order[j]
    requires k.conn != conn
    ensures |Picked(TeardownNotices(routes, order, conn), TeardownOf(k.conn, k.session))|
         == if k in routes && routes[k].Peer(k.conn) in order then 1 else 0
  {
    if order != [] {
      var init, q := order[..|order|-1], order[|order|-1];
      assert order == init + [q];
      assert q !in init;
      NoticesPerEnd(routes, init, conn, k);
      NoticeMatch(routes, q, k);
      var notice := TeardownNotice(routes[q].Peer(conn));
      PickedAppend(TeardownNotices(routes, init, conn), notice, TeardownOf(k.conn, k.session));
    }
  }

  lemma {:induction false} ExitsTearNothingDown(env: Env, t: Tables, conn: Conn, k: Key)
    requires env.Fair()
    ensures Picked(ExitNotices(env, t, conn), TeardownOf(k.conn, k.session)) == []
  {
    ExitMembers(env, t, conn);
    PickedNone(ExitNotices(env, t, conn), TeardownOf(k.conn, k.session));
  }

  lemma {:induction false} FarEndListed(env: Env, t: Tables, conn: Conn, k: Key)
    requires env.Fair() && Paired(t.routes) && k in t.routes
    ensures t.routes[k].Peer(k.conn) in KeyOrder(env, t, conn) <==> t.routes[k].Peer(k.conn).conn == conn
  {
    var q := t.routes[k].Peer(k.conn);
    assert q in t.routes;
    assert q in KeysOf(t.routes, conn) <==> q.conn == conn;
  }

  lemma {:induction false} DisconnectTeardowns(env: Env, t: Tables, conn: Conn, k: Key, seen: set<Conn>)
    requires env.Fair() && Consistent(t, seen) && k.conn != conn
    ensures |Picked(Output(env, t, Do(Disconnected(conn))), TeardownOf(k.conn, k.session))|
         == if k in t.routes && t.routes[k].Peer(k.conn).conn == conn then 1 else 0
  {
    var order := KeyOrder(env, t, conn);
    ExitsTearNothingDown(env, t, conn, k);
    PickedConcat(ExitNotices(env, t, conn), TeardownNotices(t.routes, order, conn), TeardownOf(k.conn, k.session));
    NoticesPerEnd(t.routes, order, conn, k);
    if k in t.routes {
      FarEndListed(env, t, conn, k);
    }
  }

  /** A teardown sends only notices: no acceptance, and no data. */
  lemma {:induction false} DisconnectSilent(env: Env, t: Tables, conn: Conn, p: Pattern)
    requires env.Fair() && (p.AcceptOf? || p.DataOn?)
    ensures Picked(Output(env, t, Do(Disconnected(conn))), p) == []
  {
    ExitMembers(env, t, conn);
    NoticeMembers(t.routes, KeyOrder(env, t, conn), conn);
    PickedNone(Output(env, t, Do(Disconnected(conn))), p);
  }

  /** A successful declare opens two ends that were not in the table; a failed one opens none. */
  lemma {:induction false} DeclareKeys(t: Tables, conn: Conn, service: Uuid, seen: set<Conn>)
    requires Consistent(t, seen)
    ensures var d := Declare(t, conn, service);
            && (d.Declined? ==> d.tables.routes == t.routes)
            && (d.Accepted? ==>
                 && d.consumer.conn == conn && d.provider.conn != conn && d.provider.conn in t.writers
                 && d.consumer !in t.routes && d.provider !in t.routes
                 && var route := Route(d.consumer, d.provider);
                    d.tables.routes == t.routes[d.consumer := route][d.provider := route])
  {
    if Providers(t.providers, service) != [] {
      var provider := t.providers[service][0];
      assert provider in t.writers;
    }
  }

  lemma {:induction false} DeclarePicked(t: Tables, conn: Conn, service: Uuid, k: Key, seen: set<Conn>)
    requires Consistent(t, seen)
    ensures var d := Declare(t, conn, service);
            var out := DeclareOutput(conn, service, d);
            && |Picked(out, AcceptOf(k.conn, k.session))| == (if k in d.tables.routes && k !in t.routes then 1 else 0)
            && |Picked(out, TeardownOf(k.conn, k.session))| == 0 && (k in t.routes ==> k in d.tables.routes)
  {
    var d := Declare(t, conn, service);
    var out := DeclareOutput(conn, service, d);
    DeclareKeys(t, conn, service, seen);
    PickedNone(out, TeardownOf(k.conn, k.session));
    if d.Accepted? {
      PickedTwo(out[0], out[1], AcceptOf(k.conn, k.session));
    } else {
      PickedOne(out[0], AcceptOf(k.conn, k.session));
    }
  }

  lemma {:induction false} RevokePicked(t: Tables, conn: Conn, session: nat, k: Key, seen: set<Conn>)
    requires Consistent(t, seen) && Key(conn, session) in t.routes
    ensures var q := Key(conn, session);
            var out := RevokeOutput(t, conn, session);
            && |Picked(out, AcceptOf(k.conn, k.session))| == 0
            && |Picked(out, TeardownOf(k.conn, k.session))| == if k == q || k == t.routes[q].Peer(conn) then 1 else 0
  {
    var out := RevokeOutput(t, conn, session);
    PickedNone(out, AcceptOf(k.conn, k.session));
    PickedTwo(out[0], out[1], TeardownOf(k.conn, k.session));
  }

  lemma {:induction false} FrameOutputPicked(
    t: Tables, conn: Conn, service: nat, payload: Payload, k: Key, seen: set<Conn>)
    requires Consistent(t, seen)
    ensures var out := FrameOutput(t, conn, service, payload);
            var t1 := FrameTables(t, conn, service, payload);
            && |Picked(out, AcceptOf(k.conn, k.session))| == (if k in t1.routes && k !in t.routes then 1 else 0)
            && |Picked(out, TeardownOf(k.conn, k.session))| == (if k in t.routes && k !in t1.routes then 1 else 0)
  {
    if service == 0 && payload.Message? && payload.control.DeclareInterest? {
      DeclarePicked(t, conn, payload.control.service, k, seen);
    } else if service == 0 && payload.Message? && payload.control.RevokeInterest?
              && Key(conn, payload.control.session) in t.routes {
      RevokePicked(t, conn, payload.control.session, k, seen);
    } else {
      var out := FrameOutput(t, conn, service, payload);
      PickedNone(out, AcceptOf(k.conn, k.session));
      PickedNone(out, TeardownOf(k.conn, k.session));
    }
  }

  lemma {:induction false} DeclareCounters(t: Tables, conn: Conn, service: Uuid, k: Key, seen: set<Conn>)
    requires Consistent(t, seen)
    ensures var t1 := Declare(t, conn, service).tables;
            && NextOf(t, k.conn) <= NextOf(t1, k.conn)
            && (k in t1.routes && k !in t.routes ==> NextOf(t, k.conn) <= k.session < NextOf(t1, k.conn))
  {
    DeclareKeys(t, conn, service, seen);
  }

  lemma {:induction false} FrameCounters(t: Tables, conn: Conn, service: nat, payload: Payload, k: Key, seen: set<Conn>)
    requires Consistent(t, seen)
    ensures var t1 := FrameTables(t, conn, service, payload);
            && NextOf(t, k.conn) <= NextOf(t1, k.conn)
            && (k in t1.routes && k !in t.routes ==> NextOf(t, k.conn) <= k.session < NextOf(t1, k.conn))
  {
    if service == 0 && payload.Message? && payload.control.DeclareInterest? {
      DeclareCounters(t, conn, payload.control.service, k, seen);
    }
  }

  lemma {:induction false} FrameBalanced(env: Env, t: Tables, o: Outbox, op: Op, k: Key, seen: set<Conn>)
    requires env.Fair() && Consistent(t, seen) && op.Do? && op.event.Frame?
    requires k.conn in t.writers && Balanced(t, o, k)
    ensures Balanced(Step(t, op), Emit(env, t, o, op), k)
  {
    var Frame(conn, service, payload) := op.event;
    OpSelect(env, t, o, op, AcceptOf(k.conn, k.session));
    OpSelect(env, t, o, op, TeardownOf(k.conn, k.session));
    FrameOutputPicked(t, conn, service, payload, k, seen);
    FrameCounters(t, conn, service, payload, k, seen);
  }

  lemma {:induction false} DisconnectBalanced(env: Env, t: Tables, o: Outbox, conn: Conn, k: Key, seen: set<Conn>)
    requires env.Fair() && Consistent(t, seen) && k.conn != conn
    requires k.conn in t.writers && Balanced(t, o, k)
    ensures Balanced(Step(t, Do(Disconnected(conn))), Emit(env, t, o, Do(Disconnected(conn))), k)
  {
    OpSelect(env, t, o, Do(Disconnected(conn)), AcceptOf(k.conn, k.session));
    OpSelect(env, t, o, Do(Disconnected(conn)), TeardownOf(k.conn, k.session));
    DisconnectTeardowns(env, t, conn, k, seen);
    DisconnectSilent(env, t, conn, AcceptOf(k.conn, k.session));
  }

  lemma {:induction false} StepBalanced(env: Env, t: Tables, o: Outbox, op: Op, k: Key, seen: set<Conn>)
    requires env.Fair() && Consistent(t, seen) && Addressed(o, seen) && FreshOp(op, seen)
    requires k.conn in t.writers ==> Balanced(t, o, k)
    requires k.conn in Step(t, op).writers
    ensures Balanced(Step(t, op), Emit(env, t, o, op), k)
  {
    if k.conn !in t.writers {
      NewcomerSelect(env, t, o, op, AcceptOf(k.conn, k.session), seen);
      NewcomerSelect(env, t, o, op, TeardownOf(k.conn, k.session), seen);
    } else {
      match op
      case TakeOverflow =>
      case Do(NewConnection(_, _)) =>
      case Do(Frame(_, _, _)) => FrameBalanced(env, t, o, op, k, seen);
      case Do(Disconnected(conn)) => DisconnectBalanced(env, t, o, conn, k, seen);
    }
  }

  /**
   For every session of a connection that is still registered, the server has tried one acceptance and no
   teardown exactly while the route stands, and otherwise as many teardowns as acceptances, at most one:
   no session is opened twice, torn down twice, or lost without a teardown.
   */
  lemma {:induction false} AcceptsBalanceTeardowns(env: Env, ops: seq<Op>, k: Key)
    requires env.Fair() && Fresh(ops) && k.conn in After(ops).writers
    ensures Balanced(After(ops), Sent(env, ops), k)
  {
    if ops != [] {
      var init := ops[..|ops|-1];
      RunConsistent(init);
      RunAddressed(env, init);
      if k.conn in After(init).writers { AcceptsBalanceTeardowns(env, init, k); }
      StepBalanced(env, After(init), Sent(env, init), ops[|ops|-1], k, Seen(init));
    }
  }

  // ---- private pipes ----

  /** `op` carries a payload from the far end of the route that `k` is on. */
  ghost predicate Feeds(t: Tables, op: Op, k: Key) {
    && op.Do? && op.event.Frame? && op.event.service != 0
    && k in t.routes && t.routes[k].Peer(k.conn) == Key(op.event.conn, op.event.service)
  }

  /** The payloads that the session paired with `k` sent while the route existed. */
  ghost function SentTo(ops: seq<Op>, k: Key): seq<Payload> {
    if ops == [] then []
    else
      var init, op := ops[..|ops|-1], ops[|ops|-1];
      SentTo(init, k) + (if Feeds(After(init), op, k) then [op.event.payload] else [])
  }

  lemma {:induction false} FramePipes(t: Tables, op: Op, k: Key, seen: set<Conn>)
    requires Consistent(t, seen) && op.Do? && op.event.Frame? && k.session != 0
    ensures Picked(FrameOutput(t, op.event.conn, op.event.service, op.event.payload), DataOn(k.conn, k.session))
         == if Feeds(t, op, k) then [op.event.payload] else []
  {
    var Frame(conn, service, payload) := op.event;
    var out, p := FrameOutput(t, conn, service, payload), DataOn(k.conn, k.session);
    if service == 0 {
      PickedNone(out, p);
    } else if Key(conn, service) in t.routes {
      PickedOne(out[0], p);
      assert out == [out[0]];
    }
  }

  lemma {:induction false} UnseenUnsent(ops: seq<Op>, k: Key)
    requires Fresh(ops) && k.conn !in Seen(ops)
    ensures SentTo(ops, k) == []
  {
    if ops != [] {
      UnseenUnsent(ops[..|ops|-1], k);
      RunConsistent(ops[..|ops|-1]);
    }
  }

  lemma {:induction false} StepPipes(env: Env, t: Tables, op: Op, k: Key, seen: set<Conn>)
    requires env.Fair() && Consistent(t, seen) && k.session != 0
    ensures Picked(Output(env, t, op), DataOn(k.conn, k.session)) == if Feeds(t, op, k) then [op.event.payload] else []
  {
    match op
    case TakeOverflow =>
    case Do(NewConnection(_, _)) =>
    case Do(Disconnected(conn)) => DisconnectSilent(env, t, conn, DataOn(k.conn, k.session));
    case Do(Frame(_, _, _)) => FramePipes(t, op, k, seen);
  }

  /**
   What the server has tried to enqueue on a session of a registered connection is exactly, and in
   order, what its paired session sent while the route existed; nothing else ever reaches it.
   */
  lemma {:induction false} PrivatePipes(env: Env, ops: seq<Op>, k: Key)
    requires env.Fair() && Fresh(ops) && k.conn in After(ops).writers && k.session != 0
    ensures Select(Sent(env, ops).log, DataOn(k.conn, k.session)) == SentTo(ops, k)
  {
    if ops != [] {
      var init, op := ops[..|ops|-1], ops[|ops|-1];
      var t, o, p := After(init), Sent(env, init), DataOn(k.conn, k.session);
      RunConsistent(init);
      RunAddressed(env, init);
      if k.conn in t.writers {
        PrivatePipes(env, init, k);
        OpSelect(env, t, o, op, p);
        StepPipes(env, t, op, k, Seen(init));
      } else {
        NewcomerSelect(env, t, o, op, p, Seen(init));
        UnseenUnsent(init, k);
      }
    }
  }

  // ---- one partner per session ----

  /** Continue from some tables. */
  ghost function From(t: Tables, ops: seq<Op>): Tables
    decreases |ops|
  {
    if ops == [] then t else From(Step(t, ops[0]), ops[1..])
  }

  ghost predicate FreshFrom(ops: seq<Op>, seen: set<Conn>)
    decreases |ops|
  {
    ops == [] || (FreshOp(ops[0], seen) && FreshFrom(ops[1..], seen + Subject(ops[0])))
  }

  /** A connection that was named and is not registered never is again. */
  lemma {:induction false} NeverReregistered(t: Tables, seen: set<Conn>, ops: seq<Op>, conn: Conn)
    requires FreshFrom(ops, seen) && conn in seen && conn !in t.writers
    ensures conn !in From(t, ops).writers
    decreases |ops|
  {
    if ops != [] { NeverReregistered(Step(t, ops[0]), seen + Subject(ops[0]), ops[1..], conn); }
  }

  lemma {:induction false} FrameKeepsRoute(
    t: Tables, conn: Conn, service: nat, payload: Payload, k: Key, seen: set<Conn>)
    requires Consistent(t, seen) && k.session < NextOf(t, k.conn)
    ensures var t1 := FrameTables(t, conn, service, payload);
            k in t1.routes ==> k in t.routes && t.routes[k] == t1.routes[k]
  {
    FrameCounters(t, conn, service, payload, k, seen);
    if service == 0 && payload.Message? && payload.control.DeclareInterest? {
      DeclareKeys(t, conn, payload.control.service, seen);
    }
  }

  /** On a connection that stays registered, an id that was handed out is never routed anew. */
  lemma {:induction false} StepKeepsRoute(t: Tables, op: Op, k: Key, seen: set<Conn>)
    requires Consistent(t, seen) && FreshOp(op, seen)
    requires k.conn in t.writers && k.conn in Step(t, op).writers
    requires k.session < NextOf(t, k.conn)
    ensures k.session < NextOf(Step(t, op), k.conn)
    ensures k in Step(t, op).routes ==> k in t.routes && t.routes[k] == Step(t, op).routes[k]
  {
    match op
    case TakeOverflow =>
    case Do(NewConnection(_, _)) =>
    case Do(Disconnected(_)) =>
    case Do(Frame(conn, service, payload)) =>
      FrameCounters(t, conn, service, payload, k, seen);
      FrameKeepsRoute(t, conn, service, payload, k, seen);
  }

  /**
   While its connection is registered a session has one partner: if an id has been handed out, a route that
   stands at any later moment already stood, unchanged. A session that lost its route never gets another.
   */
  lemma {:induction false} OnePartner(t: Tables, seen: set<Conn>, ops: seq<Op>, k: Key)
    requires Consistent(t, seen) && FreshFrom(ops, seen)
    requires k.conn in t.writers && k.conn in From(t, ops).writers
    requires k.session < NextOf(t, k.conn)
    ensures k in From(t, ops).routes ==> k in t.routes && t.routes[k] == From(t, ops).routes[k]
    decreases |ops|
  {
    if ops != [] {
      var op, more := ops[0], seen + Subject(ops[0]);
      if k.conn !in Step(t, op).writers { NeverReregistered(Step(t, op), more, ops[1..], k.conn); }
      StepConsistent(t, op, seen);
      StepKeepsRoute(t, op, k, seen);
      OnePartner(Step(t, op), more, ops[1..], k);
    }
  }
}
