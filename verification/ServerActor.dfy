/** The routing server as the program runs it: one object, updated in place by each event. */
module ServerActor {
  import opened Enumeration
  import opened Routing
  import opened RoutingInvariants
  import opened RoutingPolicies

  /** A table of nonempty sets is determined by its links. */
  lemma {:induction false} SameLinks(m: map<Conn, set<Conn>>, n: map<Conn, set<Conn>>)
    requires forall a :: a in m ==> m[a] != {}
    requires forall a :: a in n ==> n[a] != {}
    requires forall a, b :: Linked(m, a, b) <==> Linked(n, a, b)
    ensures m == n
  {
    forall a ensures a in m <==> a in n {
      if a in m { var b :| b in m[a]; assert Linked(m, a, b); }
      if a in n { var b :| b in n[a]; assert Linked(n, a, b); }
    }
    forall a | a in m ensures m[a] == n[a] {
      forall b ensures b in m[a] <==> b in n[a] {
        assert Linked(m, a, b) <==> Linked(n, a, b);
      }
    }
  }

  /** The routes left once the keys in `done`, and the other ends of their routes, are gone. */
  ghost function Cut(routes: map<Key, Route>, done: seq<Key>): map<Key, Route> {
    map k | k in routes && k !in done && routes[k].Peer(k.conn) !in done :: routes[k]
  }

  /** Cutting the next key: it is still there, and it takes its far end with it. */
  lemma {:induction false} CutNext(routes: map<Key, Route>, order: seq<Key>, i: nat, conn: Conn)
    requires Paired(routes) && Enumerates(order, KeysOf(routes, conn)) && i < |order|
    ensures var k := order[i];
            && k in Cut(routes, order[..i]) && k in routes && k.conn == conn
            && Cut(routes, order[..i+1]) == Cut(routes, order[..i]) - {k} - {routes[k].Peer(conn)}
  {
    var k := order[i];
    assert k in order;
    assert k in KeysOf(routes, conn);
    forall q | q in order[..i] ensures q != k && q.conn == conn {
      assert q in order;
      assert q in KeysOf(routes, conn);
    }
    assert order[..i+1] == order[..i] + [k];
  }

  lemma {:induction false} CutAll(routes: map<Key, Route>, order: seq<Key>, conn: Conn)
    requires Paired(routes) && Enumerates(order, KeysOf(routes, conn))
    ensures Cut(routes, order) == Detached(routes, conn)
  {
  }

  lemma {:induction false} SendSnoc(env: Env, writers: set<Conn>, o: Outbox, ms: seq<Msg>, m: Msg)
    ensures SendAll(env, writers, o, ms + [m]) == Routing.TryEnqueue(env, writers, SendAll(env, writers, o, ms), m)
  {
    assert (ms + [m])[..|ms|] == ms;
  }

  lemma {:induction false} SendOne(env: Env, writers: set<Conn>, o: Outbox, m: Msg)
    ensures SendAll(env, writers, o, [m]) == Routing.TryEnqueue(env, writers, o, m)
  {
    assert [m][..0] == [];
    assert SendAll(env, writers, o, []) == o;
  }

  lemma {:induction false} SendTwo(env: Env, writers: set<Conn>, o: Outbox, m: Msg, n: Msg)
    ensures SendAll(env, writers, o, [m, n])
         == Routing.TryEnqueue(env, writers, Routing.TryEnqueue(env, writers, o, m), n)
  {
    assert [m, n][..1] == [m];
    SendOne(env, writers, o, m);
  }

  lemma {:induction false} BroadcastNext(order: seq<Conn>, i: nat, c: Control)
    requires i < |order|
    ensures Broadcast(order[..i+1], c) == Broadcast(order[..i], c) + [ControlTo(order[i], c)]
  {
    assert order[..i+1][..i] == order[..i];
  }

  function UnlinkAll(m: map<Conn, set<Conn>>, keys: seq<Conn>, c: Conn): map<Conn, set<Conn>> {
    if keys == [] then m else RemoveLink(UnlinkAll(m, keys[..|keys|-1], c), keys[|keys|-1], c)
  }

  lemma {:induction false} UnlinkNext(m: map<Conn, set<Conn>>, keys: seq<Conn>, i: nat, c: Conn)
    requires i < |keys|
    ensures UnlinkAll(m, keys[..i+1], c) == RemoveLink(UnlinkAll(m, keys[..i], c), keys[i], c)
  {
    assert keys[..i+1][..i] == keys[..i];
  }

  lemma {:induction false} UnlinkAllLinks(m: map<Conn, set<Conn>>, keys: seq<Conn>, c: Conn)
    requires forall b :: b in m ==> m[b] != {}
    ensures forall b :: b in UnlinkAll(m, keys, c) ==> UnlinkAll(m, keys, c)[b] != {}
    ensures forall a, b :: Linked(UnlinkAll(m, keys, c), a, b) <==> Linked(m, a, b) && !(b == c && a in keys)
  {
    if keys != [] {
      var init, k := keys[..|keys|-1], keys[|keys|-1];
      UnlinkAllLinks(m, init, c);
      RemovedLinks(UnlinkAll(m, init, c), k, c);
      assert forall a :: a in keys <==> a in init || a == k;
    }
  }

  lemma {:induction false} NoticesNext(routes: map<Key, Route>, order: seq<Key>, i: nat, conn: Conn)
    requires i < |order| && forall q :: q in order ==> q in routes
    ensures TeardownNotices(routes, order[..i+1], conn)
         == TeardownNotices(routes, order[..i], conn) + [TeardownNotice(routes[order[i]].Peer(conn))]
  {
    assert order[..i+1][..i] == order[..i];
  }

  lemma {:induction false} DedupNext(cs: seq<Conn>, i: nat)
    requires i < |cs|
    ensures Members(cs[..i+1]) == Members(cs[..i]) + {cs[i]}
    ensures Dedup(cs[..i+1]) == if cs[i] in Members(cs[..i]) then Dedup(cs[..i]) else Dedup(cs[..i]) + [cs[i]]
  {
    assert cs[..i+1] == cs[..i] + [cs[i]];
    assert cs[..i+1][..i] == cs[..i];
  }

  datatype Declaration =
    | Ok(accepted: Control, provider: Key)
    | Err(reason: DeclineReason)

  class ServerState {
    const env: Env
    var providers: map<Uuid, seq<Conn>>
    var routes: map<Key, Route>
    var nextSession: map<Conn, nat>
    var writers: set<Conn>
    var addresses: map<Conn, Address>
    var watch: map<Conn, set<Conn>>
    var watching: map<Conn, set<Conn>>
    var tick: nat
    /** What the writer queues have seen. */
    var log: seq<Attempt>
    var overflow: seq<Conn>
    /** Everything the actor has done. */
    ghost var done: seq<Op>

    ghost function Now(): Tables
      reads this
    {
      Tables(providers, routes, nextSession, writers, addresses, watch, watching, tick)
    }

    ghost function Box(): Outbox
      reads this
    {
      Outbox(log, overflow)
    }

    /** The object is what its history says it is. */
    ghost predicate Valid()
      reads this
    {
      env.Fair() && Fresh(done) && Now() == After(done) && Box() == Sent(env, done)
    }

    constructor (env: Env)
      requires env.Fair()
      ensures this.env == env && Valid() && done == []
    {
      this.env := env;
      providers, routes, nextSession, writers, addresses := map[], map[], map[], {}, map[];
      watch, watching, tick, log, overflow := map[], map[], 0, [], [];
      done := [];
    }

    method TryEnqueue(conn: Conn, service: nat, payload: Payload)
      modifies this`log, this`overflow
      ensures Box() == Routing.TryEnqueue(env, writers, old(Box()), Msg(conn, service, payload))
    {
      if conn in writers {
        var accepted := !env.full(|log|);
        log := log + [Attempt(Msg(conn, service, payload), accepted)];
        if !accepted {
          overflow := overflow + [conn];
        }
      }
    }

    method AllocSession(conn: Conn) returns (id: Option<nat>)
      modifies this`nextSession
      ensures (Now(), id) == Routing.AllocSession(old(Now()), conn)
    {
      var next := if conn in nextSession then nextSession[conn] else 1;
      if next == RESERVED_SESSION {
        return None;
      }
      nextSession := nextSession[conn := next + 1];
      return Some(next);
    }

    method RegisterProvides(conn: Conn, services: seq<Uuid>)
      modifies this`providers
      ensures providers == AddProviders(old(providers), conn, services)
    {
      for i := 0 to |services|
        invariant providers == AddProviders(old(providers), conn, services[..i])
      {
        var u := services[i];
        assert services[..i+1][..i] == services[..i];
        if u !in providers {
          providers := providers[u := []];
        }
        providers := providers[u := providers[u] + [conn]];
      }
      assert services[..|services|] == services;
    }

    /** A scan of the address table; an address names at most one connection. */
    method ResolveConn(target: Address) returns (r: Option<Conn>)
      requires forall c :: c in addresses ==> addresses[c] == Local(c)
      ensures r == Resolve(Now(), target)
    {
      var rest := addresses.Keys;
      while rest != {}
        invariant rest <= addresses.Keys
        invariant forall c :: c in addresses && c !in rest ==> addresses[c] != target
        decreases rest
      {
        var c :| c in rest;
        if addresses[c] == target {
          return Some(c);
        }
        rest := rest - {c};
      }
      return None;
    }

    method HandleDeclareInterest(consumer: Conn, service: Uuid) returns (r: Declaration)
      requires Providing(providers, writers)
      modifies this`nextSession, this`routes
      ensures Now() == Declare(old(Now()), consumer, service).tables
      ensures match Declare(old(Now()), consumer, service)
              case Accepted(_, ck, pk) => r == Ok(InterestAccepted(service, ck.session, 1), pk)
              case Declined(_, reason) => r == Err(reason)
    {
      if service !in providers {
        return Err(ServiceUnknown);
      }
      var provider := providers[service][0];
      if provider == consumer {
        return Err(SelfProvide);
      }
      var a := AllocSession(consumer);
      if a.None? {
        return Err(SessionExhausted);
      }
      var b := AllocSession(provider);
      if b.None? {
        return Err(SessionExhausted);
      }
      var ck, pk := Key(consumer, a.value), Key(provider, b.value);
      routes := routes[ck := Route(ck, pk)];
      routes := routes[pk := Route(ck, pk)];
      return Ok(InterestAccepted(service, ck.session, 1), pk);
    }

    /** Removes the connection's routes at both ends and lists the far ends. */
    method DetachRoutes(conn: Conn) returns (peers: seq<Key>)
      requires env.Fair() && Paired(routes)
      modifies this`routes
      ensures routes == Detached(old(routes), conn)
      ensures var order := old(KeyOrder(env, Now(), conn));
              |peers| == |order| && forall i :: 0 <= i < |order| ==> peers[i] == old(routes)[order[i]].Peer(conn)
    {
      ghost var all := routes;
      var affected := env.keyOrder(tick, KeysOf(routes, conn));
      assert Enumerates(affected, KeysOf(all, conn));
      peers := [];
      for i := 0 to |affected|
        invariant routes == Cut(all, affected[..i])
        invariant |peers| == i
        invariant forall j :: 0 <= j < i ==> affected[j] in all && peers[j] == all[affected[j]].Peer(conn)
      {
        var k := affected[i];
        CutNext(all, affected, i, conn);
        if k in routes {
          var peer := routes[k].Peer(conn);
          routes := routes - {k};
          routes := routes - {peer};
          peers := peers + [peer];
        }
      }
      assert affected[..|affected|] == affected;
      CutAll(all, affected, conn);
    }

    /** Drops the connection from the index, the routes, the counters and the writers; lists the far ends. */
    method RemoveConnection(conn: Conn) returns (peers: seq<Key>)
      requires env.Fair() && Paired(routes)
      modifies this`providers, this`routes, this`nextSession, this`writers, this`tick
      ensures providers == DropProvider(old(providers), conn)
      ensures routes == Detached(old(routes), conn)
      ensures nextSession == old(nextSession) - {conn} && writers == old(writers) - {conn} && tick == old(tick) + 1
      ensures var order := old(KeyOrder(env, Now(), conn));
              |peers| == |order| && forall i :: 0 <= i < |order| ==> peers[i] == old(routes)[order[i]].Peer(conn)
    {
      providers := DropProvider(providers, conn);
      peers := DetachRoutes(conn);
      tick := tick + 1;
      nextSession := nextSession - {conn};
      writers := writers - {conn};
    }

    method ProcessDeclare(conn: Conn, service: Uuid)
      requires Providing(providers, writers)
      modifies this`nextSession, this`routes, this`log, this`overflow
      ensures var d := Declare(old(Now()), conn, service);
              Now() == d.tables && Box() == SendAll(env, writers, old(Box()), DeclareOutput(conn, service, d))
    {
      var r := HandleDeclareInterest(conn, service);
      ghost var o := Box();
      match r
      case Ok(accepted, provider) =>
        TryEnqueue(conn, 0, Message(accepted));
        TryEnqueue(provider.conn, 0, Message(InterestAccepted(service, provider.session, 1)));
        SendTwo(env, writers, o, ControlTo(conn, accepted),
                ControlTo(provider.conn, InterestAccepted(service, provider.session, 1)));
      case Err(reason) =>
        TryEnqueue(conn, 0, Message(InterestDeclined(service, reason)));
        SendOne(env, writers, o, ControlTo(conn, InterestDeclined(service, reason)));
    }

    method ProcessRevoke(conn: Conn, session: nat)
      modifies this`routes, this`log, this`overflow
      ensures Now() == FrameTables(old(Now()), conn, 0, Message(RevokeInterest(session)))
      ensures Box() == SendAll(env, writers, old(Box()), old(RevokeOutput(Now(), conn, session)))
    {
      var k := Key(conn, session);
      if k in routes {
        ghost var o := Box();
        var peer := routes[k].Peer(conn);
        routes := routes - {k};
        routes := routes - {peer};
        TryEnqueue(peer.conn, 0, Message(ServiceTeardown(peer.session, ServiceRevoked)));
        TryEnqueue(conn, 0, Message(ServiceTeardown(session, ServiceRevoked)));
        SendTwo(env, writers, o, ControlTo(peer.conn, ServiceTeardown(peer.session, ServiceRevoked)),
                ControlTo(conn, ServiceTeardown(session, ServiceRevoked)));
      }
    }

    method ProcessWatch(conn: Conn, target: Address)
      requires forall c :: c in addresses ==> addresses[c] == Local(c)
      modifies this`watch, this`watching, this`log, this`overflow
      ensures Now() == FrameTables(old(Now()), conn, 0, Message(Watch(target)))
      ensures Box() == SendAll(env, writers, old(Box()), old(FrameOutput(Now(), conn, 0, Message(Watch(target)))))
    {
      var t := ResolveConn(target);
      if t.Some? {
        watch := AddLink(watch, t.value, conn);
        watching := AddLink(watching, conn, t.value);
      } else {
        SendOne(env, writers, Box(), ControlTo(conn, PaneExited(target)));
        TryEnqueue(conn, 0, Message(PaneExited(target)));
      }
    }

    method ProcessUnwatch(conn: Conn, target: Address)
      requires forall c :: c in addresses ==> addresses[c] == Local(c)
      modifies this`watch, this`watching
      ensures Now() == FrameTables(old(Now()), conn, 0, Message(Unwatch(target)))
    {
      var t := ResolveConn(target);
      if t.Some? {
        watch := RemoveLink(watch, t.value, conn);
        watching := RemoveLink(watching, conn, t.value);
      }
    }

    method ProcessControl(conn: Conn, payload: Payload)
      requires Registered(Now())
      modifies this`routes, this`nextSession, this`watch, this`watching, this`log, this`overflow
      ensures Now() == FrameTables(old(Now()), conn, 0, payload)
      ensures Box() == SendAll(env, writers, old(Box()), old(FrameOutput(Now(), conn, 0, payload)))
    {
      if payload.Message? {
        match payload.control
        case DeclareInterest(service, _) => ProcessDeclare(conn, service);
        case RevokeInterest(session) => ProcessRevoke(conn, session);
        case Watch(target) => ProcessWatch(conn, target);
        case Unwatch(target) => ProcessUnwatch(conn, target);
        case _ =>
      }
    }

    method ProcessService(conn: Conn, service: nat, payload: Payload)
      requires service != 0
      modifies this`log, this`overflow
      ensures Box() == SendAll(env, writers, old(Box()), FrameOutput(Now(), conn, service, payload))
    {
      if Key(conn, service) in routes {
        var target := routes[Key(conn, service)].Peer(conn);
        SendOne(env, writers, Box(), Msg(target.conn, target.session, payload));
        TryEnqueue(target.conn, target.session, payload);
      }
    }

    /** One notice to each watcher, whose own record of the watch goes with it. */
    method TellWatchers(conn: Conn, order: seq<Conn>, notice: Control)
      modifies this`watching, this`log, this`overflow
      ensures watching == UnlinkAll(old(watching), order, conn)
      ensures Box() == SendAll(env, writers, old(Box()), Broadcast(order, notice))
    {
      for i := 0 to |order|
        invariant watching == UnlinkAll(old(watching), order[..i], conn)
        invariant Box() == SendAll(env, writers, old(Box()), Broadcast(order[..i], notice))
      {
        BroadcastNext(order, i, notice);
        UnlinkNext(old(watching), order, i, conn);
        SendSnoc(env, writers, old(Box()), Broadcast(order[..i], notice), ControlTo(order[i], notice));
        TryEnqueue(order[i], 0, Message(notice));
        watching := RemoveLink(watching, order[i], conn);
      }
      assert order[..|order|] == order;
    }

    /** Tells the watchers and drops the links both ways. */
    method CloseWatches(conn: Conn)
      requires env.Fair() && Inverse(Now()) && Registered(Now())
      modifies this`watch, this`watching, this`log, this`overflow
      ensures watch == Forget(old(watch), conn) && watching == Forget(old(watching), conn)
      ensures Box() == SendAll(env, writers, old(Box()), old(ExitNotices(env, Now(), conn)))
    {
      ghost var t := Now();
      forall a ensures Linked(t.watching, a, conn) ==> conn in t.watch && a in t.watch[conn] {
        assert Linked(t.watch, conn, a) <==> Linked(t.watching, a, conn);
      }
      if conn in watch {
        var watchers := watch[conn];
        watch := watch - {conn};
        if conn in addresses {
          var order := env.watcherOrder(tick, watchers);
          assert Enumerates(order, watchers);
          TellWatchers(conn, order, PaneExited(addresses[conn]));
          UnlinkAllLinks(t.watching, order, conn);
        }
      }
      UnlinkWatched(conn, t);
    }

    /** The second half: the watches the connection itself held. */
    method UnlinkWatched(conn: Conn, ghost s: Tables)
      requires Inverse(s) && watch == s.watch - {conn}
      requires forall b :: b in watching ==> watching[b] != {}
      requires forall a, b :: Linked(watching, a, b) <==> Linked(s.watching, a, b) && b != conn
      modifies this`watch, this`watching
      ensures watch == Forget(s.watch, conn) && watching == Forget(s.watching, conn)
    {
      ForgottenLinks(s.watching, conn);
      ForgottenLinks(s.watch, conn);
      ghost var held := if conn in watching then watching[conn] else {};
      assert forall a :: a in held <==> Linked(watching, conn, a);
      if conn in watching {
        var rest := watching[conn];
        watching := watching - {conn};
        ghost var reverse := watching;
        while rest != {}
          invariant rest <= held && watching == reverse
          invariant forall a :: a in watch ==> watch[a] != {}
          invariant forall a, b :: Linked(watch, a, b) <==>
                                     Linked(s.watch, a, b) && a != conn && !(b == conn && a in held - rest)
          decreases rest
        {
          var a :| a in rest;
          RemovedLinks(watch, a, conn);
          watch := RemoveLink(watch, a, conn);
          rest := rest - {a};
        }
      }
      assert forall a, b :: Linked(watch, a, b) <==> Linked(s.watch, a, b) && a != conn && b != conn by {
        forall a ensures Linked(s.watch, a, conn) && a != conn ==> a in held {
          assert Linked(s.watch, a, conn) <==> Linked(s.watching, conn, a);
        }
      }
      SameLinks(watch, Forget(s.watch, conn));
      SameLinks(watching, Forget(s.watching, conn));
    }

    /** One teardown per far end. */
    method TellPeers(peers: seq<Key>, ghost routes: map<Key, Route>, ghost order: seq<Key>, conn: Conn)
      requires forall k :: k in order ==> k in routes
      requires |peers| == |order| && forall i :: 0 <= i < |order| ==> peers[i] == routes[order[i]].Peer(conn)
      modifies this`log, this`overflow
      ensures Box() == SendAll(env, writers, old(Box()), TeardownNotices(routes, order, conn))
    {
      for i := 0 to |peers|
        invariant Box() == SendAll(env, writers, old(Box()), TeardownNotices(routes, order[..i], conn))
      {
        NoticesNext(routes, order, i, conn);
        SendSnoc(env, writers, old(Box()), TeardownNotices(routes, order[..i], conn), TeardownNotice(peers[i]));
        TryEnqueue(peers[i].conn, 0, Message(ServiceTeardown(peers[i].session, ConnectionLost)));
      }
      assert order[..|order|] == order;
    }

    /** Everything but the notices to the far ends. */
    method CloseAndRemove(conn: Conn) returns (peers: seq<Key>)
      requires env.Fair() && Paired(routes) && Inverse(Now()) && Registered(Now())
      modifies this`providers, this`routes, this`nextSession, this`writers, this`addresses, this`watch, this`watching,
               this`tick, this`log, this`overflow
      ensures Now() == Remove(old(Now()), conn)
      ensures Box() == SendAll(env, old(writers), old(Box()), old(ExitNotices(env, Now(), conn)))
      ensures var order := old(KeyOrder(env, Now(), conn));
              |peers| == |order| && forall i :: 0 <= i < |order| ==> peers[i] == old(routes)[order[i]].Peer(conn)
    {
      CloseWatches(conn);
      addresses := addresses - {conn};
      peers := RemoveConnection(conn);
    }

    method ProcessDisconnect(conn: Conn)
      requires env.Fair() && Paired(routes) && Inverse(Now()) && Registered(Now())
      modifies this`providers, this`routes, this`nextSession, this`writers, this`addresses, this`watch, this`watching,
               this`tick, this`log, this`overflow
      ensures Now() == Step(old(Now()), Do(Disconnected(conn)))
      ensures Box() == Emit(env, old(Now()), old(Box()), Do(Disconnected(conn)))
    {
      ghost var t := Now();
      var peers := CloseAndRemove(conn);
      TellPeers(peers, t.routes, KeyOrder(env, t, conn), conn);
    }

    method ProcessFrame(conn: Conn, service: nat, payload: Payload)
      requires env.Fair() && Registered(Now())
      modifies this`routes, this`nextSession, this`watch, this`watching, this`log, this`overflow
      ensures Now() == Step(old(Now()), Do(Frame(conn, service, payload)))
      ensures Box() == Emit(env, old(Now()), old(Box()), Do(Frame(conn, service, payload)))
    {
      if service == 0 {
        ProcessControl(conn, payload);
      } else {
        ProcessService(conn, service, payload);
      }
    }

    method ProcessNewConnection(conn: Conn, services: seq<Uuid>)
      modifies this`providers, this`writers, this`nextSession, this`addresses
      ensures Now() == Step(old(Now()), Do(NewConnection(conn, services)))
    {
      RegisterProvides(conn, services);
      writers := writers + {conn};
      nextSession := nextSession[conn := 1];
      addresses := addresses[conn := Local(conn)];
    }

    method ProcessEvent(e: Event)
      requires Valid() && FreshOp(Do(e), Seen(done))
      modifies this
      ensures Valid() && done == old(done) + [Do(e)]
    {
      RunConsistent(done);
      RunAppend(env, done, Do(e));
      match e {
        case NewConnection(conn, services) =>
          ProcessNewConnection(conn, services);
        case Frame(conn, service, payload) =>
          ProcessFrame(conn, service, payload);
        case Disconnected(conn) =>
          ProcessDisconnect(conn);
      }
      done := done + [Do(e)];
    }

    method DrainOverflow() returns (overflowed: seq<Conn>)
      requires Valid()
      modifies this`overflow, this`done
      ensures Valid() && overflowed == old(overflow) && done == old(done) + [TakeOverflow]
    {
      RunAppend(env, done, TakeOverflow);
      overflowed := overflow;
      overflow := [];
      done := done + [TakeOverflow];
    }

    /** Tears down, once each, the connections whose queue overflowed during the event. */
    method ServeOverflow()
      requires Valid()
      modifies this
      ensures Valid() && done == old(done) + [TakeOverflow] + Disconnects(Dedup(old(overflow)))
    {
      var overflowed := DrainOverflow();
      ghost var start := done;
      var served: set<Conn> := {};
      for i := 0 to |overflowed|
        invariant Valid()
        invariant served == Members(overflowed[..i])
        invariant done == start + Disconnects(Dedup(overflowed[..i]))
      {
        var conn := overflowed[i];
        DedupNext(overflowed, i);
        if conn !in served {
          served := served + {conn};
          DisconnectsSnoc(start, Dedup(overflowed[..i]), conn);
          ProcessEvent(Disconnected(conn));
        }
      }
      assert overflowed[..|overflowed|] == overflowed;
    }
  }

  lemma {:induction false} FreshPrefixEvents(events: seq<Event>, n: nat)
    requires FreshEvents(events) && n <= |events|
    ensures FreshEvents(events[..n])
  {
    if n == |events| {
      assert events[..n] == events;
    } else {
      assert events[..|events|-1][..n] == events[..n];
      FreshPrefixEvents(events[..|events|-1], n);
    }
  }

  /** The actor's loop over a stream of events. */
  method ActorLoop(env: Env, events: seq<Event>) returns (state: ServerState)
    requires env.Fair() && FreshEvents(events)
    ensures fresh(state) && state.env == env
    ensures state.Now() == After(ActorOps(env, events)) && state.Box() == Sent(env, ActorOps(env, events))
  {
    state := new ServerState(env);
    for i := 0 to |events|
      invariant fresh(state) && state.env == env && state.Valid()
      invariant state.done == ActorOps(env, events[..i])
    {
      assert events[..i+1][..i] == events[..i];
      FreshPrefixEvents(events, i + 1);
      NothingDropped(env, events[..i]);
      state.ProcessEvent(events[i]);
      state.ServeOverflow();
    }
    assert events[..|events|] == events;
  }
}
