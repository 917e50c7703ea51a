/** Death notices and provider choice, told from the history of a run rather than from the tables. */
module RoutingWatches {
  import opened Enumeration
  import opened Routing
  import opened RoutingInvariants
  import opened RoutingLog
  import opened RoutingTheorems

  // ---- who is watching whom ----

  ghost predicate Says(op: Op, conn: Conn, c: Control) { op == Do(Frame(conn, 0, Message(c))) }

  /** `w`'s last word about `d`, as far as the server could act on it, was to watch. */
  ghost predicate Asked(ops: seq<Op>, w: Conn, d: Conn) {
    if ops == [] then false
    else
      var init, op := ops[..|ops|-1], ops[|ops|-1];
      if Says(op, w, Watch(Local(d))) && d in After(init).writers then true
      else if Says(op, w, Unwatch(Local(d))) then false
      else Asked(init, w, d)
  }

  lemma {:induction false} StrangersAskedNothing(ops: seq<Op>, w: Conn, d: Conn)
    requires Fresh(ops) && (w !in Seen(ops) || d !in Seen(ops))
    ensures !Asked(ops, w, d)
  {
    if ops != [] {
      StrangersAskedNothing(ops[..|ops|-1], w, d);
      RunConsistent(ops[..|ops|-1]);
    }
  }

  lemma {:induction false} FrameLinks(t: Tables, op: Op, w: Conn, d: Conn, seen: set<Conn>)
    requires Consistent(t, seen) && op.Do? && op.event.Frame? && d in t.writers
    ensures Linked(Step(t, op).watch, d, w)
            <==> if Says(op, w, Watch(Local(d))) then true
                 else if Says(op, w, Unwatch(Local(d))) then false
                 else Linked(t.watch, d, w)
  {
    var Frame(conn, service, payload) := op.event;
    if service == 0 && payload.Message? && payload.control.Unwatch? && Resolve(t, payload.control.target).Some? {
      RemovedLinks(t.watch, payload.control.target.pane, conn);
    }
  }

  lemma {:induction false} StepLinks(t: Tables, op: Op, w: Conn, d: Conn, seen: set<Conn>)
    requires Consistent(t, seen) && w in t.writers && d in t.writers
    requires w in Step(t, op).writers && d in Step(t, op).writers
    ensures Linked(Step(t, op).watch, d, w)
            <==> if Says(op, w, Watch(Local(d))) then true
                 else if Says(op, w, Unwatch(Local(d))) then false
                 else Linked(t.watch, d, w)
  {
    match op
    case TakeOverflow =>
    case Do(NewConnection(_, _)) =>
    case Do(Frame(_, _, _)) => FrameLinks(t, op, w, d, seen);
    case Do(Disconnected(conn)) => ForgottenLinks(t.watch, conn);
  }

  /** Between two registered connections, self-watch included, the watch table says exactly who asked last. */
  lemma {:induction false} WatchTableMeaning(ops: seq<Op>, w: Conn, d: Conn)
    requires Fresh(ops) && w in After(ops).writers && d in After(ops).writers
    ensures Linked(After(ops).watch, d, w) <==> Asked(ops, w, d)
  {
    if ops != [] {
      var init, op := ops[..|ops|-1], ops[|ops|-1];
      var t := After(init);
      RunConsistent(init);
      if w in t.writers && d in t.writers {
        WatchTableMeaning(init, w, d);
        StepLinks(t, op, w, d, Seen(init));
      } else {
        RegisteredBy(t, op, if w in t.writers then d else w);
        StrangersAskedNothing(init, w, d);
        assert Linked(t.watch, d, w) <==> Linked(t.watching, w, d);
      }
    }
  }

  // ---- how many death notices ----

  /** `w` is told of `a` now: it watches a pane that is not there, or a pane it was watching is torn down. */
  ghost predicate Due(init: seq<Op>, op: Op, w: Conn, a: Address) {
    || (Says(op, w, Watch(a)) && !(a.server == 0 && a.pane in After(init).writers))
    || (op == Do(Disconnected(a.pane)) && a.server == 0 && a.pane in After(init).writers && Asked(init, w, a.pane))
  }

  ghost function Owed(ops: seq<Op>, w: Conn, a: Address): nat {
    if ops == [] then 0
    else
      var init, op := ops[..|ops|-1], ops[|ops|-1];
      Owed(init, w, a) + (if Due(init, op, w, a) then 1 else 0)
  }

  lemma {:induction false} StrangersOwedNothing(ops: seq<Op>, w: Conn, a: Address)
    requires Fresh(ops) && w !in Seen(ops)
    ensures Owed(ops, w, a) == 0
  {
    if ops != [] {
      StrangersOwedNothing(ops[..|ops|-1], w, a);
      StrangersAskedNothing(ops[..|ops|-1], w, a.pane);
    }
  }

  lemma {:induction false} BroadcastOnce(order: seq<Conn>, b: Address, w: Conn, a: Address)
    requires forall i, j :: 0 <= i < j < |order| ==> order[i] != order[j]
    ensures |Picked(Broadcast(order, PaneExited(b)), ExitOf(w, a))| == if a == b && w in order then 1 else 0
  {
    if order != [] {
      var init, x := order[..|order|-1], order[|order|-1];
      assert w in order <==> w in init || w == x by { assert order == init + [x]; }
      assert x !in init;
      BroadcastOnce(init, b, w, a);
      PickedConcat(Broadcast(init, PaneExited(b)), [ControlTo(x, PaneExited(b))], ExitOf(w, a));
      PickedOne(ControlTo(x, PaneExited(b)), ExitOf(w, a));
    }
  }

  lemma {:induction false} DisconnectNotices(env: Env, t: Tables, conn: Conn, w: Conn, a: Address, seen: set<Conn>)
    requires env.Fair() && Consistent(t, seen)
    ensures |Picked(Output(env, t, Do(Disconnected(conn))), ExitOf(w, a))|
         == if a == Local(conn) && conn in t.writers && Linked(t.watch, conn, w) then 1 else 0
  {
    var exits, order := ExitNotices(env, t, conn), KeyOrder(env, t, conn);
    var ends := TeardownNotices(t.routes, order, conn);
    NoticeMembers(t.routes, order, conn);
    PickedConcat(exits, ends, ExitOf(w, a));
    PickedNone(ends, ExitOf(w, a));
    if conn in t.watch {
      var walk := env.watcherOrder(t.tick, t.watch[conn]);
      assert Enumerates(walk, t.watch[conn]);
      BroadcastOnce(walk, Local(conn), w, a);
    }
  }

  lemma {:induction false} FrameNotices(t: Tables, op: Op, w: Conn, a: Address, seen: set<Conn>)
    requires Consistent(t, seen) && op.Do? && op.event.Frame?
    ensures var e := op.event;
            |Picked(FrameOutput(t, e.conn, e.service, e.payload), ExitOf(w, a))|
            == if Says(op, w, Watch(a)) && !(a.server == 0 && a.pane in t.writers) then 1 else 0
  {
    var Frame(conn, service, payload) := op.event;
    var out, p := FrameOutput(t, conn, service, payload), ExitOf(w, a);
    if service == 0 && payload.Message? && payload.control.Watch? && Resolve(t, payload.control.target).None? {
      PickedOne(out[0], p);
      assert out == [out[0]];
    } else {
      forall m | m in out ensures !Matches(p, m) {
        if service != 0 && Key(conn, service) in t.routes { assert m.service != 0; }
      }
      PickedNone(out, p);
    }
  }

  lemma {:induction false} StepNotices(env: Env, init: seq<Op>, op: Op, w: Conn, a: Address)
    requires env.Fair() && Fresh(init) && w in After(init).writers && w in Step(After(init), op).writers
    ensures |Picked(Output(env, After(init), op), ExitOf(w, a))| == if Due(init, op, w, a) then 1 else 0
  {
    var t := After(init);
    RunConsistent(init);
    match op
    case TakeOverflow =>
    case Do(NewConnection(_, _)) =>
    case Do(Frame(_, _, _)) => FrameNotices(t, op, w, a, Seen(init));
    case Do(Disconnected(conn)) =>
      DisconnectNotices(env, t, conn, w, a, Seen(init));
      if conn in t.writers { WatchTableMeaning(init, w, conn); }
  }

  /**
   The server has tried to send a registered watcher exactly the notices it is owed: one per death of a pane
   it was watching, none after it unwatched, and one at once for a pane that was never there.
   */
  lemma {:induction false} DeathNoticesExact(env: Env, ops: seq<Op>, w: Conn, a: Address)
    requires env.Fair() && Fresh(ops) && w in After(ops).writers
    ensures |Select(Sent(env, ops).log, ExitOf(w, a))| == Owed(ops, w, a)
  {
    if ops != [] {
      var init, op := ops[..|ops|-1], ops[|ops|-1];
      if w !in After(init).writers {
        RunAddressed(env, init);
        NewcomerSelect(env, After(init), Sent(env, init), op, ExitOf(w, a), Seen(init));
        StrangersOwedNothing(init, w, a);
      } else {
        DeathNoticesExact(env, init, w, a);
        OpSelect(env, After(init), Sent(env, init), op, ExitOf(w, a));
        StepNotices(env, init, op, w, a);
      }
    }
  }

  // ---- which provider ----

  datatype Registration = Registration(conn: Conn, service: Uuid)

  function Announced(conn: Conn, services: seq<Uuid>): seq<Registration> {
    if services == [] then []
    else Announced(conn, services[..|services|-1]) + [Registration(conn, services[|services|-1])]
  }

  /** Every provision ever announced, in order, with multiplicity. */
  ghost function Registrations(ops: seq<Op>): seq<Registration> {
    if ops == [] then []
    else
      var op := ops[|ops|-1];
      Registrations(ops[..|ops|-1])
      + if op.Do? && op.event.NewConnection? then Announced(op.event.conn, op.event.services) else []
  }

  /** Those of one service whose connection is still there. */
  function Surviving(regs: seq<Registration>, service: Uuid, live: set<Conn>): seq<Conn> {
    if regs == [] then []
    else
      var r := regs[|regs|-1];
      Surviving(regs[..|regs|-1], service, live) + if r.service == service && r.conn in live then [r.conn] else []
  }

  lemma {:induction false} SurvivingAppend(regs: seq<Registration>, r: Registration, u: Uuid, live: set<Conn>)
    ensures Surviving(regs + [r], u, live)
         == Surviving(regs, u, live) + if r.service == u && r.conn in live then [r.conn] else []
  {
    assert (regs + [r])[..|regs|] == regs;
  }

  lemma {:induction false} SurvivingConcat(a: seq<Registration>, b: seq<Registration>, u: Uuid, live: set<Conn>)
    ensures Surviving(a + b, u, live) == Surviving(a, u, live) + Surviving(b, u, live)
  {
    if b == [] {
      assert a + b == a;
    } else {
      assert (a + b)[..|a + b| - 1] == a + b[..|b|-1];
      SurvivingConcat(a, b[..|b|-1], u, live);
    }
  }

  lemma {:induction false} SurvivingNewcomer(regs: seq<Registration>, u: Uuid, live: set<Conn>, conn: Conn)
    requires forall r :: r in regs ==> r.conn != conn
    ensures Surviving(regs, u, live + {conn}) == Surviving(regs, u, live)
  {
    if regs != [] { SurvivingNewcomer(regs[..|regs|-1], u, live, conn); }
  }

  lemma {:induction false} WithoutAppend(cs: seq<Conn>, x: Conn, c: Conn)
    ensures Without(cs + [x], c) == Without(cs, c) + if x == c then [] else [x]
  {
    assert (cs + [x])[..|cs|] == cs;
  }

  lemma {:induction false} SurvivingLeaver(regs: seq<Registration>, u: Uuid, live: set<Conn>, conn: Conn)
    ensures Surviving(regs, u, live - {conn}) == Without(Surviving(regs, u, live), conn)
  {
    if regs != [] {
      var r, init := regs[|regs|-1], Surviving(regs[..|regs|-1], u, live);
      SurvivingLeaver(regs[..|regs|-1], u, live, conn);
      if r.service == u && r.conn in live { WithoutAppend(init, r.conn, conn); } else { assert init + [] == init; }
    }
  }

  lemma {:induction false} AddProvidersMeaning(
    p: map<Uuid, seq<Conn>>, conn: Conn, services: seq<Uuid>, u: Uuid, live: set<Conn>)
    requires conn in live
    ensures Providers(AddProviders(p, conn, services), u)
         == Providers(p, u) + Surviving(Announced(conn, services), u, live)
  {
    if services != [] {
      var init := services[..|services|-1];
      AddProvidersMeaning(p, conn, init, u, live);
      SurvivingAppend(Announced(conn, init), Registration(conn, services[|services|-1]), u, live);
    }
  }

  lemma {:induction false} RegistrantsSeen(ops: seq<Op>)
    ensures forall r :: r in Registrations(ops) ==> r.conn in Seen(ops)
  {
    if ops != [] {
      RegistrantsSeen(ops[..|ops|-1]);
      var op := ops[|ops|-1];
      if op.Do? && op.event.NewConnection? { AnnouncedBy(op.event.conn, op.event.services); }
    }
  }

  lemma {:induction false} AnnouncedBy(conn: Conn, services: seq<Uuid>)
    ensures forall r :: r in Announced(conn, services) ==> r.conn == conn
  {
    if services != [] { AnnouncedBy(conn, services[..|services|-1]); }
  }

  /** A service's provider list is its registration log cut down to the connections still there. */
  lemma {:induction false} ProviderIndexMeaning(ops: seq<Op>, u: Uuid)
    requires Fresh(ops)
    ensures Providers(After(ops).providers, u) == Surviving(Registrations(ops), u, After(ops).writers)
    ensures u in After(ops).providers <==> Surviving(Registrations(ops), u, After(ops).writers) != []
  {
    RunConsistent(ops);
    if ops != [] {
      var init, op := ops[..|ops|-1], ops[|ops|-1];
      var t, regs := After(init), Registrations(init);
      ProviderIndexMeaning(init, u);
      assert regs + [] == regs;
      match op
      case TakeOverflow =>
      case Do(Frame(_, _, _)) =>
      case Do(NewConnection(conn, services)) =>
        RegistrantsSeen(init);
        SurvivingNewcomer(regs, u, t.writers, conn);
        SurvivingConcat(regs, Announced(conn, services), u, t.writers + {conn});
        AddProvidersMeaning(t.providers, conn, services, u, t.writers + {conn});
      case Do(Disconnected(conn)) =>
        SurvivingLeaver(regs, u, t.writers, conn);
    }
  }

  /** Declaring interest reaches the earliest provider still registered, or is declined for the stated reason. */
  lemma {:induction false} EarliestProviderWins(ops: seq<Op>, conn: Conn, u: Uuid)
    requires Fresh(ops)
    ensures var live := Surviving(Registrations(ops), u, After(ops).writers);
            var d := Declare(After(ops), conn, u);
            && (live == [] <==> d.Declined? && d.reason == ServiceUnknown)
            && (live != [] && live[0] == conn <==> d.Declined? && d.reason == SelfProvide)
            && (d.Accepted? ==> d.provider.conn == live[0] && d.consumer.conn == conn)
            && (live != [] && live[0] != conn ==>
                 (d.Accepted? <==> NextOf(After(ops), conn) != RESERVED_SESSION
                                   && NextOf(After(ops), live[0]) != RESERVED_SESSION))
  {
    ProviderIndexMeaning(ops, u);
  }
}
