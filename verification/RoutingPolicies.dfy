/** Removal and overflow, and what they mean for the actor loop. */
module RoutingPolicies {
  import opened Enumeration
  import opened Routing
  import opened RoutingInvariants
  import opened RoutingLog
  import opened RoutingTheorems

  // ---- complete removal ----

  ghost predicate Absent(t: Tables, c: Conn) {
    && (forall u :: u in t.providers ==> c !in t.providers[u])
    && (forall k :: k in t.routes ==> k.conn != c && t.routes[k].consumer.conn != c && t.routes[k].provider.conn != c)
    && c !in t.nextSession && c !in t.writers && c !in t.addresses
    && (forall d :: !Linked(t.watch, c, d) && !Linked(t.watch, d, c))
    && (forall d :: !Linked(t.watching, c, d) && !Linked(t.watching, d, c))
  }

  /** Everything in `t` is what `s` has once `c` is left out. */
  ghost predicate SameButFor(s: Tables, t: Tables, c: Conn) {
    && (forall u :: Providers(t.providers, u) == Without(Providers(s.providers, u), c))
    && (forall k :: k in t.routes <==>
                      k in s.routes && s.routes[k].consumer.conn != c && s.routes[k].provider.conn != c)
    && (forall k :: k in t.routes ==> t.routes[k] == s.routes[k])
    && t.nextSession == s.nextSession - {c} && t.writers == s.writers - {c} && t.addresses == s.addresses - {c}
    && (forall a, b :: Linked(t.watch, a, b) <==> Linked(s.watch, a, b) && a != c && b != c)
    && (forall a, b :: Linked(t.watching, a, b) <==> Linked(s.watching, a, b) && a != c && b != c)
  }

  /** A torn-down connection is gone from every table, and nothing that does not involve it has changed. */
  lemma {:induction false} DisconnectRemoves(t: Tables, c: Conn, seen: set<Conn>)
    requires Consistent(t, seen)
    ensures Absent(Step(t, Do(Disconnected(c))), c)
    ensures SameButFor(t, Step(t, Do(Disconnected(c))), c)
  {
    ForgottenLinks(t.watch, c);
    ForgottenLinks(t.watching, c);
    forall u | u in t.providers ensures c !in Without(t.providers[u], c) {
      WithoutMembers(t.providers[u], c);
    }
  }

  lemma {:induction false} WithoutIsIdentity(cs: seq<Conn>, c: Conn)
    requires c !in cs
    ensures Without(cs, c) == cs
  {
    if cs != [] { WithoutIsIdentity(cs[..|cs|-1], c); }
  }

  lemma {:induction false} ForgetAbsent(m: map<Conn, set<Conn>>, c: Conn)
    requires forall d :: !Linked(m, c, d) && !Linked(m, d, c)
    requires forall a :: a in m ==> m[a] != {}
    ensures Forget(m, c) == m
  {
    if c in m {
      var d :| d in m[c];
      assert Linked(m, c, d);
    }
    forall a | a in m ensures m[a] - {c} == m[a] {
      assert !Linked(m, a, c);
    }
  }

  lemma {:induction false} LeaveAbsent(p: map<Uuid, seq<Conn>>, c: Conn)
    requires forall u :: u in p ==> p[u] != [] && c !in p[u]
    ensures DropProvider(p, c) == p
  {
    forall u | u in p ensures Without(p[u], c) == p[u] {
      WithoutIsIdentity(p[u], c);
    }
  }

  lemma {:induction false} DetachAbsent(routes: map<Key, Route>, c: Conn)
    requires forall k :: k in routes ==> k.conn != c && routes[k].consumer.conn != c && routes[k].provider.conn != c
    ensures Detached(routes, c) == routes
  {
  }

  lemma {:induction false} RemoveAbsent(t: Tables, c: Conn, seen: set<Conn>)
    requires Consistent(t, seen) && Absent(t, c)
    ensures Remove(t, c) == t.(tick := t.tick + 1)
  {
    LeaveAbsent(t.providers, c);
    DetachAbsent(t.routes, c);
    ForgetAbsent(t.watch, c);
    ForgetAbsent(t.watching, c);
    assert t.nextSession - {c} == t.nextSession;
    assert t.addresses - {c} == t.addresses;
  }

  /** Tearing down an absent connection sends nothing and leaves every table as it was. */
  lemma {:induction false} RepeatedDisconnect(env: Env, t: Tables, o: Outbox, c: Conn, seen: set<Conn>)
    requires env.Fair() && Consistent(t, seen) && Absent(t, c)
    ensures Step(t, Do(Disconnected(c))) == t.(tick := t.tick + 1)
    ensures Emit(env, t, o, Do(Disconnected(c))) == o
  {
    RemoveAbsent(t, c, seen);
    assert ExitNotices(env, t, c) == [];
    assert KeysOf(t.routes, c) == {};
    EnumerationSize(KeyOrder(env, t, c), {});
  }

  // ---- overflow ----

  /** Every frame tried on a live connection was taken by its queue, unless the connection is marked. */
  ghost predicate NoGaps(writers: set<Conn>, o: Outbox, doomed: set<Conn>) {
    forall a :: a in o.log && a.msg.conn in writers && a.msg.conn !in o.overflow && a.msg.conn !in doomed ==> a.accepted
  }

  lemma {:induction false} SendNoGaps(
    env: Env, writers: set<Conn>, all: set<Conn>, o: Outbox, ms: seq<Msg>, doomed: set<Conn>)
    requires NoGaps(all, o, doomed)
    ensures NoGaps(all, SendAll(env, writers, o, ms), doomed)
  {
    if ms != [] { SendNoGaps(env, writers, all, o, ms[..|ms|-1], doomed); }
  }

  lemma {:induction false} StepNoGaps(env: Env, t: Tables, o: Outbox, e: Event, seen: set<Conn>, doomed: set<Conn>)
    requires env.Fair() && Addressed(o, seen) && FreshOp(Do(e), seen) && NoGaps(t.writers, o, doomed)
    ensures NoGaps(Step(t, Do(e)).writers, Emit(env, t, o, Do(e)), doomed)
  {
    match e
    case NewConnection(_, _) =>
    case Frame(conn, service, payload) =>
      SendNoGaps(env, t.writers, t.writers, o, FrameOutput(t, conn, service, payload), doomed);
    case Disconnected(conn) =>
      var exits := ExitNotices(env, t, conn);
      SendNoGaps(env, t.writers, t.writers, o, exits, doomed);
      SendNoGaps(env, t.writers - {conn}, t.writers, SendAll(env, t.writers, o, exits),
                 TeardownNotices(t.routes, KeyOrder(env, t, conn), conn), doomed);
  }

  // ---- the actor loop as a run ----

  ghost function SeenEvents(es: seq<Event>): set<Conn> {
    if es == [] then {} else SeenEvents(es[..|es|-1]) + {es[|es|-1].conn}
  }

  /** No event names a connection before it is announced. */
  ghost predicate FreshEvents(es: seq<Event>) {
    es == [] || (FreshEvents(es[..|es|-1]) && FreshOp(Do(es[|es|-1]), SeenEvents(es[..|es|-1])))
  }

  lemma {:induction false} RunAppend(env: Env, ops: seq<Op>, op: Op)
    requires env.Fair()
    ensures After(ops + [op]) == Step(After(ops), op)
    ensures Sent(env, ops + [op]) == Emit(env, After(ops), Sent(env, ops), op)
    ensures Seen(ops + [op]) == Seen(ops) + Subject(op)
    ensures Fresh(ops + [op]) <==> Fresh(ops) && FreshOp(op, Seen(ops))
  {
    assert (ops + [op])[..|ops + [op]| - 1] == ops;
  }

  lemma {:induction false} DedupMembers(cs: seq<Conn>)
    ensures forall c :: c in Dedup(cs) <==> c in cs
    ensures Members(Dedup(cs)) == Members(cs)
  {
    if cs != [] {
      DedupMembers(cs[..|cs|-1]);
      assert cs == cs[..|cs|-1] + [cs[|cs|-1]];
    }
  }

  lemma {:induction false} DisconnectRun(env: Env, ops: seq<Op>, c: Conn, doomed: set<Conn>)
    requires env.Fair() && Fresh(ops) && c in Seen(ops) && NoGaps(After(ops).writers, Sent(env, ops), doomed)
    ensures var one := ops + [Do(Disconnected(c))];
            && Fresh(one) && Seen(one) == Seen(ops)
            && After(one).writers == After(ops).writers - {c}
            && NoGaps(After(one).writers, Sent(env, one), doomed)
  {
    RunAppend(env, ops, Do(Disconnected(c)));
    RunAddressed(env, ops);
    StepNoGaps(env, After(ops), Sent(env, ops), Disconnected(c), Seen(ops), doomed);
  }

  lemma {:induction false} DisconnectsSnoc(ops: seq<Op>, cs: seq<Conn>, c: Conn)
    ensures ops + Disconnects(cs + [c]) == ops + Disconnects(cs) + [Do(Disconnected(c))]
    ensures Members(cs + [c]) == Members(cs) + {c}
  {
    assert (cs + [c])[..|cs|] == cs;
  }

  /** Everyone in a batch of teardowns is gone after it, and nobody else misses anything. */
  ghost predicate TornDown(env: Env, ops: seq<Op>, cs: seq<Conn>, doomed: set<Conn>)
    requires env.Fair()
  {
    var after := ops + Disconnects(cs);
    && Fresh(after) && Seen(after) == Seen(ops)
    && After(after).writers == After(ops).writers - Members(cs)
    && NoGaps(After(after).writers, Sent(env, after), doomed)
  }

  lemma {:induction false} TornDownNone(env: Env, ops: seq<Op>, doomed: set<Conn>)
    requires env.Fair() && Fresh(ops) && NoGaps(After(ops).writers, Sent(env, ops), doomed)
    ensures TornDown(env, ops, [], doomed)
  {
    assert ops + [] == ops;
  }

  lemma {:induction false} TornDownLast(env: Env, ops: seq<Op>, cs: seq<Conn>, doomed: set<Conn>)
    requires env.Fair() && cs != [] && TornDown(env, ops, cs[..|cs|-1], doomed) && cs[|cs|-1] in Seen(ops)
    ensures TornDown(env, ops, cs, doomed)
  {
    var init, c := cs[..|cs|-1], cs[|cs|-1];
    var before := ops + Disconnects(init);
    assert ops + Disconnects(cs) == before + [Do(Disconnected(c))] && Members(cs) == Members(init) + {c} by {
      DisconnectsSnoc(ops, init, c);
      assert cs == init + [c];
    }
    DisconnectRun(env, before, c, doomed);
  }

  lemma {:induction false} DisconnectsRun(env: Env, ops: seq<Op>, cs: seq<Conn>, doomed: set<Conn>)
    requires env.Fair() && Fresh(ops) && NoGaps(After(ops).writers, Sent(env, ops), doomed)
    requires forall c :: c in cs ==> c in Seen(ops)
    ensures TornDown(env, ops, cs, doomed)
  {
    if cs == [] {
      TornDownNone(env, ops, doomed);
    } else {
      DisconnectsRun(env, ops, cs[..|cs|-1], doomed);
      TornDownLast(env, ops, cs, doomed);
    }
  }

  /** Taking the overflow list and tearing down everyone on it. */
  lemma {:induction false} TakenRun(env: Env, ops: seq<Op>)
    requires env.Fair() && Fresh(ops) && NoGaps(After(ops).writers, Sent(env, ops), {})
    requires forall c :: c in Sent(env, ops).overflow ==> c in Seen(ops)
    ensures var marked := Sent(env, ops).overflow;
            var all := ops + [TakeOverflow] + Disconnects(Dedup(marked));
            && Fresh(all) && Seen(all) == Seen(ops)
            && After(all).writers == After(ops).writers - Members(marked)
            && NoGaps(After(all).writers, Sent(env, all), {})
  {
    var marked := Sent(env, ops).overflow;
    RunAppend(env, ops, TakeOverflow);
    DedupMembers(marked);
    DisconnectsRun(env, ops + [TakeOverflow], Dedup(marked), Members(marked));
  }

  /**
   One turn tears down exactly the connections on the overflow list, old entries and new, besides what the
   event itself did: nobody on the list survives the turn and nobody else is touched. Those who remain
   have missed nothing, or are on the list for the next turn.
   */
  lemma {:induction false} TurnServesOverflow(env: Env, ops: seq<Op>, e: Event)
    requires env.Fair() && Fresh(ops) && FreshOp(Do(e), Seen(ops)) && NoGaps(After(ops).writers, Sent(env, ops), {})
    ensures Sent(env, ops).overflow <= Sent(env, ops + [Do(e)]).overflow
    ensures After(Turn(env, ops, e)).writers
         == Step(After(ops), Do(e)).writers - Members(Sent(env, ops + [Do(e)]).overflow)
    ensures NoGaps(After(Turn(env, ops, e)).writers, Sent(env, Turn(env, ops, e)), {})
    ensures Fresh(Turn(env, ops, e)) && Seen(Turn(env, ops, e)) == Seen(ops) + {e.conn}
  {
    var one := ops + [Do(e)];
    RunAppend(env, ops, Do(e));
    RunAddressed(env, ops);
    StepNoGaps(env, After(ops), Sent(env, ops), e, Seen(ops), {});
    RunAddressed(env, one);
    TakenRun(env, one);
  }

  /** Between events, a live connection that is not marked for teardown has missed nothing. */
  lemma {:induction false} NothingDropped(env: Env, es: seq<Event>)
    requires env.Fair() && FreshEvents(es)
    ensures Fresh(ActorOps(env, es)) && Seen(ActorOps(env, es)) == SeenEvents(es)
    ensures NoGaps(After(ActorOps(env, es)).writers, Sent(env, ActorOps(env, es)), {})
  {
    if es != [] {
      NothingDropped(env, es[..|es|-1]);
      TurnServesOverflow(env, ActorOps(env, es[..|es|-1]), es[|es|-1]);
    }
  }

  /** What the connection's writer has been handed: the accepted attempts only. */
  function Delivered(log: seq<Attempt>, p: Pattern): seq<Payload> {
    if log == [] then []
    else Delivered(log[..|log|-1], p) + (if log[|log|-1].accepted then Pick(log[|log|-1].msg, p) else [])
  }

  lemma {:induction false} DeliveredAll(log: seq<Attempt>, p: Pattern)
    requires forall a :: a in log && a.msg.conn == p.conn ==> a.accepted
    ensures Delivered(log, p) == Select(log, p)
  {
    if log != [] { DeliveredAll(log[..|log|-1], p); }
  }

  /**
   The server as a set of private pipes. After any stream of events, for any session of a connection that is
   registered and not marked for teardown, its queue was handed exactly, in order and without a gap, what the
   paired session sent while the two were connected.
   */
  lemma {:induction false} ActorPrivatePipes(env: Env, es: seq<Event>, k: Key)
    requires env.Fair() && FreshEvents(es) && k.session != 0
    requires k.conn in After(ActorOps(env, es)).writers && k.conn !in Sent(env, ActorOps(env, es)).overflow
    ensures Delivered(Sent(env, ActorOps(env, es)).log, DataOn(k.conn, k.session)) == SentTo(ActorOps(env, es), k)
  {
    NothingDropped(env, es);
    DeliveredAll(Sent(env, ActorOps(env, es)).log, DataOn(k.conn, k.session));
    PrivatePipes(env, ActorOps(env, es), k);
  }
}
