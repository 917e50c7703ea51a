/** Which frames each event makes the server send, word for word, and which connections its queues mark. */
module RoutingAnswers {
  import opened Enumeration
  import opened Routing
  import opened RoutingInvariants
  import opened RoutingLog
  import opened RoutingTheorems
  import opened RoutingPolicies
  import opened RoutingWatches

  // ---- the log, message by message ----

  function Msgs(log: seq<Attempt>): seq<Msg> {
    seq(|log|, i requires 0 <= i < |log| => log[i].msg)
  }

  /** The messages that can be tried at all: those to registered connections. */
  function To(ms: seq<Msg>, writers: set<Conn>): seq<Msg> {
    if ms == [] then []
    else To(ms[..|ms|-1], writers) + if ms[|ms|-1].conn in writers then [ms[|ms|-1]] else []
  }

  lemma {:induction false} SendMsgs(env: Env, writers: set<Conn>, o: Outbox, ms: seq<Msg>)
    ensures Msgs(SendAll(env, writers, o, ms).log) == Msgs(o.log) + To(ms, writers)
  {
    if ms != [] {
      var init, m := ms[..|ms|-1], ms[|ms|-1];
      SendMsgs(env, writers, o, init);
      var log := SendAll(env, writers, o, init).log;
      if m.conn in writers {
        assert Msgs(log + [Attempt(m, !env.full(|log|))]) == Msgs(log) + [m];
      }
    }
  }

  /** A frame makes the server try its answers, in order, and nothing else. */
  lemma {:induction false} FrameTried(env: Env, ops: seq<Op>, conn: Conn, service: nat, payload: Payload)
    requires env.Fair()
    ensures var t := After(ops);
            Msgs(Sent(env, ops + [Do(Frame(conn, service, payload))]).log)
            == Msgs(Sent(env, ops).log) + To(FrameOutput(t, conn, service, payload), t.writers)
  {
    RunAppend(env, ops, Do(Frame(conn, service, payload)));
    SendMsgs(env, After(ops).writers, Sent(env, ops), FrameOutput(After(ops), conn, service, payload));
  }

  // ---- service negotiation ----

  /** The answer to a declaration, from the providers still registered and the numbers next in line. */
  function DeclareReply(t: Tables, live: seq<Conn>, conn: Conn, u: Uuid): seq<Msg> {
    if live == [] then [ControlTo(conn, InterestDeclined(u, ServiceUnknown))]
    else if live[0] == conn then [ControlTo(conn, InterestDeclined(u, SelfProvide))]
    else if NextOf(t, conn) == 0xFFFF || NextOf(t, live[0]) == 0xFFFF
    then [ControlTo(conn, InterestDeclined(u, SessionExhausted))]
    else [ControlTo(conn, InterestAccepted(u, NextOf(t, conn), 1)),
          ControlTo(live[0], InterestAccepted(u, NextOf(t, live[0]), 1))]
  }

  lemma {:induction false} DeclareOutputIs(ops: seq<Op>, conn: Conn, u: Uuid, version: nat)
    requires Fresh(ops)
    ensures var t := After(ops);
            FrameOutput(t, conn, 0, Message(DeclareInterest(u, version)))
            == DeclareReply(t, Surviving(Registrations(ops), u, t.writers), conn, u)
  {
    ProviderIndexMeaning(ops, u);
  }

  /**
   A declaration is answered with an acceptance to both ends, in the sessions next in line, or with a refusal to the
   one who asked that gives the reason.
   */
  lemma {:induction false} DeclareAnswered(env: Env, ops: seq<Op>, conn: Conn, u: Uuid, version: nat)
    requires env.Fair() && Fresh(ops)
    ensures var t := After(ops);
            Msgs(Sent(env, ops + [Do(Frame(conn, 0, Message(DeclareInterest(u, version))))]).log)
            == Msgs(Sent(env, ops).log)
               + To(DeclareReply(t, Surviving(Registrations(ops), u, t.writers), conn, u), t.writers)
  {
    FrameTried(env, ops, conn, 0, Message(DeclareInterest(u, version)));
    DeclareOutputIs(ops, conn, u, version);
  }

  /** How a declaration moves a connection's next session number: an end whose numbers are used up stops the rest. */
  function Numbered(t: Tables, live: seq<Conn>, conn: Conn, c: Conn): nat {
    if live == [] || live[0] == conn || NextOf(t, conn) == 0xFFFF then NextOf(t, c)
    else if c == conn || (c == live[0] && NextOf(t, c) != 0xFFFF) then NextOf(t, c) + 1
    else NextOf(t, c)
  }

  /** A connection's sessions are numbered from one, and each that is handed out takes the next number. */
  lemma {:induction false} NumbersAscend(ops: seq<Op>, conn: Conn, u: Uuid, version: nat, c: Conn)
    requires Fresh(ops)
    ensures var t := After(ops);
            NextOf(Step(t, Do(Frame(conn, 0, Message(DeclareInterest(u, version))))), c)
            == Numbered(t, Surviving(Registrations(ops), u, t.writers), conn, c)
  {
    ProviderIndexMeaning(ops, u);
  }

  /** It starts over at one when a connection is announced and when it is gone. */
  lemma {:induction false} NumbersStart(ops: seq<Op>, conn: Conn, services: seq<Uuid>)
    ensures NextOf(After(ops + [Do(NewConnection(conn, services))]), conn) == 1
    ensures NextOf(After(ops + [Do(Disconnected(conn))]), conn) == 1
  {
    assert (ops + [Do(NewConnection(conn, services))])[..|ops|] == ops;
    assert (ops + [Do(Disconnected(conn))])[..|ops|] == ops;
  }

  // ---- revocation ----

  function RevokeReply(t: Tables, k: Key): seq<Msg> {
    if k !in t.routes then []
    else
      var far := if t.routes[k].consumer == k then t.routes[k].provider else t.routes[k].consumer;
      [ControlTo(far.conn, ServiceTeardown(far.session, ServiceRevoked)),
       ControlTo(k.conn, ServiceTeardown(k.session, ServiceRevoked))]
  }

  /** A revocation tells both ends of the route that the service was revoked, the far end first; without one, nobody. */
  lemma {:induction false} RevokeAnswered(env: Env, ops: seq<Op>, conn: Conn, session: nat)
    requires env.Fair() && Fresh(ops)
    ensures var t := After(ops);
            Msgs(Sent(env, ops + [Do(Frame(conn, 0, Message(RevokeInterest(session))))]).log)
            == Msgs(Sent(env, ops).log) + To(RevokeReply(t, Key(conn, session)), t.writers)
  {
    RunConsistent(ops);
    FrameTried(env, ops, conn, 0, Message(RevokeInterest(session)));
  }

  // ---- what is not answered ----

  predicate Unanswered(payload: Payload) {
    payload.Opaque? || !(payload.control.DeclareInterest? || payload.control.RevokeInterest? || payload.control.Watch?)
  }

  predicate Ineffective(payload: Payload) {
    Unanswered(payload) && !(payload.Message? && payload.control.Unwatch?)
  }

  /** Any other control frame, malformed ones included, is answered with nothing, and but for Unwatch does nothing. */
  lemma {:induction false} OthersUnanswered(env: Env, ops: seq<Op>, conn: Conn, payload: Payload)
    requires env.Fair() && Unanswered(payload)
    ensures Sent(env, ops + [Do(Frame(conn, 0, payload))]) == Sent(env, ops)
    ensures Ineffective(payload) ==> After(ops + [Do(Frame(conn, 0, payload))]) == After(ops)
  {
    RunAppend(env, ops, Do(Frame(conn, 0, payload)));
  }

  /** A service frame changes no table. */
  lemma {:induction false} DataChangesNothing(env: Env, ops: seq<Op>, conn: Conn, service: nat, payload: Payload)
    requires env.Fair() && service != 0
    ensures After(ops + [Do(Frame(conn, service, payload))]) == After(ops)
  {
    RunAppend(env, ops, Do(Frame(conn, service, payload)));
  }

  // ---- disconnect ----

  lemma {:induction false} NoticeCauses(routes: map<Key, Route>, order: seq<Key>, conn: Conn)
    requires forall k :: k in order ==> k in routes
    ensures forall m :: m in TeardownNotices(routes, order, conn) ==>
              && m.service == 0 && m.payload.Message? && m.payload.control.ServiceTeardown?
              && m.payload.control.cause == ConnectionLost
  {
    if order != [] {
      assert forall k :: k in order[..|order|-1] ==> k in order;
      NoticeCauses(routes, order[..|order|-1], conn);
    }
  }

  /** On a disconnect, watchers are told of the exit and far ends that the connection was lost; nobody anything else. */
  lemma {:induction false} DisconnectTells(env: Env, ops: seq<Op>, c: Conn, m: Msg)
    requires env.Fair() && m in Output(env, After(ops), Do(Disconnected(c)))
    ensures m.service == 0 && m.payload.Message?
    ensures || m.payload.control.PaneExited?
            || (m.payload.control.ServiceTeardown? && m.payload.control.cause == ConnectionLost)
  {
    var t := After(ops);
    ExitMembers(env, t, c);
    NoticeCauses(t.routes, KeyOrder(env, t, c), c);
  }

  lemma {:induction false} DisconnectTried(env: Env, ops: seq<Op>, c: Conn)
    requires env.Fair()
    ensures var t := After(ops);
            Msgs(Sent(env, ops + [Do(Disconnected(c))]).log)
            == Msgs(Sent(env, ops).log) + To(ExitNotices(env, t, c), t.writers)
               + To(TeardownNotices(t.routes, KeyOrder(env, t, c), c), t.writers - {c})
  {
    var t, o := After(ops), Sent(env, ops);
    RunAppend(env, ops, Do(Disconnected(c)));
    SendMsgs(env, t.writers, o, ExitNotices(env, t, c));
    SendMsgs(env, t.writers - {c}, SendAll(env, t.writers, o, ExitNotices(env, t, c)),
             TeardownNotices(t.routes, KeyOrder(env, t, c), c));
  }

  // ---- the queues ----

  /** The connections of refused attempts, in order. */
  function Marks(log: seq<Attempt>): seq<Conn> {
    if log == [] then []
    else Marks(log[..|log|-1]) + if log[|log|-1].accepted then [] else [log[|log|-1].msg.conn]
  }

  /** The overflow list holds the connections of the attempts refused from some point on. */
  ghost predicate Listed(o: Outbox, from: nat) {
    from <= |o.log| && o.overflow == Marks(o.log[from..])
  }

  ghost predicate QueuesDecide(env: Env, log: seq<Attempt>) {
    forall i :: 0 <= i < |log| ==> log[i].accepted == !env.full(i)
  }

  lemma {:induction false} MarksSnoc(log: seq<Attempt>, a: Attempt)
    ensures Marks(log + [a]) == Marks(log) + if a.accepted then [] else [a.msg.conn]
  {
    assert (log + [a])[..|log|] == log;
  }

  lemma {:induction false} TryListed(env: Env, writers: set<Conn>, o: Outbox, m: Msg, from: nat)
    requires Listed(o, from)
    ensures Listed(TryEnqueue(env, writers, o, m), from)
  {
    if m.conn in writers {
      var a := Attempt(m, !env.full(|o.log|));
      assert (o.log + [a])[from..] == o.log[from..] + [a];
      MarksSnoc(o.log[from..], a);
    }
  }

  lemma {:induction false} TryDecided(env: Env, writers: set<Conn>, o: Outbox, m: Msg)
    requires QueuesDecide(env, o.log)
    ensures QueuesDecide(env, TryEnqueue(env, writers, o, m).log)
  {
  }

  lemma {:induction false} SendListed(env: Env, writers: set<Conn>, o: Outbox, ms: seq<Msg>, from: nat)
    requires Listed(o, from) && QueuesDecide(env, o.log)
    ensures Listed(SendAll(env, writers, o, ms), from) && QueuesDecide(env, SendAll(env, writers, o, ms).log)
  {
    if ms != [] {
      var init, m := ms[..|ms|-1], ms[|ms|-1];
      SendListed(env, writers, o, init, from);
      TryListed(env, writers, SendAll(env, writers, o, init), m, from);
      TryDecided(env, writers, SendAll(env, writers, o, init), m);
    }
  }

  /** How much had been tried when the overflow list was last taken. */
  ghost function TakenAt(env: Env, ops: seq<Op>): nat
    requires env.Fair()
  {
    if ops == [] then 0
    else if ops[|ops|-1] == TakeOverflow then |Sent(env, ops[..|ops|-1]).log|
    else TakenAt(env, ops[..|ops|-1])
  }

  /**
   The overflow list, exactly. In every run it holds the connections of the attempts refused since it was last taken,
   in order and with multiplicity; and an attempt is refused exactly when the queue was full for it.
   */
  lemma {:induction false} OverflowExact(env: Env, ops: seq<Op>)
    requires env.Fair()
    ensures Listed(Sent(env, ops), TakenAt(env, ops)) && QueuesDecide(env, Sent(env, ops).log)
  {
    if ops != [] {
      var init, op := ops[..|ops|-1], ops[|ops|-1];
      OverflowExact(env, init);
      var t, o, from := After(init), Sent(env, init), TakenAt(env, init);
      match op
      case TakeOverflow => assert o.log[|o.log|..] == [];
      case Do(NewConnection(_, _)) =>
      case Do(Frame(conn, service, payload)) =>
        SendListed(env, t.writers, o, FrameOutput(t, conn, service, payload), from);
      case Do(Disconnected(conn)) =>
        SendListed(env, t.writers, o, ExitNotices(env, t, conn), from);
        SendListed(env, t.writers - {conn}, SendAll(env, t.writers, o, ExitNotices(env, t, conn)),
                   TeardownNotices(t.routes, KeyOrder(env, t, conn), conn), from);
    }
  }

  ghost predicate RefusedTo(log: seq<Attempt>, c: Conn) {
    exists i :: 0 <= i < |log| && log[i].msg.conn == c && !log[i].accepted
  }

  lemma {:induction false} MarkedRefused(log: seq<Attempt>, c: Conn)
    requires c in Marks(log)
    ensures RefusedTo(log, c)
  {
    var init, a := log[..|log|-1], log[|log|-1];
    if c in Marks(init) {
      MarkedRefused(init, c);
      var i :| 0 <= i < |init| && init[i].msg.conn == c && !init[i].accepted;
      assert log[i] == init[i];
    } else {
      assert log[|log|-1].msg.conn == c;
    }
  }

  /** A connection is marked only if its queue refused a frame. */
  lemma {:induction false} OverflowMeansRefused(env: Env, ops: seq<Op>, c: Conn)
    requires env.Fair() && c in Sent(env, ops).overflow
    ensures RefusedTo(Sent(env, ops).log, c)
  {
    OverflowExact(env, ops);
    var log, from := Sent(env, ops).log, TakenAt(env, ops);
    MarkedRefused(log[from..], c);
    var i :| 0 <= i < |log[from..]| && log[from..][i].msg.conn == c && !log[from..][i].accepted;
    assert log[from + i] == log[from..][i];
  }

  lemma {:induction false} LogGrows(env: Env, ops: seq<Op>, more: seq<Op>)
    requires env.Fair()
    ensures Sent(env, ops).log <= Sent(env, ops + more).log
  {
    if more == [] {
      assert ops + more == ops;
    } else {
      var init := more[..|more|-1];
      LogGrows(env, ops, init);
      assert (ops + more)[..|ops + more| - 1] == ops + init && (ops + more)[|ops + more| - 1] == more[|more|-1];
      EmitGrows(env, After(ops + init), Sent(env, ops + init), more[|more|-1]);
    }
  }

  lemma {:induction false} SendGrows(env: Env, writers: set<Conn>, o: Outbox, ms: seq<Msg>)
    ensures o.log <= SendAll(env, writers, o, ms).log
  {
    if ms != [] { SendGrows(env, writers, o, ms[..|ms|-1]); }
  }

  lemma {:induction false} EmitGrows(env: Env, t: Tables, o: Outbox, op: Op)
    requires env.Fair()
    ensures o.log <= Emit(env, t, o, op).log
  {
    match op
    case TakeOverflow =>
    case Do(NewConnection(_, _)) =>
    case Do(Frame(conn, service, payload)) => SendGrows(env, t.writers, o, FrameOutput(t, conn, service, payload));
    case Do(Disconnected(conn)) =>
      SendGrows(env, t.writers, o, ExitNotices(env, t, conn));
      SendGrows(env, t.writers - {conn}, SendAll(env, t.writers, o, ExitNotices(env, t, conn)),
                TeardownNotices(t.routes, KeyOrder(env, t, conn), conn));
  }

  lemma {:induction false} RefusedMore(log: seq<Attempt>, more: seq<Attempt>, c: Conn)
    requires log <= more && RefusedTo(log, c)
    ensures RefusedTo(more, c)
  {
    var i :| 0 <= i < |log| && log[i].msg.conn == c && !log[i].accepted;
    assert more[i] == log[i];
  }

  /** What a turn leaves in the log includes every refusal up to the end of its event. */
  lemma {:induction false} TurnLogs(env: Env, ops: seq<Op>, e: Event, c: Conn)
    requires env.Fair()
    ensures RefusedTo(Sent(env, ops + [Do(e)]).log, c) ==> RefusedTo(Sent(env, Turn(env, ops, e)).log, c)
    ensures RefusedTo(Sent(env, ops).log, c) ==> RefusedTo(Sent(env, Turn(env, ops, e)).log, c)
  {
    var one := ops + [Do(e)];
    var rest := [TakeOverflow] + Disconnects(Dedup(Sent(env, one).overflow));
    assert Turn(env, ops, e) == one + rest;
    LogGrows(env, one, rest);
    LogGrows(env, ops, [Do(e)]);
    if RefusedTo(Sent(env, one).log, c) { RefusedMore(Sent(env, one).log, Sent(env, one + rest).log, c); }
    if RefusedTo(Sent(env, ops).log, c) { RefusedMore(Sent(env, ops).log, Sent(env, one + rest).log, c); }
  }

  predicate Announces(e: Event, c: Conn) {
    e.NewConnection? && e.conn == c
  }

  predicate Announced(es: seq<Event>, c: Conn) {
    es != [] && (Announced(es[..|es|-1], c) || Announces(es[|es|-1], c))
  }

  lemma {:induction false} EventKeeps(t: Tables, e: Event, c: Conn)
    requires e != Disconnected(c) && (c in t.writers || Announces(e, c))
    ensures c in Step(t, Do(e)).writers
  {
  }

  /** A turn of the actor keeps a connection that did not leave by itself and was refused nothing. */
  lemma {:induction false} TurnKeeps(env: Env, ops: seq<Op>, e: Event, c: Conn)
    requires env.Fair() && Fresh(ops) && FreshOp(Do(e), Seen(ops)) && NoGaps(After(ops).writers, Sent(env, ops), {})
    requires e != Disconnected(c) && (c in After(ops).writers || Announces(e, c))
    requires !RefusedTo(Sent(env, Turn(env, ops, e)).log, c)
    ensures c in After(Turn(env, ops, e)).writers
  {
    TurnServesOverflow(env, ops, e);
    EventKeeps(After(ops), e, c);
    TurnLogs(env, ops, e, c);
    if c in Sent(env, ops + [Do(e)]).overflow { OverflowMeansRefused(env, ops + [Do(e)], c); }
  }

  /**
   A connection is torn down only by its own disconnect or by a refused frame. Over every stream of events, one that
   was announced, did not disconnect, and had every frame accepted is still registered.
   */
  lemma {:induction false} KeptUnlessRefused(env: Env, es: seq<Event>, c: Conn)
    requires env.Fair() && FreshEvents(es) && Announced(es, c) && Disconnected(c) !in es
    requires !RefusedTo(Sent(env, ActorOps(env, es)).log, c)
    ensures c in After(ActorOps(env, es)).writers
  {
    var init, e := es[..|es|-1], es[|es|-1];
    NothingDropped(env, init);
    TurnLogs(env, ActorOps(env, init), e, c);
    if Announced(init, c) { KeptUnlessRefused(env, init, c); }
    TurnKeeps(env, ActorOps(env, init), e, c);
  }

  /** Each connection on the list is torn down once in a turn. */
  lemma {:induction false} DedupDistinct(cs: seq<Conn>)
    ensures Enumerates(Dedup(cs), Members(cs))
  {
    DedupMembers(cs);
    if cs != [] {
      DedupDistinct(cs[..|cs|-1]);
      DedupMembers(cs[..|cs|-1]);
    }
  }
}
