/** Reading the attempt log: which frames of a kind were tried on a connection, and what an operation adds. */
module RoutingLog {
  import opened Routing
  import opened RoutingInvariants

  /** A kind of frame on a connection. */
  datatype Pattern =
    | AcceptOf(conn: Conn, session: nat)
    | TeardownOf(conn: Conn, session: nat)
    | ExitOf(conn: Conn, address: Address)
    | DataOn(conn: Conn, session: nat)

  predicate Matches(p: Pattern, m: Msg) {
    && m.conn == p.conn
    && match p
       case AcceptOf(_, n) =>
         m.service == 0 && m.payload.Message? && m.payload.control.InterestAccepted? && m.payload.control.session == n
       case TeardownOf(_, n) =>
         m.service == 0 && m.payload.Message? && m.payload.control.ServiceTeardown? && m.payload.control.session == n
       case ExitOf(_, a) =>
         m.service == 0 && m.payload.Message? && m.payload.control.PaneExited? && m.payload.control.address == a
       case DataOn(_, n) => n != 0 && m.service == n
  }

  function Pick(m: Msg, p: Pattern): seq<Payload> { if Matches(p, m) then [m.payload] else [] }

  /** The payloads among `ms` that match, in order. */
  function Picked(ms: seq<Msg>, p: Pattern): seq<Payload> {
    if ms == [] then [] else Picked(ms[..|ms|-1], p) + Pick(ms[|ms|-1], p)
  }

  /** The payloads tried so far that match, in order. */
  function Select(log: seq<Attempt>, p: Pattern): seq<Payload> {
    if log == [] then [] else Select(log[..|log|-1], p) + Pick(log[|log|-1].msg, p)
  }

  lemma {:induction false} PickedConcat(a: seq<Msg>, b: seq<Msg>, p: Pattern)
    ensures Picked(a + b, p) == Picked(a, p) + Picked(b, p)
  {
    if b == [] {
      assert a + b == a;
    } else {
      assert (a + b)[..|a + b| - 1] == a + b[..|b|-1];
      PickedConcat(a, b[..|b|-1], p);
    }
  }

  lemma {:induction false} PickedAppend(ms: seq<Msg>, m: Msg, p: Pattern)
    ensures Picked(ms + [m], p) == Picked(ms, p) + Pick(m, p)
  {
    assert (ms + [m])[..|ms|] == ms;
  }

  lemma {:induction false} PickedOne(m: Msg, p: Pattern)
    ensures Picked([m], p) == Pick(m, p)
  {
    assert [m][..0] == [];
    assert Picked([], p) == [];
  }

  lemma {:induction false} PickedTwo(m: Msg, n: Msg, p: Pattern)
    ensures Picked([m, n], p) == Pick(m, p) + Pick(n, p)
  {
    assert [m, n] == [m] + [n];
    PickedConcat([m], [n], p);
    PickedOne(m, p);
    PickedOne(n, p);
  }

  lemma {:induction false} SelectAppend(log: seq<Attempt>, a: Attempt, p: Pattern)
    ensures Select(log + [a], p) == Select(log, p) + Pick(a.msg, p)
  {
    assert (log + [a])[..|log + [a]| - 1] == log;
  }

  lemma {:induction false} EnqueueSelect(env: Env, writers: set<Conn>, o: Outbox, m: Msg, p: Pattern)
    ensures Select(TryEnqueue(env, writers, o, m).log, p)
         == Select(o.log, p) + (if p.conn in writers then Pick(m, p) else [])
  {
    if m.conn in writers { SelectAppend(o.log, Attempt(m, !env.full(|o.log|)), p); }
  }

  lemma {:induction false} SendSelect(env: Env, writers: set<Conn>, o: Outbox, ms: seq<Msg>, p: Pattern)
    ensures Select(SendAll(env, writers, o, ms).log, p)
         == Select(o.log, p) + (if p.conn in writers then Picked(ms, p) else [])
  {
    if ms != [] {
      var init, m := ms[..|ms|-1], ms[|ms|-1];
      SendSelect(env, writers, o, init, p);
      EnqueueSelect(env, writers, SendAll(env, writers, o, init), m, p);
    }
  }

  lemma {:induction false} SelectUnknown(log: seq<Attempt>, p: Pattern)
    requires forall a :: a in log ==> a.msg.conn != p.conn
    ensures Select(log, p) == []
  {
    if log != [] { SelectUnknown(log[..|log|-1], p); }
  }

  lemma {:induction false} PickedNone(ms: seq<Msg>, p: Pattern)
    requires forall m :: m in ms ==> !Matches(p, m)
    ensures Picked(ms, p) == []
  {
    if ms != [] { PickedNone(ms[..|ms|-1], p); }
  }

  // ---- what one operation sends ----

  ghost function Output(env: Env, t: Tables, op: Op): seq<Msg>
    requires env.Fair()
  {
    match op
    case TakeOverflow => []
    case Do(NewConnection(_, _)) => []
    case Do(Frame(conn, service, payload)) => FrameOutput(t, conn, service, payload)
    case Do(Disconnected(conn)) => ExitNotices(env, t, conn) + TeardownNotices(t.routes, KeyOrder(env, t, conn), conn)
  }

  lemma {:induction false} TwoSendsSelect(
    env: Env, writers: set<Conn>, fewer: set<Conn>, o: Outbox, before: seq<Msg>, after: seq<Msg>, p: Pattern)
    requires p.conn in writers && p.conn in fewer
    ensures Select(SendAll(env, fewer, SendAll(env, writers, o, before), after).log, p)
         == Select(o.log, p) + Picked(before + after, p)
  {
    SendSelect(env, writers, o, before, p);
    SendSelect(env, fewer, SendAll(env, writers, o, before), after, p);
    PickedConcat(before, after, p);
  }

  /** A connection that stays registered sees exactly the operation's frames, in order. */
  lemma {:induction false} OpSelect(env: Env, t: Tables, o: Outbox, op: Op, p: Pattern)
    requires env.Fair() && p.conn in t.writers && p.conn in Step(t, op).writers
    ensures Select(Emit(env, t, o, op).log, p) == Select(o.log, p) + Picked(Output(env, t, op), p)
  {
    match op
    case TakeOverflow =>
    case Do(NewConnection(_, _)) =>
    case Do(Frame(conn, service, payload)) =>
      SendSelect(env, t.writers, o, FrameOutput(t, conn, service, payload), p);
    case Do(Disconnected(conn)) =>
      TwoSendsSelect(env, t.writers, t.writers - {conn}, o, ExitNotices(env, t, conn),
                     TeardownNotices(t.routes, KeyOrder(env, t, conn), conn), p);
  }

  lemma {:induction false} RegisteredBy(t: Tables, op: Op, conn: Conn)
    requires conn !in t.writers && conn in Step(t, op).writers
    ensures op.Do? && op.event.NewConnection? && op.event.conn == conn
  {
  }

  /** A connection that has just been announced has been sent nothing. */
  lemma {:induction false} NewcomerSelect(env: Env, t: Tables, o: Outbox, op: Op, p: Pattern, seen: set<Conn>)
    requires env.Fair() && Addressed(o, seen) && FreshOp(op, seen)
    requires p.conn !in t.writers && p.conn in Step(t, op).writers
    ensures op.Do? && op.event.NewConnection? && op.event.conn == p.conn && p.conn !in seen
    ensures Select(Emit(env, t, o, op).log, p) == []
  {
    RegisteredBy(t, op, p.conn);
    SelectUnknown(o.log, p);
  }
}
