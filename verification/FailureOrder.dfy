/** Without a reply, a failure or a teardown among a tick's messages fails the request, exactly once. */
module FailureOrder {
  import opened Enumeration
  import opened Engine
  import opened EngineBooks
  import opened EngineLifetimes
  import opened EngineTheorems
  import opened EngineVerdicts
  import opened Scheduler
  import opened SchedulerTheorems
  import opened SchedulerPhases
  import opened LooperTheorems
  import opened ReplyOrder

  // ---- tokens only grow ----

  lemma {:induction false} ActsNext(env: Env, p: Port, sc: Scene, acts: seq<Act>, t: Token)
    ensures PerformAll(env, p, sc, acts).books.cor.next >= sc.books.cor.next
    ensures RefusedActs(env, p, sc, acts, t) ==> t >= sc.books.cor.next
  {
    if acts != [] {
      ActsNext(env, p, sc, acts[..|acts| - 1], t);
      ActKeeps(env, p, PerformAll(env, p, sc, acts[..|acts| - 1]), acts[|acts| - 1], t);
    }
  }

  lemma {:induction false} RefusedLater(env: Env, c: Core, op: Op, t: Token)
    requires RefusedStep(env, c, op, t)
    ensures t >= c.books.cor.next
  {
    if op.Asked? {
      ActsNext(env, op.port, Opening(c.books, c.ledger, op.port), env.acts(c.ledger.calls), t);
    }
  }

  // ---- outstanding until failed ----

  /** The request is outstanding, on session `s`, or has failed. */
  ghost predicate Awaiting(env: Env, c: Core, t: Token, s: Session) {
    Note(Key(env.peer, t), Failed) in c.books.tab.log || (t in c.books.cor.sessions && c.books.cor.sessions[t] == s)
  }

  lemma {:induction false} NoVerdictYet(env: Env, c: Core, t: Token, v: Verdict)
    requires Orderly(env, c) && t in c.books.cor.sessions
    ensures Note(Key(env.peer, t), v) !in c.books.tab.log && t < c.books.cor.next
  {
    var n := Note(Key(env.peer, t), v);
    assert KeyAgreed(env.peer, c.books, {}, n.key);
    if n in c.books.tab.log {
      TimesOfMember(c.books.tab.log, n);
    }
  }

  /** Nothing but a reply ends the wait otherwise than by a failure. */
  lemma {:induction false} StepAwaiting(env: Env, c: Core, op: Op, t: Token, s: Session)
    requires env.Fair() && Orderly(env, c) && !c.exited && op != ReplyTo(t) && Awaiting(env, c, t, s)
    ensures Awaiting(env, Step(env, c, op), t, s)
  {
    var r, n := Step(env, c, op), Note(Key(env.peer, t), Failed);
    if n in c.books.tab.log {
      StepKeeps(env, c, op, n);
    } else {
      NoVerdictYet(env, c, t, Replied);
      NoVerdictYet(env, c, t, RolledBack);
      StepKeepsToken(env, c, op, t);
      StepOrderly(env, c, op);
      StepAdds(env, c, op, t, Replied);
      StepAdds(env, c, op, t, RolledBack);
      if RefusedStep(env, c, op, t) {
        RefusedLater(env, c, op, t);
      }
      FailedOtherwise(env, r, t);
    }
  }

  /** The operation fails the request. */
  predicate FailsIt(op: Op, t: Token, s: Session) {
    op == FailureOf(t) || op == TeardownOf(s)
  }

  lemma {:induction false} StepFails(env: Env, c: Core, op: Op, t: Token, s: Session)
    requires env.Fair() && Orderly(env, c) && !c.exited && Awaiting(env, c, t, s) && FailsIt(op, t, s)
    ensures Note(Key(env.peer, t), Failed) in Step(env, c, op).books.tab.log
  {
    var k := Key(env.peer, t);
    if Note(k, Failed) in c.books.tab.log {
      StepKeeps(env, c, op, Note(k, Failed));
    } else {
      assert KeyAgreed(env.peer, c.books, {}, k);
      if op == FailureOf(t) {
        ConcludeKeeps(env, c, t, Failed, Note(k, Failed));
      } else {
        var ts := SessionTokens(env, c.books, s);
        assert Enumerates(ts, TokensOf(c.books.cor, s));
        FailAllNotes(c.books.tab, env.peer, ts, t);
      }
    }
  }

  /** Some operation of the run fails the request. */
  predicate Failing(ops: seq<Op>, t: Token, s: Session) {
    ops != [] && (Failing(ops[..|ops| - 1], t, s) || FailsIt(ops[|ops| - 1], t, s))
  }

  lemma {:induction false} FailingAt(ops: seq<Op>, op: Op, t: Token, s: Session)
    requires op in ops && FailsIt(op, t, s)
    ensures Failing(ops, t, s)
  {
    if ops[|ops| - 1] != op {
      FailingAt(ops[..|ops| - 1], op, t, s);
    }
  }

  ghost predicate Verdict(env: Env, c: Core, t: Token, s: Session, failing: bool) {
    Awaiting(env, c, t, s) && (failing ==> Note(Key(env.peer, t), Failed) in c.books.tab.log)
  }

  lemma {:induction false} StepVerdict(env: Env, c: Core, op: Op, t: Token, s: Session, failing: bool)
    requires env.Fair() && Orderly(env, c) && !c.exited && op != ReplyTo(t) && Verdict(env, c, t, s, failing)
    ensures Verdict(env, Step(env, c, op), t, s, failing || FailsIt(op, t, s))
  {
    StepAwaiting(env, c, op, t, s);
    if failing {
      StepKeeps(env, c, op, Note(Key(env.peer, t), Failed));
    } else if FailsIt(op, t, s) {
      StepFails(env, c, op, t, s);
    }
  }

  /** A looper that has ended has failed whatever waited. */
  lemma {:induction false} EndedVerdict(env: Env, c: Core, t: Token, s: Session)
    requires Orderly(env, c) && c.exited && Awaiting(env, c, t, s)
    ensures Verdict(env, c, t, s, true)
  {
  }

  lemma {:induction false} RunAwaiting(env: Env, c: Core, ops: seq<Op>, t: Token, s: Session)
    requires env.Fair() && Orderly(env, c) && Awaiting(env, c, t, s)
    requires forall i :: 0 <= i < |ops| ==> ops[i] != ReplyTo(t)
    ensures Verdict(env, From(env, c, ops), t, s, Failing(ops, t, s))
  {
    if ops != [] {
      var init := ops[..|ops| - 1];
      RunAwaiting(env, c, init, t, s);
      FromOrderly(env, c, init);
      if From(env, c, init).exited {
        EndedVerdict(env, From(env, c, init), t, s);
      } else {
        StepVerdict(env, From(env, c, init), ops[|ops| - 1], t, s, Failing(init, t, s));
      }
    }
  }

  // ---- from the messages ----

  /** No message of the tick is a reply to `t`. */
  ghost predicate NoReply(ms: seq<Message>, t: Token) {
    forall i :: 0 <= i < |ms| ==> !(ms[i].ReplyFrame? && ms[i].token == t)
  }

  /** Some message of the tick fails `t`: a Failed frame for it, or a teardown of its session. */
  predicate FailsToken(m: Message, t: Token, s: Session) {
    (m.FailedFrame? && m.token == t) || m == ServiceTeardown(s)
  }

  lemma {:induction false} SortedNoReply(ms: seq<Message>, t: Token)
    requires NoReply(ms, t)
    ensures ReplyTo(t) !in SortedOps(ms)
  {
    forall p: nat ensures ReplyTo(t) !in PhaseOps(ms, p) {
      if ReplyTo(t) in PhaseOps(ms, p) {
        AskedBy(ms, p, ReplyTo(t));
      }
    }
  }

  lemma {:induction false} SortedFails(ms: seq<Message>, i: nat, t: Token, s: Session)
    requires i < |ms| && FailsToken(ms[i], t, s)
    ensures FailureOf(t) in SortedOps(ms) || TeardownOf(s) in SortedOps(ms)
  {
    if ms[i].FailedFrame? {
      Heeded(ms, i, FailureOf(t));
    } else {
      Heeded(ms, i, TeardownOf(s));
    }
  }

  lemma {:induction false} ServeNoReply(
    env: Env, world: World, tick: nat, revoked: set<Session>, c: Core, items: seq<Item>, n: nat, t: Token)
    ensures ReplyTo(t) !in ServeOps(env, world, tick, revoked, c, items, n)
    decreases |items|
  {
    if items != [] {
      ServeNoReply(env, world, tick, revoked, c, items[1..], n, t);
      ServeNoReply(env, world, tick, revoked, Step(env, c, OpOf(items[0])), items[1..], n + 1, t);
    }
  }

  lemma {:induction false} RestNoReply(env: Env, world: World, st: Loop, t: Token)
    ensures ReplyTo(t) !in RestOps(env, world, st)
  {
    var mid := Middle(env, world, st);
    var r := ServeRequests(env, world, mid);
    ServeNoReply(env, world, mid.ticks, mid.batch.revoked, mid.core, mid.batch.requests, 0, t);
    var later := RequestsServed(mid, r);
    ServeNoReply(env, world, later.ticks, later.batch.revoked, later.core, later.batch.notices, r.dispatched, t);
  }

  lemma {:induction false} FrameworkAwaiting(env: Env, c: Core, ops: seq<Op>, rest: seq<Op>, t: Token, s: Session)
    requires env.Fair() && Orderly(env, c) && Awaiting(env, c, t, s)
    requires ReplyTo(t) !in ops && ReplyTo(t) !in rest
    ensures Awaiting(env, From(env, c, ops + rest), t, s)
    ensures FailureOf(t) in ops || TeardownOf(s) in ops ==>
              Note(Key(env.peer, t), Failed) in From(env, c, ops + rest).books.tab.log
  {
    var all := ops + rest;
    assert forall i :: 0 <= i < |all| ==> all[i] in ops || all[i] in rest;
    RunAwaiting(env, c, all, t, s);
    if FailureOf(t) in ops || TeardownOf(s) in ops {
      FailingAt(all, if FailureOf(t) in ops then FailureOf(t) else TeardownOf(s), t, s);
    }
  }

  /**
   The other half of ReplyWins. After any run, a tick without a reply to an outstanding token never resolves it as
   replied: it stays outstanding or fails. If the tick's messages hold a Failed frame for it, or a teardown of its
   session, it fails, exactly once.
   */
  lemma {:induction false} FailureWins(
    env: Env, world: World, cap: nat, rounds: seq<Round>, ms: seq<Message>, t: Token)
    requires env.Fair() && NoReply(ms, t)
    requires var c := RunLooper(env, world, cap, rounds).core; !c.exited && t in c.books.cor.sessions
    ensures var st := RunLooper(env, world, cap, rounds);
            var r, k, s := Tick(env, world, st, ms).core.books, Key(env.peer, t), st.core.books.cor.sessions[t];
            && Note(k, Replied) !in r.tab.log
            && (Note(k, Failed) in r.tab.log || t in r.cor.sessions)
            && ((exists i :: 0 <= i < |ms| && FailsToken(ms[i], t, s)) ==>
                  Note(k, Failed) in r.tab.log && Times(r.tab.log, k) == 1)
  {
    var st, k := RunLooper(env, world, cap, rounds), Key(env.peer, t);
    var s := st.core.books.cor.sessions[t];
    LooperRuns(env, world, cap, rounds);
    NoneAgreed(env.peer, cap);
    FromOrderly(env, NewCore(cap), LooperOps(env, world, cap, rounds));
    TickAwaiting(env, world, cap, rounds, ms, t);
    var ops := TurnOps(env, world, st, Messages(ms));
    TurnRuns(env, world, st, Messages(ms));
    FromOrderly(env, st.core, ops);
    var r := Tick(env, world, st, ms).core;
    if Note(k, Failed) in r.books.tab.log {
      OneVerdict(env, r, Note(k, Failed));
    } else {
      NoVerdictYet(env, r, t, Replied);
    }
  }

  lemma {:induction false} TickAwaiting(
    env: Env, world: World, cap: nat, rounds: seq<Round>, ms: seq<Message>, t: Token)
    requires env.Fair() && NoReply(ms, t)
    requires var c := RunLooper(env, world, cap, rounds).core;
             !c.exited && t in c.books.cor.sessions && Orderly(env, c)
    ensures var st := RunLooper(env, world, cap, rounds);
            var r, k, s := Tick(env, world, st, ms).core, Key(env.peer, t), st.core.books.cor.sessions[t];
            && Awaiting(env, r, t, s)
            && ((exists i :: 0 <= i < |ms| && FailsToken(ms[i], t, s)) ==> Note(k, Failed) in r.books.tab.log)
  {
    var st := RunLooper(env, world, cap, rounds);
    var s, polled := st.core.books.cor.sessions[t], Poll(st, ms);
    FrameworkSorted(env, world, cap, rounds, ms);
    SortedNoReply(ms, t);
    RestNoReply(env, world, polled, t);
    FrameworkAwaiting(env, st.core, SortedOps(ms), RestOps(env, world, polled), t, s);
    PollKeepsCore(st, ms);
    if exists i :: 0 <= i < |ms| && FailsToken(ms[i], t, s) {
      var i :| 0 <= i < |ms| && FailsToken(ms[i], t, s);
      SortedFails(ms, i, t, s);
    }
    if Empty(polled.batch) {
      assert FrameworkOps(polled.batch) == [];
    } else {
      DispatchRuns(env, world, polled);
    }
  }

  // ---- and nothing else ends the wait ----

  /** The message settles the request: its reply, its failure, or a teardown of its session. */
  predicate SettlesToken(m: Message, t: Token, s: Session) {
    (m.ReplyFrame? && m.token == t) || FailsToken(m, t, s)
  }

  lemma {:induction false} AskedSettles(m: Message, t: Token, s: Session)
    ensures SettledIn(OpsFor(m), t, s) <==> SettlesToken(m, t, s)
  {
    var ops := OpsFor(m);
    SettledAt(ops, t, s);
    if SettlesToken(m, t, s) {
      assert Settles(ops[0], t, s);
    }
  }

  lemma {:induction false} PhaseSettles(ms: seq<Message>, p: nat, t: Token, s: Session)
    ensures SettledIn(PhaseOps(ms, p), t, s)
       <==> exists i :: 0 <= i < |ms| && PhaseOf(ms[i]) == p && SettlesToken(ms[i], t, s)
  {
    if ms != [] {
      var n := |ms| - 1;
      PhaseSettles(ms[..n], p, t, s);
      AskedSettles(ms[n], t, s);
      SettledConcat(PhaseOps(ms[..n], p), if PhaseOf(ms[n]) == p then OpsFor(ms[n]) else [], t, s);
      assert forall i :: 0 <= i < n ==> ms[..n][i] == ms[i];
    }
  }

  /** What the messages make the framework do settles a request just when one of them does. */
  lemma {:induction false} SortedSettles(ms: seq<Message>, t: Token, s: Session)
    ensures SettledIn(SortedOps(ms), t, s) <==> exists i :: 0 <= i < |ms| && SettlesToken(ms[i], t, s)
  {
    var a, b, c := PhaseOps(ms, 0), PhaseOps(ms, 1), PhaseOps(ms, 2);
    var d, e, f, g := PhaseOps(ms, 3), PhaseOps(ms, 4), PhaseOps(ms, 5), PhaseOps(ms, 6);
    SettledConcat(a, b, t, s);
    SettledConcat(a + b, c, t, s);
    SettledConcat(a + b + c, d, t, s);
    SettledConcat(a + b + c + d, e, t, s);
    SettledConcat(a + b + c + d + e, f, t, s);
    SettledConcat(a + b + c + d + e + f, g, t, s);
    forall p: nat ensures SettledIn(PhaseOps(ms, p), t, s)
                     <==> exists i :: 0 <= i < |ms| && PhaseOf(ms[i]) == p && SettlesToken(ms[i], t, s) {
      PhaseSettles(ms, p, t, s);
    }
    if i :| 0 <= i < |ms| && SettlesToken(ms[i], t, s) {
      assert PhaseOf(ms[i]) == 1 || PhaseOf(ms[i]) == 2 || PhaseOf(ms[i]) == 3;
    }
  }

  lemma {:induction false} ServeSettlesNone(
    env: Env, world: World, tick: nat, revoked: set<Session>, c: Core, items: seq<Item>, n: nat, t: Token, s: Session)
    ensures !SettledIn(ServeOps(env, world, tick, revoked, c, items, n), t, s)
    decreases |items|
  {
    if items != [] {
      var x, rest := items[0], items[1..];
      var next := Step(env, c, OpOf(x));
      ServeSettlesNone(env, world, tick, revoked, c, rest, n, t, s);
      ServeSettlesNone(env, world, tick, revoked, next, rest, n + 1, t, s);
      SettledConcat([OpOf(x)], ServeOps(env, world, tick, revoked, next, rest, n + 1), t, s);
      assert [OpOf(x)][..0] == [] && !SettledIn([OpOf(x)][..0], t, s);
    }
  }

  lemma {:induction false} NoticesSettleNone(env: Env, world: World, st: Loop, n: nat, t: Token, s: Session)
    ensures !SettledIn(NoticeOps(env, world, st, n), t, s)
  {
    var served := ServeOps(env, world, st.ticks, st.batch.revoked, st.core, st.batch.notices, n);
    ServeSettlesNone(env, world, st.ticks, st.batch.revoked, st.core, st.batch.notices, n, t, s);
    SettledConcat(served, [Closed], t, s);
    SettledConcat(served, [], t, s);
    assert [Closed][..0] == [] && !SettledIn([Closed][..0], t, s);
  }

  /** Inbound work settles nothing. */
  lemma {:induction false} RestSettlesNone(env: Env, world: World, st: Loop, t: Token, s: Session)
    ensures !SettledIn(RestOps(env, world, st), t, s)
  {
    var mid := Middle(env, world, st);
    var r := ServeRequests(env, world, mid);
    ServeSettlesNone(env, world, mid.ticks, mid.batch.revoked, mid.core, mid.batch.requests, 0, t, s);
    NoticesSettleNone(env, world, RequestsServed(mid, r), r.dispatched, t, s);
    SettledConcat(ServeOps(env, world, mid.ticks, mid.batch.revoked, mid.core, mid.batch.requests, 0),
                  NoticeOps(env, world, RequestsServed(mid, r), r.dispatched), t, s);
  }

  /**
   The life of a request, from the messages. After any run, a request outstanding before a tick is outstanding after it
   exactly if the looper goes on and no message of the tick is its reply, its failure or a teardown of its session.
   */
  lemma {:induction false} OutstandingThroughTick(
    env: Env, world: World, cap: nat, rounds: seq<Round>, ms: seq<Message>, t: Token)
    requires env.Fair()
    requires var c := RunLooper(env, world, cap, rounds).core; !c.exited && t in c.books.cor.sessions
    ensures var st := RunLooper(env, world, cap, rounds);
            var r, s := Tick(env, world, st, ms).core, st.core.books.cor.sessions[t];
            t in r.books.cor.sessions
            <==> !r.exited && !(exists i :: 0 <= i < |ms| && SettlesToken(ms[i], t, s))
  {
    var st := RunLooper(env, world, cap, rounds);
    var s, polled := st.core.books.cor.sessions[t], Poll(st, ms);
    LooperRuns(env, world, cap, rounds);
    NoneAgreed(env.peer, cap);
    FromOrderly(env, NewCore(cap), LooperOps(env, world, cap, rounds));
    FrameworkSorted(env, world, cap, rounds, ms);
    SortedSettles(ms, t, s);
    RestSettlesNone(env, world, polled, t, s);
    SettledConcat(SortedOps(ms), RestOps(env, world, polled), t, s);
    var ops := TurnOps(env, world, st, Messages(ms));
    TurnRuns(env, world, st, Messages(ms));
    OutstandingUntil(env, st.core, ops, t);
    if Empty(polled.batch) {
      assert FrameworkOps(polled.batch) == [];
    }
  }
}
