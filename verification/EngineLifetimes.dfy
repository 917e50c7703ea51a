/** How long a request is outstanding. */
module EngineLifetimes {
  import opened Enumeration
  import opened Engine
  import opened EngineBooks
  import opened EngineTheorems

  // ---- tokens are not used again ----

  lemma {:induction false} SettleAllKeeps(c: Correlator, ts: seq<Token>, t: Token)
    ensures SettleAll(c, ts).next == c.next
    ensures t in SettleAll(c, ts).sessions <==> t in c.sessions && t !in ts
    ensures t in SettleAll(c, ts).sessions ==> SettleAll(c, ts).sessions[t] == c.sessions[t]
  {
    if ts != [] {
      SettleAllKeeps(c, ts[..|ts| - 1], t);
      assert ts == ts[..|ts| - 1] + [ts[|ts| - 1]];
    }
  }

  /** Whatever an operation does, a token keeps its number and, while it is outstanding, its session. */
  ghost predicate Keeps(c: Correlator, r: Correlator, t: Token) {
    && r.next >= c.next
    && (t < c.next && t in r.sessions ==> t in c.sessions && r.sessions[t] == c.sessions[t])
  }

  lemma {:induction false} KeepsThrough(a: Correlator, b: Correlator, c: Correlator, t: Token)
    requires Keeps(a, b, t) && Keeps(b, c, t)
    ensures Keeps(a, c, t)
  {
  }

  lemma {:induction false} ActKeeps(env: Env, p: Port, sc: Scene, act: Act, t: Token)
    ensures Keeps(sc.books.cor, Perform(env, p, sc, act).books.cor, t)
  {
  }

  lemma {:induction false} ActsKeep(env: Env, p: Port, sc: Scene, acts: seq<Act>, t: Token)
    ensures Keeps(sc.books.cor, PerformAll(env, p, sc, acts).books.cor, t)
  {
    if acts != [] {
      var before := PerformAll(env, p, sc, acts[..|acts| - 1]);
      ActsKeep(env, p, sc, acts[..|acts| - 1], t);
      ActKeeps(env, p, before, acts[|acts| - 1], t);
      KeepsThrough(sc.books.cor, before.books.cor, PerformAll(env, p, sc, acts).books.cor, t);
    }
  }

  lemma {:induction false} FinishKeeps(env: Env, c: Core, o: Outcome, t: Token)
    ensures Keeps(c.books.cor, Engine.Finish(env, c, o).books.cor, t)
  {
  }

  lemma {:induction false} RequestKeepsToken(env: Env, c: Core, p: Port, t: Token)
    requires env.serves(p.session)
    ensures Keeps(c.books.cor, Request(env, c, p, Good).books.cor, t)
  {
    var mid := Handled(env, c, p);
    ActsKeep(env, p, Opening(c.books, c.ledger, p), env.acts(c.ledger.calls), t);
    FinishKeeps(env, mid, HandledOutcome(env, c, p), t);
    KeepsThrough(c.books.cor, mid.books.cor, Request(env, c, p, Good).books.cor, t);
  }

  lemma {:induction false} ConcludeKeepsToken(env: Env, c: Core, r: Token, v: Verdict, t: Token)
    ensures Keeps(c.books.cor, Conclude(env, c, r, v).books.cor, t)
  {
    FinishKeeps(env, Concluding(env, c, r, v), env.outcome(c.ledger.calls), t);
  }

  lemma {:induction false} StepKeepsToken(env: Env, c: Core, op: Op, t: Token)
    ensures Keeps(c.books.cor, Step(env, c, op).books.cor, t)
  {
    var called := c.(ledger := Called(env, c.ledger, Plain));
    match op
    case Call => FinishKeeps(env, called, env.outcome(c.ledger.calls), t);
    case Notice(s, body) =>
      FinishKeeps(env, called, env.outcome(c.ledger.calls), t);
      FinishKeeps(env, c, Panic, t);
    case Asked(p, body) =>
      if env.serves(p.session) && body == Good {
        RequestKeepsToken(env, c, p, t);
      }
    case SyncSend(_) =>
    case ReplyTo(r) => ConcludeKeepsToken(env, c, r, Replied, t);
    case FailureOf(r) => ConcludeKeepsToken(env, c, r, Failed, t);
    case TeardownOf(s) => SettleAllKeeps(c.books.cor, SessionTokens(env, c.books, s), t);
    case Closed =>
      FinishKeeps(env, called, env.outcome(c.ledger.calls), t);
      FinishKeeps(env, Callback(env, c), Stop, t);
    case Broken => FinishKeeps(env, c, Stop, t);
  }

  // ---- what ends the wait ----

  /** The operations that settle a request sent on a session. */
  predicate Settles(op: Op, t: Token, s: Session) {
    op == ReplyTo(t) || op == FailureOf(t) || op == TeardownOf(s)
  }

  predicate SettledIn(ops: seq<Op>, t: Token, s: Session) {
    ops != [] && (SettledIn(ops[..|ops| - 1], t, s) || Settles(ops[|ops| - 1], t, s))
  }

  lemma {:induction false} SettledAt(ops: seq<Op>, t: Token, s: Session)
    ensures SettledIn(ops, t, s) <==> exists i :: 0 <= i < |ops| && Settles(ops[i], t, s)
  {
    if ops != [] {
      var init := ops[..|ops| - 1];
      SettledAt(init, t, s);
      if SettledIn(init, t, s) {
        var i :| 0 <= i < |init| && Settles(init[i], t, s);
        assert Settles(ops[i], t, s);
      }
      if exists i :: 0 <= i < |ops| && Settles(ops[i], t, s) {
        var i :| 0 <= i < |ops| && Settles(ops[i], t, s);
        assert i < |init| ==> Settles(init[i], t, s);
      }
    }
  }

  lemma {:induction false} SettledConcat(a: seq<Op>, b: seq<Op>, t: Token, s: Session)
    ensures SettledIn(a + b, t, s) <==> SettledIn(a, t, s) || SettledIn(b, t, s)
  {
    if b == [] {
      assert a + b == a;
    } else {
      assert (a + b)[..|a + b| - 1] == a + b[..|b| - 1];
      SettledConcat(a, b[..|b| - 1], t, s);
    }
  }

  predicate Outstanding(c: Correlator, t: Token, s: Session) {
    t in c.sessions && c.sessions[t] == s && t < c.next
  }

  /** A request of a handler is outstanding on the session it was sent on, unless its frame was refused. */
  lemma {:induction false} HandlerIssues(env: Env, p: Port, sc: Scene, s: Session, caught: bool)
    requires sc.ok && !sc.books.cor.WouldExceed()
    ensures Outstanding(Perform(env, p, sc, Send(s, caught)).books.cor, sc.books.cor.next, s)
       <==> env.wire(sc.books.attempts) != Refused
    ensures Perform(env, p, sc, Send(s, caught)).books.attempts == sc.books.attempts + 1
    ensures Perform(env, p, sc, TrySend(s, caught)) == Perform(env, p, sc, Send(s, caught))
    ensures Outstanding(Perform(env, p, sc, Await(s)).books.cor, sc.books.cor.next, s)
  {
  }

  lemma {:induction false} SyncIssues(env: Env, c: Core, s: Session)
    ensures Outstanding(Step(env, c, SyncSend(s)).books.cor, c.books.cor.next, s)
       <==> env.wire(c.books.attempts) != Refused
    ensures Step(env, c, SyncSend(s)).books.attempts == c.books.attempts + 1
  {
  }

  lemma {:induction false} ActsWait(env: Env, p: Port, sc: Scene, acts: seq<Act>, t: Token, s: Session)
    requires Outstanding(sc.books.cor, t, s)
    ensures Outstanding(PerformAll(env, p, sc, acts).books.cor, t, s)
  {
    if acts != [] {
      ActsWait(env, p, sc, acts[..|acts| - 1], t, s);
    }
  }

  /** The looper ends, and no request is left; or the books are as they were. */
  lemma {:induction false} FinishWaits(env: Env, c: Core, o: Outcome, t: Token, s: Session)
    requires !c.exited
    ensures var r := Finish(env, c, o);
            if r.exited then t !in r.books.cor.sessions
            else Outstanding(r.books.cor, t, s) == Outstanding(c.books.cor, t, s)
  {
  }

  lemma {:induction false} CallbackWaits(env: Env, c: Core, t: Token, s: Session)
    requires !c.exited && Outstanding(c.books.cor, t, s)
    ensures Outstanding(Callback(env, c).books.cor, t, s) <==> !Callback(env, c).exited
  {
    FinishWaits(env, c.(ledger := Called(env, c.ledger, Plain)), env.outcome(c.ledger.calls), t, s);
  }

  lemma {:induction false} RequestWaits(env: Env, c: Core, p: Port, body: Body, t: Token, s: Session)
    requires !c.exited && Outstanding(c.books.cor, t, s)
    ensures Outstanding(Request(env, c, p, body).books.cor, t, s) <==> !Request(env, c, p, body).exited
  {
    if env.serves(p.session) && body == Good {
      ActsWait(env, p, Opening(c.books, c.ledger, p), env.acts(c.ledger.calls), t, s);
      FinishWaits(env, Handled(env, c, p), HandledOutcome(env, c, p), t, s);
    }
  }

  lemma {:induction false} ConcludeWaits(env: Env, c: Core, r: Token, v: Verdict, t: Token, s: Session)
    requires Orderly(env, c) && !c.exited && Outstanding(c.books.cor, t, s)
    ensures var after := Conclude(env, c, r, v);
            Outstanding(after.books.cor, t, s) <==> !after.exited && r != t
  {
    assert KeyAgreed(env.peer, c.books, {}, Key(env.peer, t));
    FinishWaits(env, Concluding(env, c, r, v), env.outcome(c.ledger.calls), t, s);
  }

  lemma {:induction false} TeardownWaits(env: Env, c: Core, other: Session, t: Token, s: Session)
    requires env.Fair() && !c.exited && Outstanding(c.books.cor, t, s)
    ensures Outstanding(Teardown(env, c, other).books.cor, t, s) <==> other != s
  {
    var ts := SessionTokens(env, c.books, other);
    SettleAllKeeps(c.books.cor, ts, t);
    assert Enumerates(ts, TokensOf(c.books.cor, other));
    assert t in ts <==> t in TokensOf(c.books.cor, other);
  }

  /** One operation: an outstanding request stays so exactly unless it is settled or the looper ends. */
  lemma {:induction false} StepWaits(env: Env, c: Core, op: Op, t: Token, s: Session)
    requires env.Fair() && Orderly(env, c) && !c.exited && Outstanding(c.books.cor, t, s)
    ensures Outstanding(Step(env, c, op).books.cor, t, s) <==> !Step(env, c, op).exited && !Settles(op, t, s)
  {
    match op
    case Call => CallbackWaits(env, c, t, s);
    case Notice(_, _) =>
      CallbackWaits(env, c, t, s);
      FinishWaits(env, c, Panic, t, s);
    case Asked(p, body) => RequestWaits(env, c, p, body, t, s);
    case SyncSend(_) =>
    case ReplyTo(r) => ConcludeWaits(env, c, r, Replied, t, s);
    case FailureOf(r) => ConcludeWaits(env, c, r, Failed, t, s);
    case TeardownOf(other) => TeardownWaits(env, c, other, t, s);
    case Closed =>
      CallbackWaits(env, c, t, s);
    case Broken =>
  }

  /**
   The life of a request. From any point of any run at which it is outstanding, it stays outstanding exactly until a
   reply or failure of its own, a teardown of the session it was sent on, or the end of the looper; a teardown of
   another session does not touch it.
   */
  lemma {:induction false} OutstandingUntil(env: Env, c: Core, ops: seq<Op>, t: Token)
    requires env.Fair() && Orderly(env, c) && !c.exited && t in c.books.cor.sessions
    ensures var r := From(env, c, ops);
            t in r.books.cor.sessions <==> !r.exited && !SettledIn(ops, t, c.books.cor.sessions[t])
    ensures var r := From(env, c, ops);
            t in r.books.cor.sessions ==> r.books.cor.sessions[t] == c.books.cor.sessions[t]
    ensures t < c.books.cor.next <= From(env, c, ops).books.cor.next
  {
    if ops != [] {
      var init, op, s := ops[..|ops| - 1], ops[|ops| - 1], c.books.cor.sessions[t];
      OutstandingUntil(env, c, init, t);
      FromOrderly(env, c, init);
      var before := From(env, c, init);
      if !before.exited {
        StepKeepsToken(env, before, op, t);
        StepOrderly(env, before, op);
        if Outstanding(before.books.cor, t, s) {
          StepWaits(env, before, op, t, s);
        }
      }
    }
  }

  lemma {:induction false} RunOutstandingUntil(env: Env, cap: nat, ops: seq<Op>, more: seq<Op>, t: Token)
    requires env.Fair() && t in Run(env, cap, ops).books.cor.sessions
    ensures var c := Run(env, cap, ops);
            var r := From(env, c, more);
            t in r.books.cor.sessions <==> !r.exited && !SettledIn(more, t, c.books.cor.sessions[t])
  {
    NoneAgreed(env.peer, cap);
    FromOrderly(env, NewCore(cap), ops);
    OutstandingUntil(env, Run(env, cap, ops), more, t);
  }
}
