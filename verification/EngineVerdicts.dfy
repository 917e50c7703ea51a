/** Which of the three verdicts a token gets, over every run. */
module EngineVerdicts {
  import opened Engine
  import opened EngineBooks
  import opened EngineTheorems

  // ---- one resolution, one verdict ----

  lemma {:induction false} TimesOfMember(log: seq<Note>, n: Note)
    requires n in log
    ensures Times(log, n.key) > 0
  {
    if log[|log| - 1] != n {
      TimesOfMember(log[..|log| - 1], n);
    }
  }

  lemma {:induction false} TimesOfTwo(log: seq<Note>, n: Note, m: Note)
    requires n in log && m in log && n != m && n.key == m.key
    ensures Times(log, n.key) > 1
  {
    var init, last := log[..|log| - 1], log[|log| - 1];
    assert log == init + [last];
    if last == n {
      TimesOfMember(init, m);
    } else if last == m {
      TimesOfMember(init, n);
    } else {
      TimesOfTwo(init, n, m);
    }
  }

  lemma {:induction false} OneVerdict(env: Env, c: Core, n: Note)
    requires Orderly(env, c) && n in c.books.tab.log
    ensures Times(c.books.tab.log, n.key) == 1
    ensures forall m :: m in c.books.tab.log && m.key == n.key ==> m == n
  {
    assert KeyAgreed(env.peer, c.books, {}, n.key);
    TimesOfMember(c.books.tab.log, n);
    forall m | m in c.books.tab.log && m.key == n.key ensures m == n {
      if m != n {
        TimesOfTwo(c.books.tab.log, n, m);
      }
    }
  }

  // ---- what happened to a token ----

  /** The next request is given token `t`, and its frame is refused. */
  predicate RefusedSend(env: Env, b: Books, t: Token) {
    b.cor.next == t && env.wire(b.attempts) == Refused
  }

  predicate RefusedAct(env: Env, sc: Scene, act: Act, t: Token) {
    sc.ok && (act.Send? || act.TrySend?) && !sc.books.cor.WouldExceed() && RefusedSend(env, sc.books, t)
  }

  predicate RefusedActs(env: Env, p: Port, sc: Scene, acts: seq<Act>, t: Token) {
    acts != []
    && (RefusedActs(env, p, sc, acts[..|acts| - 1], t)
        || RefusedAct(env, PerformAll(env, p, sc, acts[..|acts| - 1]), acts[|acts| - 1], t))
  }

  predicate RefusedStep(env: Env, c: Core, op: Op, t: Token) {
    match op
    case SyncSend(_) => RefusedSend(env, c.books, t)
    case Asked(p, body) =>
      env.serves(p.session) && body == Good
      && RefusedActs(env, p, Opening(c.books, c.ledger, p), env.acts(c.ledger.calls), t)
    case _ => false
  }

  /** Somewhere in the run the frame of request `t` was refused. */
  predicate RefusedIn(env: Env, c: Core, ops: seq<Op>, t: Token) {
    ops != []
    && (var init := ops[..|ops| - 1];
        RefusedIn(env, c, init, t)
        || (!From(env, c, init).exited && RefusedStep(env, From(env, c, init), ops[|ops| - 1], t)))
  }

  /** Somewhere in the run a Reply frame for `t` came while `t` was outstanding. */
  predicate RepliedIn(env: Env, c: Core, ops: seq<Op>, t: Token) {
    ops != []
    && (var init := ops[..|ops| - 1];
        RepliedIn(env, c, init, t)
        || (!From(env, c, init).exited && ops[|ops| - 1] == ReplyTo(t) && t in From(env, c, init).books.cor.sessions))
  }

  // ---- what each part of a step adds to the log ----

  lemma {:induction false} ResolveAdds(d: Table, k: Key, v: Verdict, n: Note)
    ensures n in Resolve(d, k, v).log <==> n in d.log || (Has(d, k) && n == Note(k, v))
  {
  }

  lemma {:induction false} FailAllAdds(d: Table, peer: Peer, ts: seq<Token>, n: Note)
    requires n.verdict != Failed
    ensures n in FailAll(d, peer, ts).log <==> n in d.log
  {
    if ts != [] {
      FailAllAdds(d, peer, ts[..|ts| - 1], n);
      ResolveAdds(FailAll(d, peer, ts[..|ts| - 1]), Key(peer, ts[|ts| - 1]), Failed, n);
    }
  }

  lemma {:induction false} FinishAdds(env: Env, c: Core, o: Outcome, n: Note)
    requires n.verdict != Failed
    ensures n in Finish(env, c, o).books.tab.log <==> n in c.books.tab.log
  {
    FailAllAdds(c.books.tab, env.peer, AllTokens(env, c.books), n);
  }

  lemma {:induction false} SendAdds(env: Env, b: Books, s: Session, o: Origin, t: Token, v: Verdict)
    ensures Note(Key(env.peer, t), v) in SendRequest(env, b, s, o).tab.log
       <==> Note(Key(env.peer, t), v) in b.tab.log || (v == RolledBack && RefusedSend(env, b, t))
  {
    var k := Key(env.peer, b.cor.next);
    ResolveAdds(Install(env.peer, b, s, o).tab, k, RolledBack, Note(Key(env.peer, t), v));
  }

  lemma {:induction false} ActAdds(env: Env, p: Port, sc: Scene, act: Act, t: Token, v: Verdict)
    ensures Note(Key(env.peer, t), v) in Perform(env, p, sc, act).books.tab.log
       <==> Note(Key(env.peer, t), v) in sc.books.tab.log || (v == RolledBack && RefusedAct(env, sc, act, t))
  {
    if act.Send? || act.TrySend? {
      SendAdds(env, sc.books, act.session, Handler, t, v);
    }
  }

  lemma {:induction false} ActsAdd(env: Env, p: Port, sc: Scene, acts: seq<Act>, t: Token, v: Verdict)
    ensures Note(Key(env.peer, t), v) in PerformAll(env, p, sc, acts).books.tab.log
       <==> Note(Key(env.peer, t), v) in sc.books.tab.log || (v == RolledBack && RefusedActs(env, p, sc, acts, t))
  {
    if acts != [] {
      ActsAdd(env, p, sc, acts[..|acts| - 1], t, v);
      ActAdds(env, p, PerformAll(env, p, sc, acts[..|acts| - 1]), acts[|acts| - 1], t, v);
    }
  }

  lemma {:induction false} RequestAdds(env: Env, c: Core, p: Port, body: Body, t: Token, v: Verdict)
    requires v != Failed
    ensures Note(Key(env.peer, t), v) in Request(env, c, p, body).books.tab.log
       <==> Note(Key(env.peer, t), v) in c.books.tab.log || (v == RolledBack && RefusedStep(env, c, Asked(p, body), t))
  {
    if env.serves(p.session) && body == Good {
      ActsAdd(env, p, Opening(c.books, c.ledger, p), env.acts(c.ledger.calls), t, v);
      FinishAdds(env, Handled(env, c, p), HandledOutcome(env, c, p), Note(Key(env.peer, t), v));
    }
  }

  lemma {:induction false} ConcludeAdds(env: Env, c: Core, t: Token, v: Verdict, n: Note)
    requires n.verdict != Failed
    ensures n in Conclude(env, c, t, v).books.tab.log
       <==> n in c.books.tab.log || (Has(c.books.tab, Key(env.peer, t)) && n == Note(Key(env.peer, t), v))
  {
    ResolveAdds(c.books.tab, Key(env.peer, t), v, n);
    FinishAdds(env, Concluding(env, c, t, v), env.outcome(c.ledger.calls), n);
  }

  lemma {:induction false} QuietAdds(env: Env, c: Core, op: Op, n: Note)
    requires n.verdict != Failed && !op.Asked? && !op.SyncSend? && !op.ReplyTo? && !op.FailureOf?
    ensures n in Step(env, c, op).books.tab.log <==> n in c.books.tab.log
  {
    FinishAdds(env, c.(ledger := Called(env, c.ledger, Plain)), env.outcome(c.ledger.calls), n);
    FinishAdds(env, c, Stop, n);
    FinishAdds(env, Callback(env, c), Stop, n);
    if op.TeardownOf? {
      FailAllAdds(c.books.tab, env.peer, SessionTokens(env, c.books, op.session), n);
    }
  }

  /** A step rolls a token back exactly when its frame is refused, and replies to it exactly when a Reply reaches it. */
  lemma {:induction false} StepAdds(env: Env, c: Core, op: Op, t: Token, v: Verdict)
    requires v != Failed && Agreed(env.peer, c.books, {})
    ensures Note(Key(env.peer, t), v) in Step(env, c, op).books.tab.log
       <==> || Note(Key(env.peer, t), v) in c.books.tab.log
            || (v == RolledBack && RefusedStep(env, c, op, t))
            || (v == Replied && op == ReplyTo(t) && t in c.books.cor.sessions)
  {
    var n := Note(Key(env.peer, t), v);
    assert KeyAgreed(env.peer, c.books, {}, Key(env.peer, t));
    match op
    case Asked(p, body) => RequestAdds(env, c, p, body, t, v);
    case SyncSend(s) => SendAdds(env, c.books, s, Sync, t, v);
    case ReplyTo(r) => ConcludeAdds(env, c, r, Replied, n);
    case FailureOf(r) => ConcludeAdds(env, c, r, Failed, n);
    case _ => QuietAdds(env, c, op, n);
  }

  lemma {:induction false} RunAdds(env: Env, c: Core, ops: seq<Op>, t: Token, v: Verdict)
    requires v != Failed && env.Fair() && Orderly(env, c)
    ensures Note(Key(env.peer, t), v) in From(env, c, ops).books.tab.log
       <==> || Note(Key(env.peer, t), v) in c.books.tab.log
            || (v == RolledBack && RefusedIn(env, c, ops, t))
            || (v == Replied && RepliedIn(env, c, ops, t))
  {
    if ops != [] {
      var init := ops[..|ops| - 1];
      RunAdds(env, c, init, t, v);
      FromOrderly(env, c, init);
      if !From(env, c, init).exited {
        StepAdds(env, From(env, c, init), ops[|ops| - 1], t, v);
      }
    }
  }

  lemma {:induction false} SomeNote(log: seq<Note>, k: Key)
    requires Times(log, k) > 0
    ensures exists v :: Note(k, v) in log
  {
    var last := log[|log| - 1];
    if last.key == k {
      assert Note(k, last.verdict) in log;
    } else {
      SomeNote(log[..|log| - 1], k);
      var v :| Note(k, v) in log[..|log| - 1];
      assert Note(k, v) in log;
    }
  }

  /** A settled token has one verdict, so it failed exactly when it has neither of the others. */
  lemma {:induction false} FailedOtherwise(env: Env, c: Core, t: Token)
    requires Orderly(env, c)
    ensures var b, k := c.books, Key(env.peer, t);
            Note(k, Failed) in b.tab.log <==>
              t < b.cor.next && t !in b.cor.sessions
              && Note(k, RolledBack) !in b.tab.log && Note(k, Replied) !in b.tab.log
  {
    var log, k := c.books.tab.log, Key(env.peer, t);
    assert KeyAgreed(env.peer, c.books, {}, k);
    if Note(k, Failed) in log {
      OneVerdict(env, c, Note(k, Failed));
    } else if Times(log, k) > 0 {
      SomeNote(log, k);
      var v :| Note(k, v) in log;
      assert v == RolledBack || v == Replied;
    }
  }

  /**
   The verdicts. Over any run a token is rolled back if and only if its frame was refused, replied to if and only if a
   Reply came for it while it was outstanding, and failed if and only if it was settled and neither of these happened.
   */
  lemma {:induction false} VerdictsExact(env: Env, cap: nat, ops: seq<Op>, t: Token)
    requires env.Fair()
    ensures var b, k := Run(env, cap, ops).books, Key(env.peer, t);
            && (Note(k, RolledBack) in b.tab.log <==> RefusedIn(env, NewCore(cap), ops, t))
            && (Note(k, Replied) in b.tab.log <==> RepliedIn(env, NewCore(cap), ops, t))
            && (Note(k, Failed) in b.tab.log <==>
                 t < b.cor.next && t !in b.cor.sessions
                 && !RefusedIn(env, NewCore(cap), ops, t) && !RepliedIn(env, NewCore(cap), ops, t))
  {
    NoneAgreed(env.peer, cap);
    FromOrderly(env, NewCore(cap), ops);
    RunAdds(env, NewCore(cap), ops, t, RolledBack);
    RunAdds(env, NewCore(cap), ops, t, Replied);
    FailedOtherwise(env, Run(env, cap, ops), t);
  }
}
