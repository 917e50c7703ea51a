/** Which requests received get a Reply or a Failed, and what user code does to those that get neither. */
module EngineAnswers {
  import opened Engine
  import opened EngineObligations

  // ---- user code that botches a reply ----

  /** A kept port is used with a value that cannot be serialized. */
  predicate BotchesRelease(l: Ledger, r: Release) {
    r.index < |l.stash| && r.way == Botched
  }

  predicate BotchesReleases(l: Ledger, rs: seq<Release>) {
    rs != []
    && (BotchesReleases(l, rs[..|rs| - 1]) || BotchesRelease(LetAll(l, rs[..|rs| - 1]), rs[|rs| - 1]))
  }

  /** The next call into user code does so. */
  predicate BotchesCall(env: Env, l: Ledger) {
    BotchesReleases(l, env.releases(l.calls))
  }

  /** Some on_failed callback of a cascade does so. */
  predicate BotchesFailing(env: Env, l: Ledger, d: Table, ts: seq<Token>) {
    ts != []
    && (var init := ts[..|ts| - 1];
        BotchesFailing(env, l, d, init)
        || (CallsHandler(FailAll(d, env.peer, init), Key(env.peer, ts[|ts| - 1]))
            && BotchesCall(env, FailCalls(env, l, d, init))))
  }

  predicate BotchesDestroy(env: Env, c: Core) {
    BotchesFailing(env, c.ledger, c.books.tab, AllTokens(env, c.books))
  }

  predicate BotchesFinish(env: Env, c: Core, o: Outcome) {
    o != Continue && BotchesDestroy(env, c)
  }

  predicate BotchesCallback(env: Env, c: Core) {
    BotchesCall(env, c.ledger)
    || BotchesFinish(env, c.(ledger := Called(env, c.ledger, Plain)), env.outcome(c.ledger.calls))
  }

  /** A running request handler answers the port in its hands that way, or one it kept. */
  predicate BotchesAct(sc: Scene, act: Act) {
    sc.ok && ((act.OnStash? && BotchesRelease(sc.ledger, act.release)) || (act == AnswerHeld(Botched) && sc.held))
  }

  predicate BotchesActs(env: Env, p: Port, sc: Scene, acts: seq<Act>) {
    acts != []
    && (BotchesActs(env, p, sc, acts[..|acts| - 1])
        || BotchesAct(PerformAll(env, p, sc, acts[..|acts| - 1]), acts[|acts| - 1]))
  }

  predicate BotchesRequest(env: Env, c: Core, p: Port) {
    BotchesActs(env, p, Opening(c.books, c.ledger, p), env.acts(c.ledger.calls))
    || BotchesFinish(env, Handled(env, c, p), HandledOutcome(env, c, p))
  }

  predicate BotchesConclude(env: Env, c: Core, t: Token, v: Verdict) {
    CallsHandler(c.books.tab, Key(env.peer, t))
    && (BotchesCall(env, c.ledger) || BotchesFinish(env, Concluding(env, c, t, v), env.outcome(c.ledger.calls)))
  }

  predicate BotchesClose(env: Env, c: Core) {
    BotchesCallback(env, c) || (env.outcome(c.ledger.calls) == Continue && BotchesDestroy(env, Callback(env, c)))
  }

  predicate BotchesStep(env: Env, c: Core, op: Op) {
    match op
    case Call => BotchesCallback(env, c)
    case Notice(s, body) =>
      env.listens(s) && body != WrongTag
      && (if body == Malformed then BotchesDestroy(env, c) else BotchesCallback(env, c))
    case Asked(p, body) => env.serves(p.session) && body == Good && BotchesRequest(env, c, p)
    case SyncSend(_) => false
    case ReplyTo(t) => BotchesConclude(env, c, t, Replied)
    case FailureOf(t) => BotchesConclude(env, c, t, Failed)
    case TeardownOf(s) => BotchesFailing(env, c.ledger, c.books.tab, SessionTokens(env, c.books, s))
    case Closed => BotchesClose(env, c)
    case Broken => BotchesDestroy(env, c)
  }

  /** In some operation of the run that took place, user code botches a reply. */
  predicate BotchesRun(env: Env, c: Core, ops: seq<Op>) {
    ops != []
    && (var init := ops[..|ops| - 1];
        BotchesRun(env, c, init)
        || (!From(env, c, init).exited && BotchesStep(env, From(env, c, init), ops[|ops| - 1])))
  }

  // ---- what it leaves in the ledger ----

  ghost predicate Clean(answers: seq<Answer>) {
    forall i :: 0 <= i < |answers| ==> answers[i].way != Botched
  }

  lemma {:induction false} CleanSnoc(answers: seq<Answer>, a: Answer)
    ensures Clean(answers + [a]) <==> Clean(answers) && a.way != Botched
  {
    var all := answers + [a];
    assert all[|answers|] == a;
    assert forall i :: 0 <= i < |answers| ==> all[i] == answers[i];
  }

  lemma {:induction false} ReleaseLeaves(l: Ledger, r: Release)
    ensures Clean(Let(l, r).answers) <==> Clean(l.answers) && !BotchesRelease(l, r)
  {
    if r.index < |l.stash| {
      CleanSnoc(l.answers, Answer(l.stash[r.index], r.way));
    }
  }

  lemma {:induction false} ReleasesLeave(l: Ledger, rs: seq<Release>)
    ensures Clean(LetAll(l, rs).answers) <==> Clean(l.answers) && !BotchesReleases(l, rs)
  {
    if rs != [] {
      ReleasesLeave(l, rs[..|rs| - 1]);
      ReleaseLeaves(LetAll(l, rs[..|rs| - 1]), rs[|rs| - 1]);
    }
  }

  lemma {:induction false} CallLeaves(env: Env, l: Ledger, cause: Cause)
    ensures Clean(Called(env, l, cause).answers) <==> Clean(l.answers) && !BotchesCall(env, l)
  {
    ReleasesLeave(l, env.releases(l.calls));
  }

  lemma {:induction false} FailingLeaves(env: Env, l: Ledger, d: Table, ts: seq<Token>)
    ensures Clean(FailCalls(env, l, d, ts).answers) <==> Clean(l.answers) && !BotchesFailing(env, l, d, ts)
  {
    if ts != [] {
      FailingLeaves(env, l, d, ts[..|ts| - 1]);
      CallLeaves(env, FailCalls(env, l, d, ts[..|ts| - 1]), OnFailed(ts[|ts| - 1]));
    }
  }

  lemma {:induction false} DestroyLeaves(env: Env, c: Core, reason: ExitReason)
    ensures Clean(Destroy(env, c, reason).ledger.answers) <==> Clean(c.ledger.answers) && !BotchesDestroy(env, c)
  {
    FailingLeaves(env, c.ledger, c.books.tab, AllTokens(env, c.books));
  }

  lemma {:induction false} FinishLeaves(env: Env, c: Core, o: Outcome)
    ensures Clean(Finish(env, c, o).ledger.answers) <==> Clean(c.ledger.answers) && !BotchesFinish(env, c, o)
  {
    DestroyLeaves(env, c, Graceful);
    DestroyLeaves(env, c, Crashed);
  }

  lemma {:induction false} CallbackLeaves(env: Env, c: Core)
    ensures Clean(Callback(env, c).ledger.answers) <==> Clean(c.ledger.answers) && !BotchesCallback(env, c)
  {
    CallLeaves(env, c.ledger, Plain);
    FinishLeaves(env, c.(ledger := Called(env, c.ledger, Plain)), env.outcome(c.ledger.calls));
  }

  lemma {:induction false} ActLeaves(env: Env, p: Port, sc: Scene, act: Act)
    ensures Clean(Perform(env, p, sc, act).ledger.answers) <==> Clean(sc.ledger.answers) && !BotchesAct(sc, act)
  {
    if act.OnStash? {
      ReleaseLeaves(sc.ledger, act.release);
    } else if act.AnswerHeld? {
      CleanSnoc(sc.ledger.answers, Answer(p, act.way));
    }
  }

  lemma {:induction false} ActsLeave(env: Env, p: Port, sc: Scene, acts: seq<Act>)
    ensures Clean(PerformAll(env, p, sc, acts).ledger.answers)
       <==> Clean(sc.ledger.answers) && !BotchesActs(env, p, sc, acts)
  {
    if acts != [] {
      ActsLeave(env, p, sc, acts[..|acts| - 1]);
      ActLeaves(env, p, PerformAll(env, p, sc, acts[..|acts| - 1]), acts[|acts| - 1]);
    }
  }

  lemma {:induction false} HandledLeaves(env: Env, c: Core, p: Port)
    ensures Clean(Handled(env, c, p).ledger.answers)
       <==> Clean(c.ledger.answers) && !BotchesActs(env, p, Opening(c.books, c.ledger, p), env.acts(c.ledger.calls))
  {
    var acts := env.acts(c.ledger.calls);
    ActsLeave(env, p, Opening(c.books, c.ledger, p), acts);
    CleanSnoc(PerformAll(env, p, Opening(c.books, c.ledger, p), acts).ledger.answers, Answer(p, Failure));
  }

  lemma {:induction false} RequestLeaves(env: Env, c: Core, p: Port)
    requires env.serves(p.session)
    ensures Clean(Request(env, c, p, Good).ledger.answers) <==> Clean(c.ledger.answers) && !BotchesRequest(env, c, p)
  {
    HandledLeaves(env, c, p);
    FinishLeaves(env, Handled(env, c, p), HandledOutcome(env, c, p));
  }

  lemma {:induction false} ConcludeLeaves(env: Env, c: Core, t: Token, v: Verdict)
    ensures Clean(Conclude(env, c, t, v).ledger.answers) <==> Clean(c.ledger.answers) && !BotchesConclude(env, c, t, v)
  {
    CallLeaves(env, c.ledger, CauseOf(v, t));
    FinishLeaves(env, Concluding(env, c, t, v), env.outcome(c.ledger.calls));
  }

  lemma {:induction false} CloseLeaves(env: Env, c: Core)
    ensures Clean(Close(env, c).ledger.answers) <==> Clean(c.ledger.answers) && !BotchesClose(env, c)
  {
    CallbackLeaves(env, c);
    DestroyLeaves(env, Callback(env, c), Disconnected);
  }

  lemma {:induction false} StepLeaves(env: Env, c: Core, op: Op)
    ensures Clean(Step(env, c, op).ledger.answers) <==> Clean(c.ledger.answers) && !BotchesStep(env, c, op)
  {
    match op
    case Call => CallbackLeaves(env, c);
    case Notice(s, body) =>
      CallbackLeaves(env, c);
      DestroyLeaves(env, c, Crashed);
    case Asked(p, body) =>
      if env.serves(p.session) && body == Good {
        RequestLeaves(env, c, p);
      } else {
        CleanSnoc(c.ledger.answers, Answer(p, Failure));
      }
    case SyncSend(_) =>
    case ReplyTo(t) => ConcludeLeaves(env, c, t, Replied);
    case FailureOf(t) => ConcludeLeaves(env, c, t, Failed);
    case TeardownOf(s) => FailingLeaves(env, c.ledger, c.books.tab, SessionTokens(env, c.books, s));
    case Closed => CloseLeaves(env, c);
    case Broken => DestroyLeaves(env, c, InfraError);
  }

  lemma {:induction false} RunLeaves(env: Env, c: Core, ops: seq<Op>)
    ensures Clean(From(env, c, ops).ledger.answers) <==> Clean(c.ledger.answers) && !BotchesRun(env, c, ops)
  {
    if ops != [] {
      var init := ops[..|ops| - 1];
      RunLeaves(env, c, init);
      if !From(env, c, init).exited {
        StepLeaves(env, From(env, c, init), ops[|ops| - 1]);
      }
    }
  }

  /** Dropping the handler adds failures only. */
  lemma {:induction false} ShutdownLeaves(l: Ledger)
    ensures Clean(Shutdown(l).answers) <==> Clean(l.answers)
  {
    var all := Shutdown(l).answers;
    assert forall i :: 0 <= i < |l.answers| ==> all[i] == l.answers[i];
  }

  // ---- frames ----

  /** The frames offered to the wire: a Reply or a Failed for each use but the botched ones. */
  function Frames(answers: seq<Answer>): seq<Answer> {
    if answers == [] then []
    else
      var before, a := Frames(answers[..|answers| - 1]), answers[|answers| - 1];
      if a.way == Botched then before else before + [a]
  }

  lemma {:induction false} FramesWhole(answers: seq<Answer>)
    ensures |Frames(answers)| <= |answers|
    ensures |Frames(answers)| == |answers| <==> Clean(answers)
    ensures Clean(answers) ==> Frames(answers) == answers
  {
    if answers != [] {
      var init, a := answers[..|answers| - 1], answers[|answers| - 1];
      FramesWhole(init);
      assert answers == init + [a];
      CleanSnoc(init, a);
    }
  }

  /** The frames go to all of the ports used exactly when no use was botched. */
  lemma {:induction false} FramesToAll(answers: seq<Answer>)
    ensures multiset(Ports(Frames(answers))) == multiset(Ports(answers)) <==> Clean(answers)
  {
    FramesWhole(answers);
    assert |multiset(Ports(Frames(answers)))| == |Frames(answers)|;
    assert |multiset(Ports(answers))| == |answers|;
  }

  /**
   Every request handed to the looper has its port used exactly once by shutdown: for unknown sessions, wrong tags, bad
   payloads, ports answered at once, stashed, moved into callbacks or dropped, and panics. Each then has exactly one
   Reply-or-Failed attempt if and only if user code never uses a port with a value that cannot be serialized.
   */
  lemma {:induction false} EveryRequestAnswered(env: Env, cap: nat, ops: seq<Op>)
    ensures var answers := Shutdown(Run(env, cap, ops).ledger).answers;
            var asked := PortsAsked(Performed(env, NewCore(cap), ops));
            && multiset(Ports(answers)) == multiset(asked)
            && (multiset(Ports(Frames(answers))) == multiset(asked) <==> !BotchesRun(env, NewCore(cap), ops))
  {
    var l := Run(env, cap, ops).ledger;
    RunBalanced(env, cap, ops);
    RunHands(env, cap, ops);
    ShutdownAnswers(l);
    RunLeaves(env, NewCore(cap), ops);
    ShutdownLeaves(l);
    FramesToAll(Shutdown(l).answers);
  }

  /**
   The exception is real: a handler that replies with a value that cannot be serialized leaves its request unanswered.
   */
  lemma {:induction false} BotchedReplyUnanswered(env: Env, p: Port)
    requires env.serves(p.session) && env.acts(0) == [AnswerHeld(Botched)] && env.outcome(0) == Continue
    ensures var l := Run(env, 0, [Asked(p, Good)]).ledger;
            l.handed == [p] && l.stash == [] && l.answers == [Answer(p, Botched)] && Frames(l.answers) == []
  {
    assert [Asked(p, Good)][..0] == [];
    assert From(env, NewCore(0), [Asked(p, Good)][..0]) == NewCore(0);
    var start := Opening(NoBooks(0), NO_LEDGER, p);
    assert env.acts(0)[..0] == [];
    assert PerformAll(env, p, start, env.acts(0)[..0]) == start;
    assert Receive(env, NoBooks(0), NO_LEDGER, p).ledger.answers == [] + [Answer(p, Botched)];
    assert [Answer(p, Botched)][..0] == [];
    assert Frames([Answer(p, Botched)][..0]) == [];
  }
}
