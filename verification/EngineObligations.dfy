/** Every port handed to user code is used exactly once, and the server is told why a looper ended. */
module EngineObligations {
  import opened Engine

  function Ports(answers: seq<Answer>): seq<Port> {
    seq(|answers|, i requires 0 <= i < |answers| => answers[i].port)
  }

  lemma {:induction false} PortsSnoc(answers: seq<Answer>, a: Answer)
    ensures multiset(Ports(answers + [a])) == multiset(Ports(answers)) + multiset{a.port}
  {
    assert Ports(answers + [a]) == Ports(answers) + [a.port];
  }

  lemma {:induction false} Without(stash: seq<Port>, i: nat)
    requires i < |stash|
    ensures multiset(stash) == multiset(stash[..i] + stash[i + 1..]) + multiset{stash[i]}
  {
    assert stash == stash[..i] + [stash[i]] + stash[i + 1..];
  }

  /** Each port handed out was answered, is kept, or is in the hands of the running request handler. */
  ghost predicate Balanced(l: Ledger, inHand: multiset<Port>) {
    multiset(l.handed) == multiset(Ports(l.answers)) + multiset(l.stash) + inHand
  }

  // ---- which ports are handed out ----

  lemma {:induction false} LetAllHands(l: Ledger, rs: seq<Release>)
    ensures LetAll(l, rs).handed == l.handed
  {
    if rs != [] {
      LetAllHands(l, rs[..|rs| - 1]);
    }
  }

  lemma {:induction false} CalledHands(env: Env, l: Ledger, cause: Cause)
    ensures Called(env, l, cause).handed == l.handed
  {
    LetAllHands(l, env.releases(l.calls));
  }

  lemma {:induction false} FailCallsHand(env: Env, l: Ledger, d: Table, ts: seq<Token>)
    ensures FailCalls(env, l, d, ts).handed == l.handed
  {
    if ts != [] {
      FailCallsHand(env, l, d, ts[..|ts| - 1]);
      CalledHands(env, FailCalls(env, l, d, ts[..|ts| - 1]), OnFailed(ts[|ts| - 1]));
    }
  }

  lemma {:induction false} FinishHands(env: Env, c: Core, o: Outcome)
    ensures Finish(env, c, o).ledger.handed == c.ledger.handed
  {
    FailCallsHand(env, c.ledger, c.books.tab, AllTokens(env, c.books));
  }

  lemma {:induction false} CallbackHands(env: Env, c: Core)
    ensures Callback(env, c).ledger.handed == c.ledger.handed
  {
    CalledHands(env, c.ledger, Plain);
    FinishHands(env, c.(ledger := Called(env, c.ledger, Plain)), env.outcome(c.ledger.calls));
  }

  lemma {:induction false} ConcludeHands(env: Env, c: Core, t: Token, v: Verdict)
    ensures Conclude(env, c, t, v).ledger.handed == c.ledger.handed
  {
    CalledHands(env, c.ledger, CauseOf(v, t));
    FinishHands(env, Concluding(env, c, t, v), env.outcome(c.ledger.calls));
  }

  lemma {:induction false} PerformAllHands(env: Env, p: Port, sc: Scene, acts: seq<Act>)
    ensures PerformAll(env, p, sc, acts).ledger.handed == sc.ledger.handed
  {
    if acts != [] {
      PerformAllHands(env, p, sc, acts[..|acts| - 1]);
    }
  }

  lemma {:induction false} RequestHands(env: Env, c: Core, p: Port, body: Body)
    ensures Request(env, c, p, body).ledger.handed == c.ledger.handed + [p]
  {
    if env.serves(p.session) && body == Good {
      var start := Opening(c.books, c.ledger, p);
      PerformAllHands(env, p, start, env.acts(c.ledger.calls));
      FinishHands(env, Handled(env, c, p), HandledOutcome(env, c, p));
    }
  }

  /** A port is handed out for each request, and for nothing else. */
  lemma {:induction false} StepHands(env: Env, c: Core, op: Op)
    ensures Step(env, c, op).ledger.handed == if op.Asked? then c.ledger.handed + [op.port] else c.ledger.handed
  {
    match op
    case Call => CallbackHands(env, c);
    case Notice(s, body) =>
      CallbackHands(env, c);
      FinishHands(env, c, Panic);
    case Asked(p, body) => RequestHands(env, c, p, body);
    case SyncSend(s) =>
    case ReplyTo(t) => ConcludeHands(env, c, t, Replied);
    case FailureOf(t) => ConcludeHands(env, c, t, Failed);
    case TeardownOf(s) => FailCallsHand(env, c.ledger, c.books.tab, SessionTokens(env, c.books, s));
    case Closed =>
      CallbackHands(env, c);
      FinishHands(env, Callback(env, c), Stop);
    case Broken => FinishHands(env, c, Stop);
  }

  // ---- the balance ----

  /** A kept port that is used leaves the stash for the answers. */
  lemma {:induction false} LetBalanced(l: Ledger, r: Release, inHand: multiset<Port>)
    requires Balanced(l, inHand)
    ensures Balanced(Let(l, r), inHand)
  {
    if r.index < |l.stash| {
      Without(l.stash, r.index);
      PortsSnoc(l.answers, Answer(l.stash[r.index], r.way));
    }
  }

  lemma {:induction false} LetAllBalanced(l: Ledger, rs: seq<Release>, inHand: multiset<Port>)
    requires Balanced(l, inHand)
    ensures Balanced(LetAll(l, rs), inHand)
  {
    if rs != [] {
      LetAllBalanced(l, rs[..|rs| - 1], inHand);
      LetBalanced(LetAll(l, rs[..|rs| - 1]), rs[|rs| - 1], inHand);
    }
  }

  /** No request handler is running, and the ports add up. */
  ghost predicate Idle(l: Ledger) {
    Balanced(l, multiset{})
  }

  lemma {:induction false} CalledBalanced(env: Env, l: Ledger, cause: Cause)
    requires Idle(l)
    ensures Idle(Called(env, l, cause))
  {
    LetAllBalanced(l, env.releases(l.calls), multiset{});
  }

  lemma {:induction false} FailCallsBalanced(env: Env, l: Ledger, d: Table, ts: seq<Token>)
    requires Idle(l)
    ensures Idle(FailCalls(env, l, d, ts))
  {
    if ts != [] {
      FailCallsBalanced(env, l, d, ts[..|ts| - 1]);
      CalledBalanced(env, FailCalls(env, l, d, ts[..|ts| - 1]), OnFailed(ts[|ts| - 1]));
    }
  }

  lemma {:induction false} FinishBalanced(env: Env, c: Core, o: Outcome)
    requires Idle(c.ledger)
    ensures Idle(Finish(env, c, o).ledger)
  {
    FailCallsBalanced(env, c.ledger, c.books.tab, AllTokens(env, c.books));
  }

  lemma {:induction false} CallbackBalanced(env: Env, c: Core)
    requires Idle(c.ledger)
    ensures Idle(Callback(env, c).ledger)
  {
    CalledBalanced(env, c.ledger, Plain);
    FinishBalanced(env, c.(ledger := Called(env, c.ledger, Plain)), env.outcome(c.ledger.calls));
  }

  lemma {:induction false} NotifyBalanced(env: Env, c: Core, s: Session, body: Body)
    requires Idle(c.ledger)
    ensures Idle(Notify(env, c, s, body).ledger)
  {
    CallbackBalanced(env, c);
    FinishBalanced(env, c, Panic);
  }

  lemma {:induction false} CloseBalanced(env: Env, c: Core)
    requires Idle(c.ledger)
    ensures Idle(Close(env, c).ledger)
  {
    CallbackBalanced(env, c);
    FinishBalanced(env, Callback(env, c), Stop);
  }

  lemma {:induction false} ConcludeBalanced(env: Env, c: Core, t: Token, v: Verdict)
    requires Idle(c.ledger)
    ensures Idle(Conclude(env, c, t, v).ledger)
  {
    CalledBalanced(env, c.ledger, CauseOf(v, t));
    FinishBalanced(env, Concluding(env, c, t, v), env.outcome(c.ledger.calls));
  }

  // ---- a request handler ----

  ghost function InHand(p: Port, held: bool): multiset<Port> {
    if held then multiset{p} else multiset{}
  }

  lemma {:induction false} HoldBalanced(l: Ledger, p: Port, act: Act)
    requires Balanced(l, multiset{p}) && (act.AnswerHeld? || act.StashHeld?)
    ensures Idle(Hold(l, p, act))
  {
    if act.AnswerHeld? {
      PortsSnoc(l.answers, Answer(p, act.way));
    } else {
      assert multiset(l.stash + [p]) == multiset(l.stash) + multiset{p};
    }
  }

  lemma {:induction false} PerformBalanced(env: Env, p: Port, sc: Scene, act: Act)
    requires Balanced(sc.ledger, InHand(p, sc.held))
    ensures Balanced(Perform(env, p, sc, act).ledger, InHand(p, Perform(env, p, sc, act).held))
  {
    if act.OnStash? {
      LetBalanced(sc.ledger, act.release, InHand(p, sc.held));
    } else if (act.AnswerHeld? || act.StashHeld?) && sc.held {
      HoldBalanced(sc.ledger, p, act);
    }
  }

  lemma {:induction false} PerformAllBalanced(env: Env, p: Port, sc: Scene, acts: seq<Act>)
    requires Balanced(sc.ledger, InHand(p, sc.held))
    ensures Balanced(PerformAll(env, p, sc, acts).ledger, InHand(p, PerformAll(env, p, sc, acts).held))
  {
    if acts != [] {
      PerformAllBalanced(env, p, sc, acts[..|acts| - 1]);
      PerformBalanced(env, p, PerformAll(env, p, sc, acts[..|acts| - 1]), acts[|acts| - 1]);
    }
  }

  lemma {:induction false} LeaveBalanced(p: Port, sc: Scene)
    requires Balanced(sc.ledger, InHand(p, sc.held))
    ensures Idle(Leave(p, sc).ledger)
  {
    PortsSnoc(sc.ledger.answers, Answer(p, Failure));
  }

  lemma {:induction false} ReceiveBalanced(env: Env, b: Books, l: Ledger, p: Port)
    requires Idle(l)
    ensures Idle(Receive(env, b, l, p).ledger)
  {
    var start := Opening(b, l, p);
    assert multiset(l.handed + [p]) == multiset(l.handed) + multiset{p};
    PerformAllBalanced(env, p, start, env.acts(l.calls));
    LeaveBalanced(p, PerformAll(env, p, start, env.acts(l.calls)));
  }

  lemma {:induction false} RefuseBalanced(l: Ledger, p: Port)
    requires Idle(l)
    ensures Idle(Refuse(l, p))
  {
    assert multiset(l.handed + [p]) == multiset(l.handed) + multiset{p};
    PortsSnoc(l.answers, Answer(p, Failure));
  }

  /** Dispatching a request hands out one port, and the ports still add up. */
  lemma {:induction false} RequestBalanced(env: Env, c: Core, p: Port, body: Body)
    requires Idle(c.ledger)
    ensures Idle(Request(env, c, p, body).ledger) && Request(env, c, p, body).ledger.handed == c.ledger.handed + [p]
  {
    RequestHands(env, c, p, body);
    if !env.serves(p.session) || body != Good {
      RefuseBalanced(c.ledger, p);
    } else {
      ReceiveBalanced(env, c.books, c.ledger, p);
      FinishBalanced(env, Handled(env, c, p), HandledOutcome(env, c, p));
    }
  }

  lemma {:induction false} StaysHeld(env: Env, p: Port, sc: Scene, acts: seq<Act>)
    requires sc.held && forall i :: 0 <= i < |acts| ==> !acts[i].AnswerHeld? && !acts[i].StashHeld?
    ensures PerformAll(env, p, sc, acts).held
  {
    if acts != [] {
      StaysHeld(env, p, sc, acts[..|acts| - 1]);
    }
  }

  /** A port the handler neither answers nor keeps is answered with a failure as the handler returns or unwinds. */
  lemma {:induction false} NeglectedPortFails(env: Env, b: Books, l: Ledger, p: Port)
    requires forall i :: 0 <= i < |env.acts(l.calls)| ==>
               !env.acts(l.calls)[i].AnswerHeld? && !env.acts(l.calls)[i].StashHeld?
    ensures var answers := Receive(env, b, l, p).ledger.answers;
            answers != [] && answers[|answers| - 1] == Answer(p, Failure)
  {
    var start := Opening(b, l, p);
    StaysHeld(env, p, start, env.acts(l.calls));
  }

  // ---- whole runs ----

  function PortsAsked(ops: seq<Op>): seq<Port> {
    if ops == [] then []
    else
      var before, op := PortsAsked(ops[..|ops| - 1]), ops[|ops| - 1];
      if op.Asked? then before + [op.port] else before
  }

  /** The operations of a run that took place, that is up to the one that ended it. */
  function Performed(env: Env, c: Core, ops: seq<Op>): seq<Op> {
    if ops == [] then []
    else
      var init := ops[..|ops| - 1];
      if From(env, c, init).exited then Performed(env, c, init) else Performed(env, c, init) + [ops[|ops| - 1]]
  }

  lemma {:induction false} StepBalanced(env: Env, c: Core, op: Op)
    requires Idle(c.ledger)
    ensures Idle(Step(env, c, op).ledger)
  {
    match op
    case Call => CallbackBalanced(env, c);
    case Notice(s, body) => NotifyBalanced(env, c, s, body);
    case Asked(p, body) => RequestBalanced(env, c, p, body);
    case SyncSend(s) =>
    case ReplyTo(t) => ConcludeBalanced(env, c, t, Replied);
    case FailureOf(t) => ConcludeBalanced(env, c, t, Failed);
    case TeardownOf(s) => FailCallsBalanced(env, c.ledger, c.books.tab, SessionTokens(env, c.books, s));
    case Closed => CloseBalanced(env, c);
    case Broken => FinishBalanced(env, c, Stop);
  }

  lemma {:induction false} RunBalanced(env: Env, cap: nat, ops: seq<Op>)
    ensures Idle(Run(env, cap, ops).ledger)
  {
    if ops != [] {
      RunBalanced(env, cap, ops[..|ops| - 1]);
      if !Run(env, cap, ops[..|ops| - 1]).exited {
        StepBalanced(env, Run(env, cap, ops[..|ops| - 1]), ops[|ops| - 1]);
      }
    }
  }

  lemma {:induction false} RunHands(env: Env, cap: nat, ops: seq<Op>)
    ensures Run(env, cap, ops).ledger.handed == PortsAsked(Performed(env, NewCore(cap), ops))
  {
    if ops != [] {
      var init, op := ops[..|ops| - 1], ops[|ops| - 1];
      RunHands(env, cap, init);
      if !Run(env, cap, init).exited {
        StepHands(env, Run(env, cap, init), op);
        var done := Performed(env, NewCore(cap), init);
        assert (done + [op])[..|done|] == done;
      }
    }
  }

  lemma {:induction false} ShutdownAnswers(l: Ledger)
    ensures multiset(Ports(Shutdown(l).answers)) == multiset(Ports(l.answers)) + multiset(l.stash)
  {
    assert Ports(Shutdown(l).answers) == Ports(l.answers) + l.stash;
  }

  // ---- why the looper ended ----

  /** One reason is reported, except that a handler which stops on connection loss is reported twice. */
  ghost predicate ExitKnown(c: Core) {
    if !c.exited then c.exits == [] && c.result == Running
    else c.result.Exit?
         && (c.exits == [c.result.reason]
             || (c.exits == [Graceful, Disconnected] && c.result.reason == Disconnected))
  }

  lemma {:induction false} StepExit(env: Env, c: Core, op: Op)
    requires ExitKnown(c) && !c.exited
    ensures ExitKnown(Step(env, c, op))
    ensures |Step(env, c, op).exits| == 2 <==> op == Closed && env.outcome(c.ledger.calls) == Stop
    ensures op == Closed || op == Broken ==> Step(env, c, op).exited
  {
    assert [] + [Graceful] == [Graceful];
  }

  lemma {:induction false} ExitReported(env: Env, cap: nat, ops: seq<Op>)
    ensures ExitKnown(Run(env, cap, ops))
    ensures Closed in ops || Broken in ops ==> Run(env, cap, ops).exited
  {
    if ops != [] {
      var init, op := ops[..|ops| - 1], ops[|ops| - 1];
      ExitReported(env, cap, init);
      assert ops == init + [op];
      if !Run(env, cap, init).exited {
        StepExit(env, Run(env, cap, init), op);
      }
    }
  }

  /** Two reasons for one end: the channel closes and the handler stops. */
  lemma {:induction false} TwoReasonsReported(env: Env, cap: nat)
    requires env.outcome(0) == Stop
    ensures Run(env, cap, [Closed]).exits == [Graceful, Disconnected]
  {
    assert [Closed][..0] == [];
    assert From(env, NewCore(cap), [Closed][..0]) == NewCore(cap);
    StepExit(env, NewCore(cap), Closed);
  }
}
