/** Which calls into user code a run makes: one for each event, and one for each of the handler's requests resolved. */
module EngineCallbacks {
  import opened Engine
  import opened EngineObligations

  // ---- one step ----

  /** A reply or failure runs the callback of the handler's own entry, and of no other. */
  lemma {:induction false} ConcludeCalls(env: Env, c: Core, t: Token, v: Verdict)
    requires v == Replied || v == Failed
    requires env.outcome(c.ledger.calls) == Continue
    ensures var k := Key(env.peer, t);
            Conclude(env, c, t, v).ledger
            == if k in c.books.tab.entries && c.books.tab.entries[k] == Handler
               then Called(env, c.ledger, if v == Replied then OnReply(t) else OnFailed(t)) else c.ledger
  {
  }

  /** A callback uses the kept ports the environment says, one after the other. */
  lemma {:induction false} CallReleases(env: Env, l: Ledger, cause: Cause, r: Release)
    requires env.releases(|l.trace|) == [r]
    ensures Called(env, l, cause).trace == l.trace + [cause]
    ensures r.index < |l.stash| ==>
              && Called(env, l, cause).stash == l.stash[..r.index] + l.stash[r.index + 1..]
              && Called(env, l, cause).answers == l.answers + [Answer(l.stash[r.index], r.way)]
  {
    assert [r][..0] == [];
    assert LetAll(l, [r][..0]) == l;
  }

  // ---- calls for events ----

  /** The calls that are not for the handler's own requests, in order. */
  function Direct(trace: seq<Cause>): seq<Cause> {
    if trace == [] then []
    else
      var before, cause := Direct(trace[..|trace| - 1]), trace[|trace| - 1];
      if cause.OnReply? || cause.OnFailed? then before else before + [cause]
  }

  lemma {:induction false} DirectSnoc(trace: seq<Cause>, cause: Cause)
    ensures Direct(trace + [cause])
         == if cause.OnReply? || cause.OnFailed? then Direct(trace) else Direct(trace) + [cause]
  {
    assert (trace + [cause])[..|trace|] == trace;
  }

  /** The call an operation makes for its own sake. */
  function CallFor(env: Env, op: Op): seq<Cause> {
    match op
    case Call => [Plain]
    case Closed => [Plain]
    case Notice(s, body) => if env.listens(s) && body == Good then [Plain] else []
    case Asked(p, body) => if env.serves(p.session) && body == Good then [OnRequest(p)] else []
    case _ => []
  }

  function CallsFor(env: Env, ops: seq<Op>): seq<Cause> {
    if ops == [] then [] else CallsFor(env, ops[..|ops| - 1]) + CallFor(env, ops[|ops| - 1])
  }

  lemma {:induction false} LetAllTrace(l: Ledger, rs: seq<Release>)
    ensures LetAll(l, rs).trace == l.trace
  {
    if rs != [] {
      LetAllTrace(l, rs[..|rs| - 1]);
    }
  }

  lemma {:induction false} PerformAllTrace(env: Env, p: Port, sc: Scene, acts: seq<Act>)
    ensures PerformAll(env, p, sc, acts).ledger.trace == sc.ledger.trace
  {
    if acts != [] {
      PerformAllTrace(env, p, sc, acts[..|acts| - 1]);
    }
  }

  lemma {:induction false} FailCallsDirect(env: Env, l: Ledger, d: Table, ts: seq<Token>)
    ensures Direct(FailCalls(env, l, d, ts).trace) == Direct(l.trace)
  {
    if ts != [] {
      FailCallsDirect(env, l, d, ts[..|ts| - 1]);
      DirectSnoc(FailCalls(env, l, d, ts[..|ts| - 1]).trace, OnFailed(ts[|ts| - 1]));
    }
  }

  lemma {:induction false} FinishDirect(env: Env, c: Core, o: Outcome)
    ensures Direct(Finish(env, c, o).ledger.trace) == Direct(c.ledger.trace)
  {
    FailCallsDirect(env, c.ledger, c.books.tab, AllTokens(env, c.books));
  }

  lemma {:induction false} CallbackDirect(env: Env, c: Core)
    ensures Direct(Callback(env, c).ledger.trace) == Direct(c.ledger.trace) + [Plain]
  {
    DirectSnoc(c.ledger.trace, Plain);
    FinishDirect(env, c.(ledger := Called(env, c.ledger, Plain)), env.outcome(c.ledger.calls));
  }

  lemma {:induction false} RequestDirect(env: Env, c: Core, p: Port)
    requires env.serves(p.session)
    ensures Direct(Request(env, c, p, Good).ledger.trace) == Direct(c.ledger.trace) + [OnRequest(p)]
  {
    PerformAllTrace(env, p, Opening(c.books, c.ledger, p), env.acts(c.ledger.calls));
    DirectSnoc(c.ledger.trace, OnRequest(p));
    FinishDirect(env, Handled(env, c, p), HandledOutcome(env, c, p));
  }

  lemma {:induction false} ConcludeDirect(env: Env, c: Core, t: Token, v: Verdict)
    ensures Direct(Conclude(env, c, t, v).ledger.trace) == Direct(c.ledger.trace)
  {
    DirectSnoc(c.ledger.trace, CauseOf(v, t));
    FinishDirect(env, Concluding(env, c, t, v), env.outcome(c.ledger.calls));
  }

  lemma {:induction false} StepDirect(env: Env, c: Core, op: Op)
    ensures Direct(Step(env, c, op).ledger.trace) == Direct(c.ledger.trace) + CallFor(env, op)
  {
    assert Direct(c.ledger.trace) + [] == Direct(c.ledger.trace);
    match op
    case Call => CallbackDirect(env, c);
    case Notice(s, body) =>
      CallbackDirect(env, c);
      FinishDirect(env, c, Panic);
    case Asked(p, body) =>
      if env.serves(p.session) && body == Good {
        RequestDirect(env, c, p);
      }
    case SyncSend(_) =>
    case ReplyTo(t) => ConcludeDirect(env, c, t, Replied);
    case FailureOf(t) => ConcludeDirect(env, c, t, Failed);
    case TeardownOf(s) => FailCallsDirect(env, c.ledger, c.books.tab, SessionTokens(env, c.books, s));
    case Closed =>
      CallbackDirect(env, c);
      FinishDirect(env, Callback(env, c), Stop);
    case Broken => FinishDirect(env, c, Stop);
  }

  /** Over any run user code is called once for each event that concerns it, in order. */
  lemma {:induction false} EventsCalled(env: Env, cap: nat, ops: seq<Op>)
    ensures Direct(Run(env, cap, ops).ledger.trace) == CallsFor(env, Performed(env, NewCore(cap), ops))
  {
    if ops != [] {
      var init, op := ops[..|ops| - 1], ops[|ops| - 1];
      EventsCalled(env, cap, init);
      if !Run(env, cap, init).exited {
        StepDirect(env, Run(env, cap, init), op);
        var done := Performed(env, NewCore(cap), init);
        assert (done + [op])[..|done|] == done;
      }
    }
  }

  // ---- calls for the handler's own requests ----

  function Count(trace: seq<Cause>, cause: Cause): nat {
    if trace == [] then 0
    else Count(trace[..|trace| - 1], cause) + if trace[|trace| - 1] == cause then 1 else 0
  }

  lemma {:induction false} CountSnoc(trace: seq<Cause>, last: Cause, cause: Cause)
    ensures Count(trace + [last], cause) == Count(trace, cause) + if last == cause then 1 else 0
  {
    assert (trace + [last])[..|trace|] == trace;
  }

  /** The token a running handler's act is given for a request with a callback. */
  function IssuedByAct(sc: Scene, act: Act): set<Token> {
    if sc.ok && (act.Send? || act.TrySend?) && !sc.books.cor.WouldExceed() then {sc.books.cor.next} else {}
  }

  function IssuedByActs(env: Env, p: Port, sc: Scene, acts: seq<Act>): set<Token> {
    if acts == [] then {}
    else
      var init := acts[..|acts| - 1];
      IssuedByActs(env, p, sc, init) + IssuedByAct(PerformAll(env, p, sc, init), acts[|acts| - 1])
  }

  function IssuedByStep(env: Env, c: Core, op: Op): set<Token> {
    if op.Asked? && env.serves(op.port.session) && op.body == Good
    then IssuedByActs(env, op.port, Opening(c.books, c.ledger, op.port), env.acts(c.ledger.calls)) else {}
  }

  /** The tokens of the requests handlers sent in a run, with a callback for each. */
  function IssuedIn(env: Env, c: Core, ops: seq<Op>): set<Token> {
    if ops == [] then {}
    else
      var init := ops[..|ops| - 1];
      var before := From(env, c, init);
      IssuedIn(env, c, init) + if before.exited then {} else IssuedByStep(env, before, ops[|ops| - 1])
  }

  /** How often the callback of a token has run. */
  ghost predicate CalledBack(d: Table, k: Key, trace: seq<Cause>, mine: set<Token>) {
    && Count(trace, OnReply(k.token)) == (if k.token in mine && Note(k, Replied) in d.log then 1 else 0)
    && Count(trace, OnFailed(k.token)) == (if k.token in mine && Note(k, Failed) in d.log then 1 else 0)
  }

  /** An entry is the handler's exactly if a handler sent its request, and no entry has been called back. */
  ghost predicate Traced(d: Table, k: Key, trace: seq<Cause>, next: Token, mine: set<Token>) {
    && !(k in d.entries && k in d.asyncs)
    && (k in d.entries ==> (d.entries[k] == Handler <==> k.token in mine))
    && (k in d.asyncs ==> k.token !in mine)
    && (k.token >= next ==> !Has(d, k) && k.token !in mine)
    && (Has(d, k) || k.token >= next ==> Note(k, Replied) !in d.log && Note(k, Failed) !in d.log)
    && CalledBack(d, k, trace, mine)
  }

  lemma {:induction false} InstallTraced(d: Table, key: Key, o: Origin, k: Key, trace: seq<Cause>, mine: set<Token>)
    requires Traced(d, k, trace, key.token, mine) && k.peer == key.peer
    ensures Traced(Insert(d, key, o), k, trace, key.token + 1, mine + if o == Handler then {key.token} else {})
  {
  }

  lemma {:induction false} AsyncTraced(d: Table, key: Key, k: Key, trace: seq<Cause>, mine: set<Token>)
    requires Traced(d, k, trace, key.token, mine) && k.peer == key.peer
    ensures Traced(InsertAsync(d, key), k, trace, key.token + 1, mine)
  {
  }

  /** Resolving an entry, with the call that goes with it. */
  lemma {:induction false} ResolveTraced(
    d: Table, key: Key, v: Verdict, k: Key, trace: seq<Cause>, next: Token, mine: set<Token>)
    requires Traced(d, k, trace, next, mine) && k.peer == key.peer
    ensures var after := if CallsHandler(d, key) && v != RolledBack then trace + [CauseOf(v, key.token)] else trace;
            Traced(Resolve(d, key, v), k, after, next, mine)
  {
    CountSnoc(trace, CauseOf(v, key.token), OnReply(k.token));
    CountSnoc(trace, CauseOf(v, key.token), OnFailed(k.token));
    if key == k {
      assert key.token == k.token;
    } else {
      assert key.token != k.token;
    }
  }

  lemma {:induction false} FailAllTraced(
    env: Env, l: Ledger, d: Table, ts: seq<Token>, k: Key, next: Token, mine: set<Token>)
    requires Traced(d, k, l.trace, next, mine) && k.peer == env.peer
    ensures Traced(FailAll(d, env.peer, ts), k, FailCalls(env, l, d, ts).trace, next, mine)
  {
    if ts != [] {
      var init, last := ts[..|ts| - 1], ts[|ts| - 1];
      FailAllTraced(env, l, d, init, k, next, mine);
      ResolveTraced(FailAll(d, env.peer, init), Key(env.peer, last), Failed, k,
                    FailCalls(env, l, d, init).trace, next, mine);
    }
  }

  /** The table of a core and its calls agree on a token. */
  ghost predicate CoreTraced(env: Env, c: Core, t: Token, mine: set<Token>) {
    Traced(c.books.tab, Key(env.peer, t), c.ledger.trace, c.books.cor.next, mine)
  }

  lemma {:induction false} FinishTraced(env: Env, c: Core, o: Outcome, t: Token, mine: set<Token>)
    requires CoreTraced(env, c, t, mine)
    ensures CoreTraced(env, Finish(env, c, o), t, mine)
  {
    FailAllTraced(env, c.ledger, c.books.tab, AllTokens(env, c.books), Key(env.peer, t), c.books.cor.next, mine);
  }

  /** A call for an event calls nothing back. */
  lemma {:induction false} DirectTraced(
    d: Table, k: Key, trace: seq<Cause>, cause: Cause, next: Token, mine: set<Token>)
    requires Traced(d, k, trace, next, mine) && (cause.Plain? || cause.OnRequest?)
    ensures Traced(d, k, trace + [cause], next, mine)
  {
    CountSnoc(trace, cause, OnReply(k.token));
    CountSnoc(trace, cause, OnFailed(k.token));
  }

  lemma {:induction false} CallbackTraced(env: Env, c: Core, t: Token, mine: set<Token>)
    requires CoreTraced(env, c, t, mine)
    ensures CoreTraced(env, Callback(env, c), t, mine)
  {
    DirectTraced(c.books.tab, Key(env.peer, t), c.ledger.trace, Plain, c.books.cor.next, mine);
    FinishTraced(env, c.(ledger := Called(env, c.ledger, Plain)), env.outcome(c.ledger.calls), t, mine);
  }

  lemma {:induction false} SendTraced(
    env: Env, b: Books, s: Session, o: Origin, k: Key, trace: seq<Cause>, mine: set<Token>)
    requires Traced(b.tab, k, trace, b.cor.next, mine) && k.peer == env.peer
    ensures var r := SendRequest(env, b, s, o);
            Traced(r.tab, k, trace, r.cor.next, mine + if o == Handler then {b.cor.next} else {})
  {
    var key := Key(env.peer, b.cor.next);
    var issued := mine + if o == Handler then {b.cor.next} else {};
    InstallTraced(b.tab, key, o, k, trace, mine);
    ResolveTraced(Insert(b.tab, key, o), key, RolledBack, k, trace, b.cor.next + 1, issued);
  }

  lemma {:induction false} ActTraced(
    env: Env, p: Port, sc: Scene, act: Act, k: Key, trace: seq<Cause>, mine: set<Token>)
    requires Traced(sc.books.tab, k, trace, sc.books.cor.next, mine) && k.peer == env.peer
    ensures var r := Perform(env, p, sc, act).books;
            Traced(r.tab, k, trace, r.cor.next, mine + IssuedByAct(sc, act))
  {
    assert mine + {} == mine;
    if act.Send? || act.TrySend? {
      SendTraced(env, sc.books, act.session, Handler, k, trace, mine);
    } else if act.Await? {
      AsyncTraced(sc.books.tab, Key(env.peer, sc.books.cor.next), k, trace, mine);
    }
  }

  lemma {:induction false} ActsTraced(
    env: Env, p: Port, sc: Scene, acts: seq<Act>, k: Key, trace: seq<Cause>, mine: set<Token>)
    requires Traced(sc.books.tab, k, trace, sc.books.cor.next, mine) && k.peer == env.peer
    ensures var r := PerformAll(env, p, sc, acts).books;
            Traced(r.tab, k, trace, r.cor.next, mine + IssuedByActs(env, p, sc, acts))
  {
    if acts == [] {
      assert mine + {} == mine;
    } else {
      var init, act := acts[..|acts| - 1], acts[|acts| - 1];
      ActsTraced(env, p, sc, init, k, trace, mine);
      var before, issued := PerformAll(env, p, sc, init), IssuedByActs(env, p, sc, init);
      ActTraced(env, p, before, act, k, trace, mine + issued);
      assert mine + issued + IssuedByAct(before, act) == mine + (issued + IssuedByAct(before, act));
    }
  }

  lemma {:induction false} RequestTraced(env: Env, c: Core, p: Port, body: Body, t: Token, mine: set<Token>)
    requires CoreTraced(env, c, t, mine)
    ensures CoreTraced(env, Request(env, c, p, body), t, mine + IssuedByStep(env, c, Asked(p, body)))
  {
    if env.serves(p.session) && body == Good {
      var start, acts, k := Opening(c.books, c.ledger, p), env.acts(c.ledger.calls), Key(env.peer, t);
      DirectTraced(c.books.tab, k, c.ledger.trace, OnRequest(p), c.books.cor.next, mine);
      ActsTraced(env, p, start, acts, k, start.ledger.trace, mine);
      PerformAllTrace(env, p, start, acts);
      FinishTraced(env, Handled(env, c, p), HandledOutcome(env, c, p), t, mine + IssuedByActs(env, p, start, acts));
    } else {
      assert mine + {} == mine;
    }
  }

  lemma {:induction false} ConcludeTraced(env: Env, c: Core, r: Token, v: Verdict, t: Token, mine: set<Token>)
    requires CoreTraced(env, c, t, mine) && v != RolledBack
    ensures CoreTraced(env, Conclude(env, c, r, v), t, mine)
  {
    ResolveTraced(c.books.tab, Key(env.peer, r), v, Key(env.peer, t), c.ledger.trace, c.books.cor.next, mine);
    if CallsHandler(c.books.tab, Key(env.peer, r)) {
      FinishTraced(env, Concluding(env, c, r, v), env.outcome(c.ledger.calls), t, mine);
    }
  }

  lemma {:induction false} TeardownTraced(env: Env, c: Core, s: Session, t: Token, mine: set<Token>)
    requires CoreTraced(env, c, t, mine)
    ensures CoreTraced(env, Teardown(env, c, s), t, mine)
  {
    var ts := SessionTokens(env, c.books, s);
    FailAllTraced(env, c.ledger, c.books.tab, ts, Key(env.peer, t), c.books.cor.next, mine);
    SettleAllNext(c.books.cor, ts);
  }

  lemma {:induction false} SettleAllNext(c: Correlator, ts: seq<Token>)
    ensures SettleAll(c, ts).next == c.next
  {
    if ts != [] {
      SettleAllNext(c, ts[..|ts| - 1]);
    }
  }

  lemma {:induction false} CloseTraced(env: Env, c: Core, t: Token, mine: set<Token>)
    requires CoreTraced(env, c, t, mine)
    ensures CoreTraced(env, Close(env, c), t, mine)
  {
    CallbackTraced(env, c, t, mine);
    FinishTraced(env, Callback(env, c), Stop, t, mine);
  }

  lemma {:induction false} StepTraced(env: Env, c: Core, op: Op, t: Token, mine: set<Token>)
    requires CoreTraced(env, c, t, mine)
    ensures CoreTraced(env, Step(env, c, op), t, mine + IssuedByStep(env, c, op))
  {
    assert mine + {} == mine;
    match op
    case Call => CallbackTraced(env, c, t, mine);
    case Notice(s, body) =>
      CallbackTraced(env, c, t, mine);
      FinishTraced(env, c, Panic, t, mine);
    case Asked(p, body) => RequestTraced(env, c, p, body, t, mine);
    case SyncSend(s) => SendTraced(env, c.books, s, Sync, Key(env.peer, t), c.ledger.trace, mine);
    case ReplyTo(r) => ConcludeTraced(env, c, r, Replied, t, mine);
    case FailureOf(r) => ConcludeTraced(env, c, r, Failed, t, mine);
    case TeardownOf(s) => TeardownTraced(env, c, s, t, mine);
    case Closed => CloseTraced(env, c, t, mine);
    case Broken => FinishTraced(env, c, Stop, t, mine);
  }

  lemma {:induction false} FromTraced(env: Env, cap: nat, ops: seq<Op>, t: Token)
    ensures CoreTraced(env, Run(env, cap, ops), t, IssuedIn(env, NewCore(cap), ops))
  {
    if ops != [] {
      var init := ops[..|ops| - 1];
      FromTraced(env, cap, init, t);
      var before, mine := Run(env, cap, init), IssuedIn(env, NewCore(cap), init);
      if before.exited {
        assert mine + {} == mine;
      } else {
        StepTraced(env, before, ops[|ops| - 1], t, mine);
      }
    }
  }

  /**
   The callbacks. Over any run, cascades and destruction included, the reply callback of a token runs exactly once if a
   handler sent its request and it was replied to, the failure callback exactly once if it failed, and neither runs
   otherwise: not for a request rolled back or pending, and not for one sent by a thread or awaited.
   */
  lemma {:induction false} CallbacksExact(env: Env, cap: nat, ops: seq<Op>, t: Token)
    ensures var c, k := Run(env, cap, ops), Key(env.peer, t);
            var mine := t in IssuedIn(env, NewCore(cap), ops);
            && Count(c.ledger.trace, OnReply(t)) == (if mine && Note(k, Replied) in c.books.tab.log then 1 else 0)
            && Count(c.ledger.trace, OnFailed(t)) == (if mine && Note(k, Failed) in c.books.tab.log then 1 else 0)
  {
    FromTraced(env, cap, ops, t);
  }

  // ---- when an operation ends the looper, and why ----

  /** What user code makes of an operation. */
  function Answered(env: Env, c: Core, op: Op): Outcome {
    match op
    case Call => env.outcome(|c.ledger.trace|)
    case Notice(s, body) =>
      if !env.listens(s) || body == WrongTag then Continue
      else if body == Malformed then Panic else env.outcome(|c.ledger.trace|)
    case Asked(p, body) =>
      if !env.serves(p.session) || body != Good then Continue
      else if Panics(env, p, Opening(c.books, c.ledger, p), env.acts(|c.ledger.trace|)) then Panic
      else env.outcome(|c.ledger.trace|)
    case ReplyTo(t) => if Mine(env, c, t) then env.outcome(|c.ledger.trace|) else Continue
    case FailureOf(t) => if Mine(env, c, t) then env.outcome(|c.ledger.trace|) else Continue
    case _ => Continue
  }

  predicate Mine(env: Env, c: Core, t: Token) {
    var k := Key(env.peer, t);
    k in c.books.tab.entries && c.books.tab.entries[k] == Handler
  }

  /** An act of a running handler panics, and user code does not catch it. */
  predicate PanicsAt(env: Env, sc: Scene, act: Act) {
    match act
    case Send(_, caught) =>
      !caught && (sc.books.cor.WouldExceed() || env.wire(sc.books.attempts) == Unserializable)
    case TrySend(_, caught) =>
      !caught && !sc.books.cor.WouldExceed() && env.wire(sc.books.attempts) == Unserializable
    case _ => false
  }

  predicate Panics(env: Env, p: Port, sc: Scene, acts: seq<Act>) {
    acts != []
    && (Panics(env, p, sc, acts[..|acts| - 1])
        || PanicsAt(env, PerformAll(env, p, sc, acts[..|acts| - 1]), acts[|acts| - 1]))
  }

  lemma {:induction false} PanicsExactly(env: Env, p: Port, sc: Scene, acts: seq<Act>)
    requires sc.ok
    ensures PerformAll(env, p, sc, acts).ok <==> !Panics(env, p, sc, acts)
  {
    if acts != [] {
      PanicsExactly(env, p, sc, acts[..|acts| - 1]);
    }
  }

  /**
   What an operation does to the looper. Unless it is the end of the channel or of the event loop, it ends the looper
   exactly when user code stops or panics in it, and the server is told Graceful for the one and Crashed for the other.
   */
  lemma {:induction false} StepEnds(env: Env, c: Core, op: Op)
    requires !c.exited && op != Closed && op != Broken
    ensures var r := Step(env, c, op);
            match Answered(env, c, op)
            case Continue => !r.exited && r.exits == c.exits && r.result == c.result
            case Stop => r.exited && r.exits == c.exits + [Graceful] && r.result == Exit(Graceful)
            case Panic => r.exited && r.exits == c.exits + [Crashed] && r.result == Exit(Crashed)
  {
    if op.Asked? && env.serves(op.port.session) && op.body == Good {
      PanicsExactly(env, op.port, Opening(c.books, c.ledger, op.port), env.acts(c.ledger.calls));
    }
  }

  /** The end of the channel always ends the looper, and so does a failed poll. */
  lemma {:induction false} ClosingEnds(env: Env, c: Core)
    requires !c.exited
    ensures Step(env, c, Broken).exited && Step(env, c, Broken).exits == c.exits + [InfraError]
    ensures var r := Step(env, c, Closed);
            r.exited
            && match env.outcome(|c.ledger.trace|)
               case Continue => r.exits == c.exits + [Disconnected] && r.result == Exit(Disconnected)
               case Stop => r.exits == c.exits + [Graceful, Disconnected] && r.result == Exit(Disconnected)
               case Panic => r.exits == c.exits + [Crashed] && r.result == Exit(Crashed)
  {
    assert c.exits + [Graceful] + [Disconnected] == c.exits + [Graceful, Disconnected];
  }
}
