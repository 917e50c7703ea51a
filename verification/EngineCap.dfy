/** Exactly when the outstanding requests pass the cap. */
module EngineCap {
  import opened Engine

  // ---- one step ----

  /** A synchronous request passes the cap exactly when the cap was reached and its frame is not refused. */
  lemma {:induction false} SyncPassesCap(env: Env, b: Books, s: Session)
    requires b.cor.cap > 0 && b.cor.outstanding <= b.cor.cap
    ensures SendRequest(env, b, s, Sync).cor.outstanding > b.cor.cap
       <==> b.cor.WouldExceed() && env.wire(b.attempts) != Refused
  {
  }

  /** An act of a running handler that skips the check. */
  predicate SkipsCheck(sc: Scene, act: Act) {
    sc.ok && act.Await? && sc.books.cor.WouldExceed()
  }

  lemma {:induction false} ActPassesCap(env: Env, p: Port, sc: Scene, act: Act)
    requires sc.books.cor.cap > 0 && sc.books.cor.outstanding <= sc.books.cor.cap
    ensures Perform(env, p, sc, act).books.cor.outstanding > sc.books.cor.cap <==> SkipsCheck(sc, act)
  {
  }

  /** Nothing a handler does lowers the count. */
  lemma {:induction false} PerformRaises(env: Env, p: Port, sc: Scene, act: Act)
    ensures Perform(env, p, sc, act).books.cor.outstanding >= sc.books.cor.outstanding
    ensures Perform(env, p, sc, act).books.cor.cap == sc.books.cor.cap
  {
  }

  // ---- one request handler ----

  /** Some act of the handler skips the check, in the state the acts before it have led to. */
  predicate Skipping(env: Env, p: Port, sc: Scene, acts: seq<Act>) {
    acts != []
    && (Skipping(env, p, sc, acts[..|acts| - 1])
        || SkipsCheck(PerformAll(env, p, sc, acts[..|acts| - 1]), acts[|acts| - 1]))
  }

  lemma {:induction false} ActsPassCap(env: Env, p: Port, sc: Scene, acts: seq<Act>)
    requires sc.books.cor.cap > 0 && sc.books.cor.outstanding <= sc.books.cor.cap
    ensures PerformAll(env, p, sc, acts).books.cor.cap == sc.books.cor.cap
    ensures PerformAll(env, p, sc, acts).books.cor.outstanding >= sc.books.cor.outstanding
    ensures PerformAll(env, p, sc, acts).books.cor.outstanding > sc.books.cor.cap <==> Skipping(env, p, sc, acts)
  {
    if acts != [] {
      var init, act := acts[..|acts| - 1], acts[|acts| - 1];
      ActsPassCap(env, p, sc, init);
      var before := PerformAll(env, p, sc, init);
      PerformRaises(env, p, before, act);
      if before.books.cor.outstanding <= sc.books.cor.cap {
        ActPassesCap(env, p, before, act);
      }
    }
  }

  // ---- one operation ----

  function Max(a: nat, b: nat): nat {
    if a < b then b else a
  }

  predicate Served(env: Env, op: Op) {
    op.Asked? && env.serves(op.port.session) && op.body == Good
  }

  /**
   The most requests outstanding during an operation, before its end may clear them. A request taken back because its
   frame was refused never counts.
   */
  function Highest(env: Env, c: Core, op: Op): nat {
    if Served(env, op) then Receive(env, c.books, c.ledger, op.port).books.cor.outstanding
    else Max(c.books.cor.outstanding, Step(env, c, op).books.cor.outstanding)
  }

  /** The operation issues a request without a check at the cap: a synchronous call, or a handler's await. */
  predicate Bypasses(env: Env, c: Core, op: Op) {
    match op
    case SyncSend(_) => c.books.cor.WouldExceed() && env.wire(c.books.attempts) != Refused
    case Asked(p, _) => Served(env, op) && Skipping(env, p, Opening(c.books, c.ledger, p), env.acts(c.ledger.calls))
    case _ => false
  }

  lemma {:induction false} SettleAllLowers(c: Correlator, ts: seq<Token>)
    ensures SettleAll(c, ts).outstanding <= c.outstanding && SettleAll(c, ts).cap == c.cap
  {
    if ts != [] {
      SettleAllLowers(c, ts[..|ts| - 1]);
    }
  }

  /** The books of a core, or what the destruction sequence makes of them. */
  ghost predicate Lowered(b: Books, r: Books) {
    r.cor.cap == b.cor.cap && r.cor.outstanding <= b.cor.outstanding
  }

  lemma {:induction false} FinishLowers(env: Env, c: Core, o: Outcome)
    ensures Lowered(c.books, Finish(env, c, o).books)
  {
  }

  lemma {:induction false} ConcludeLowers(env: Env, c: Core, t: Token, v: Verdict)
    ensures Lowered(c.books, Conclude(env, c, t, v).books)
  {
    FinishLowers(env, Concluding(env, c, t, v), env.outcome(c.ledger.calls));
  }

  lemma {:induction false} OtherOpsLower(env: Env, c: Core, op: Op)
    requires !op.SyncSend? && !Served(env, op)
    ensures Lowered(c.books, Step(env, c, op).books)
  {
    match op
    case Call => FinishLowers(env, c.(ledger := Called(env, c.ledger, Plain)), env.outcome(c.ledger.calls));
    case Notice(_, _) =>
      FinishLowers(env, c.(ledger := Called(env, c.ledger, Plain)), env.outcome(c.ledger.calls));
      FinishLowers(env, c, Panic);
    case Asked(_, _) =>
    case ReplyTo(t) => ConcludeLowers(env, c, t, Replied);
    case FailureOf(t) => ConcludeLowers(env, c, t, Failed);
    case TeardownOf(s) => SettleAllLowers(c.books.cor, SessionTokens(env, c.books, s));
    case Closed =>
      FinishLowers(env, c.(ledger := Called(env, c.ledger, Plain)), env.outcome(c.ledger.calls));
      FinishLowers(env, Callback(env, c), Stop);
    case Broken => FinishLowers(env, c, Stop);
  }

  lemma {:induction false} ServedPassesCap(env: Env, c: Core, op: Op)
    requires Served(env, op) && c.books.cor.cap > 0 && c.books.cor.outstanding <= c.books.cor.cap
    ensures Highest(env, c, op) > c.books.cor.cap <==> Bypasses(env, c, op)
    ensures Step(env, c, op).books.cor.outstanding <= Highest(env, c, op)
    ensures Step(env, c, op).books.cor.cap == c.books.cor.cap
  {
    var p := op.port;
    ActsPassCap(env, p, Opening(c.books, c.ledger, p), env.acts(c.ledger.calls));
    FinishLowers(env, Handled(env, c, p), HandledOutcome(env, c, p));
  }

  lemma {:induction false} OpPassesCap(env: Env, c: Core, op: Op)
    requires c.books.cor.cap > 0 && c.books.cor.outstanding <= c.books.cor.cap
    ensures Highest(env, c, op) > c.books.cor.cap <==> Bypasses(env, c, op)
    ensures Step(env, c, op).books.cor.outstanding <= Highest(env, c, op)
    ensures Step(env, c, op).books.cor.cap == c.books.cor.cap
  {
    if Served(env, op) {
      ServedPassesCap(env, c, op);
    } else if op.SyncSend? {
      SyncPassesCap(env, c.books, op.session);
    } else {
      OtherOpsLower(env, c, op);
    }
  }

  // ---- whole runs ----

  /** The most requests outstanding at any point of a run. */
  function Peak(env: Env, c: Core, ops: seq<Op>): nat {
    if ops == [] then c.books.cor.outstanding
    else
      var init := ops[..|ops| - 1];
      var before := From(env, c, init);
      if before.exited then Peak(env, c, init) else Max(Peak(env, c, init), Highest(env, before, ops[|ops| - 1]))
  }

  predicate Bypassed(env: Env, c: Core, ops: seq<Op>) {
    ops != []
    && (Bypassed(env, c, ops[..|ops| - 1])
        || (!From(env, c, ops[..|ops| - 1]).exited && Bypasses(env, From(env, c, ops[..|ops| - 1]), ops[|ops| - 1])))
  }

  lemma {:induction false} RunPassesCap(env: Env, c: Core, ops: seq<Op>)
    requires c.books.cor.cap > 0 && c.books.cor.outstanding <= c.books.cor.cap
    ensures Peak(env, c, ops) > c.books.cor.cap <==> Bypassed(env, c, ops)
    ensures !Bypassed(env, c, ops) ==> From(env, c, ops).books.cor.outstanding <= Peak(env, c, ops)
                                       && From(env, c, ops).books.cor.cap == c.books.cor.cap
  {
    if ops != [] {
      var init := ops[..|ops| - 1];
      RunPassesCap(env, c, init);
      var before := From(env, c, init);
      if !Bypassed(env, c, init) && !before.exited {
        OpPassesCap(env, before, ops[|ops| - 1]);
      }
    }
  }

  /**
   The cap, exactly. The outstanding requests pass a non-zero cap at some point of a run if and only if at some point,
   with the cap reached, a synchronous request is sent and not refused or a handler awaits a reply.
   */
  lemma {:induction false} CapPassedExactly(env: Env, cap: nat, ops: seq<Op>)
    requires cap > 0
    ensures Peak(env, NewCore(cap), ops) > cap <==> Bypassed(env, NewCore(cap), ops)
  {
    RunPassesCap(env, NewCore(cap), ops);
  }
}
