/** The order in which messages of a batch arrived cannot turn a reply into a failure. */
module ReplyOrder {
  import opened Enumeration
  import opened Engine
  import opened EngineBooks
  import opened EngineTheorems
  import opened EngineVerdicts
  import opened Scheduler
  import opened SchedulerTheorems
  import opened LooperTheorems

  // ---- resolutions stay in the log ----

  lemma {:induction false} FailAllKeeps(d: Table, peer: Peer, ts: seq<Token>, n: Note)
    requires n in d.log
    ensures n in FailAll(d, peer, ts).log
  {
    if ts != [] {
      FailAllKeeps(d, peer, ts[..|ts| - 1], n);
    }
  }

  lemma {:induction false} PerformAllKeeps(env: Env, p: Port, sc: Scene, acts: seq<Act>, n: Note)
    requires n in sc.books.tab.log
    ensures n in PerformAll(env, p, sc, acts).books.tab.log
  {
    if acts != [] {
      PerformAllKeeps(env, p, sc, acts[..|acts| - 1], n);
    }
  }

  lemma {:induction false} FinishKeeps(env: Env, c: Core, o: Outcome, n: Note)
    requires n in c.books.tab.log
    ensures n in Finish(env, c, o).books.tab.log
  {
    FailAllKeeps(c.books.tab, env.peer, AllTokens(env, c.books), n);
  }

  lemma {:induction false} CallbackKeeps(env: Env, c: Core, n: Note)
    requires n in c.books.tab.log
    ensures n in Callback(env, c).books.tab.log
  {
    FinishKeeps(env, c.(ledger := Called(env, c.ledger, Plain)), env.outcome(c.ledger.calls), n);
  }

  lemma {:induction false} RequestKeeps(env: Env, c: Core, p: Port, body: Body, n: Note)
    requires n in c.books.tab.log
    ensures n in Request(env, c, p, body).books.tab.log
  {
    if env.serves(p.session) && body == Good {
      var start := Opening(c.books, c.ledger, p);
      PerformAllKeeps(env, p, start, env.acts(c.ledger.calls), n);
      FinishKeeps(env, Handled(env, c, p), HandledOutcome(env, c, p), n);
    }
  }

  lemma {:induction false} ConcludeKeeps(env: Env, c: Core, t: Token, v: Verdict, n: Note)
    requires n in c.books.tab.log || (n == Note(Key(env.peer, t), v) && Has(c.books.tab, Key(env.peer, t)))
    ensures n in Conclude(env, c, t, v).books.tab.log
  {
    if Has(c.books.tab, Key(env.peer, t)) {
      FinishKeeps(env, Concluding(env, c, t, v), env.outcome(c.ledger.calls), n);
    }
  }

  lemma {:induction false} StepKeeps(env: Env, c: Core, op: Op, n: Note)
    requires n in c.books.tab.log
    ensures n in Step(env, c, op).books.tab.log
  {
    match op
    case Call => CallbackKeeps(env, c, n);
    case Notice(s, body) =>
      CallbackKeeps(env, c, n);
      FinishKeeps(env, c, Panic, n);
    case Asked(p, body) => RequestKeeps(env, c, p, body, n);
    case SyncSend(s) =>
    case ReplyTo(t) => ConcludeKeeps(env, c, t, Replied, n);
    case FailureOf(t) => ConcludeKeeps(env, c, t, Failed, n);
    case TeardownOf(s) => FailAllKeeps(c.books.tab, env.peer, SessionTokens(env, c.books, s), n);
    case Closed =>
      CallbackKeeps(env, c, n);
      FinishKeeps(env, Callback(env, c), Stop, n);
    case Broken => FinishKeeps(env, c, Stop, n);
  }

  lemma {:induction false} FromKeeps(env: Env, c: Core, ops: seq<Op>, n: Note)
    requires n in c.books.tab.log
    ensures n in From(env, c, ops).books.tab.log
  {
    if ops != [] {
      var init := ops[..|ops| - 1];
      FromKeeps(env, c, init, n);
      if !From(env, c, init).exited {
        StepKeeps(env, From(env, c, init), ops[|ops| - 1], n);
      }
    }
  }

  // ---- before the reply ----

  lemma {:induction false} FailAllNotes(d: Table, peer: Peer, ts: seq<Token>, t: Token)
    requires Distinct(ts) && t in ts && Has(d, Key(peer, t)) && !(Key(peer, t) in d.entries && Key(peer, t) in d.asyncs)
    ensures Note(Key(peer, t), Failed) in FailAll(d, peer, ts).log
  {
    var init, last := ts[..|ts| - 1], ts[|ts| - 1];
    assert ts == init + [last];
    if last == t {
      FailAllEffect(d, peer, init, Key(peer, t));
    } else {
      FailAllNotes(d, peer, init, t);
    }
  }

  /** Destruction fails every request that still has its entry. */
  lemma {:induction false} DestroyFails(env: Env, c: Core, reason: ExitReason, gone: set<Token>, t: Token)
    requires env.Fair() && Agreed(env.peer, c.books, gone) && t in c.books.cor.sessions && t !in gone
    ensures Note(Key(env.peer, t), Failed) in Destroy(env, c, reason).books.tab.log
  {
    assert KeyAgreed(env.peer, c.books, gone, Key(env.peer, t));
    assert Enumerates(AllTokens(env, c.books), c.books.cor.sessions.Keys);
    FailAllNotes(c.books.tab, env.peer, AllTokens(env, c.books), t);
  }

  /** A request is still waiting, or failed with the looper. */
  ghost predicate WaitsOrFailed(env: Env, c: Core, t: Token) {
    if c.exited then Note(Key(env.peer, t), Failed) in c.books.tab.log else t in c.books.cor.sessions
  }

  /** What can come before the first reply to `t` in a batch. */
  predicate Earlier(op: Op, t: Token) {
    op.SyncSend? || (op.ReplyTo? && op.token != t)
  }

  lemma {:induction false} FinishWaits(env: Env, c: Core, o: Outcome, gone: set<Token>, t: Token)
    requires env.Fair() && Agreed(env.peer, c.books, gone) && t in c.books.cor.sessions && t !in gone && !c.exited
    ensures WaitsOrFailed(env, Finish(env, c, o), t)
  {
    match o
    case Continue =>
    case Stop => DestroyFails(env, c, Graceful, gone, t);
    case Panic => DestroyFails(env, c, Crashed, gone, t);
  }

  lemma {:induction false} OtherReplyWaits(env: Env, c: Core, other: Token, t: Token)
    requires env.Fair() && Orderly(env, c) && !c.exited && t in c.books.cor.sessions && other != t
    ensures WaitsOrFailed(env, Conclude(env, c, other, Replied), t)
  {
    var k := Key(env.peer, other);
    assert KeyAgreed(env.peer, c.books, {}, k);
    if Has(c.books.tab, k) {
      ResolveAgreed(env.peer, c.books, other, Replied);
      DischargeAgreed(env.peer, c.books, other, Replied);
      var o := env.outcome(c.ledger.calls);
      FinishWaits(env, Concluding(env, c, other, Replied), o, if o == Panic then {other} else {}, t);
    }
  }

  lemma {:induction false} EarlierWaits(env: Env, c: Core, op: Op, t: Token)
    requires env.Fair() && Orderly(env, c) && !c.exited && t in c.books.cor.sessions && Earlier(op, t)
    ensures WaitsOrFailed(env, Step(env, c, op), t)
  {
    if op.ReplyTo? {
      OtherReplyWaits(env, c, op.token, t);
    }
  }

  lemma {:induction false} EarlierRun(env: Env, c: Core, ops: seq<Op>, t: Token)
    requires env.Fair() && Orderly(env, c) && !c.exited && t in c.books.cor.sessions
    requires forall i :: 0 <= i < |ops| ==> Earlier(ops[i], t)
    ensures WaitsOrFailed(env, From(env, c, ops), t)
  {
    if ops != [] {
      var init := ops[..|ops| - 1];
      EarlierRun(env, c, init, t);
      FromOrderly(env, c, init);
      if !From(env, c, init).exited {
        EarlierWaits(env, From(env, c, init), ops[|ops| - 1], t);
      }
    }
  }

  // ---- the theorem ----

  /** What runs before the reply at place `i`: the synchronous requests, and the replies before it. */
  function Before(b: Batch, i: nat): seq<Op>
    requires i <= |b.replies|
  {
    SyncOps(b.syncs) + ReplyOps(b.replies[..i])
  }

  function Behind(b: Batch, i: nat, more: seq<Op>): seq<Op>
    requires i < |b.replies|
  {
    ReplyOps(b.replies[i + 1..]) + LaterOps(b) + more
  }

  lemma {:induction false} SplitAtReply(b: Batch, i: nat, more: seq<Op>)
    requires i < |b.replies|
    ensures FrameworkOps(b) + more == Before(b, i) + ([ReplyTo(b.replies[i])] + Behind(b, i, more))
  {
    assert ReplyOps(b.replies) == ReplyOps(b.replies[..i]) + [ReplyTo(b.replies[i])] + ReplyOps(b.replies[i + 1..]);
  }

  lemma {:induction false} BeforeIsEarlier(b: Batch, i: nat, t: Token)
    requires i <= |b.replies| && t !in b.replies[..i]
    ensures forall j :: 0 <= j < |Before(b, i)| ==> Earlier(Before(b, i)[j], t)
  {
  }

  /** The verdict on `t` once everything before its reply has run. */
  lemma {:induction false} ReplyDecides(env: Env, c: Core, t: Token, rest: seq<Op>)
    requires env.Fair() && Orderly(env, c) && WaitsOrFailed(env, c, t)
    ensures var log := From(env, c, [ReplyTo(t)] + rest).books.tab.log;
            (if c.exited then Note(Key(env.peer, t), Failed) else Note(Key(env.peer, t), Replied)) in log
  {
    var k := Key(env.peer, t);
    if c.exited {
      FromKeeps(env, c, [ReplyTo(t)] + rest, Note(k, Failed));
    } else {
      assert KeyAgreed(env.peer, c.books, {}, k);
      ConcludeKeeps(env, c, t, Replied, Note(k, Replied));
      FromFirst(env, c, ReplyTo(t), rest);
      FromKeeps(env, Step(env, c, ReplyTo(t)), rest, Note(k, Replied));
    }
  }

  /** In a batch, an outstanding token with a reply is resolved as replied unless an earlier reply ended the looper. */
  lemma {:induction false} BatchReplyWins(env: Env, world: World, st: Loop, i: nat, t: Token)
    requires env.Fair() && Orderly(env, st.core) && !st.core.exited && t in st.core.books.cor.sessions
    requires i < |st.batch.replies| && st.batch.replies[i] == t && t !in st.batch.replies[..i]
    ensures var log, k := DispatchBatch(env, world, st).core.books.tab.log, Key(env.peer, t);
            var ended := From(env, st.core, Before(st.batch, i)).exited;
            && Times(log, k) == 1
            && (Note(k, Replied) in log <==> !ended)
            && (Note(k, Failed) in log <==> ended)
  {
    var b, k := st.batch, Key(env.peer, t);
    var before := From(env, st.core, Before(b, i));
    BeforeIsEarlier(b, i, t);
    EarlierRun(env, st.core, Before(b, i), t);
    FromOrderly(env, st.core, Before(b, i));
    var more := RestOps(env, world, st);
    DispatchRuns(env, world, st);
    var rest := Behind(b, i, more);
    SplitAtReply(b, i, more);
    FromConcat(env, st.core, Before(b, i), [ReplyTo(t)] + rest);
    ReplyDecides(env, before, t, rest);
    FromOrderly(env, before, [ReplyTo(t)] + rest);
    var verdict := if before.exited then Failed else Replied;
    OneVerdict(env, From(env, before, [ReplyTo(t)] + rest), Note(k, verdict));
  }

  // ---- as messages arrive ----

  lemma {:induction false} ReplyCollected(st: Loop, ms: seq<Message>, s: Session, t: Token)
    requires ReplyFrame(s, t) in ms
    ensures t in Poll(st, ms).batch.replies
  {
    var init, m := ms[..|ms| - 1], ms[|ms| - 1];
    assert ms == init + [m];
    if m != ReplyFrame(s, t) {
      ReplyCollected(st, init, s, t);
    }
  }

  function FirstAt(ts: seq<Token>, t: Token): (i: nat)
    requires t in ts
    ensures i < |ts| && ts[i] == t && t !in ts[..i]
  {
    if ts[0] == t then 0
    else
      var i := FirstAt(ts[1..], t);
      assert ts[..i + 1] == [ts[0]] + ts[1..][..i];
      i + 1
  }

  /** A reply in the batch, before the first one to `t`, ends the looper. */
  ghost predicate EndedEarlier(env: Env, st: Loop, t: Token)
    requires t in st.batch.replies
  {
    From(env, st.core, Before(st.batch, FirstAt(st.batch.replies, t))).exited
  }

  /**
   Arrival order cannot orphan a reply. After any run, let a tick's messages hold a reply to an outstanding token, and
   whatever Failed frames, teardowns and other messages, in any order. The tick resolves the token exactly once: as
   replied, and never as failed, unless an earlier reply of the tick ended the looper, and then as failed.
   */
  lemma {:induction false} ReplyWins(
    env: Env, world: World, cap: nat, rounds: seq<Round>, ms: seq<Message>, s: Session, t: Token)
    requires env.Fair() && ReplyFrame(s, t) in ms
    requires var c := RunLooper(env, world, cap, rounds).core; !c.exited && t in c.books.cor.sessions
    ensures var st := RunLooper(env, world, cap, rounds);
            var log, k := Tick(env, world, st, ms).core.books.tab.log, Key(env.peer, t);
            && t in Poll(st, ms).batch.replies
            && Times(log, k) == 1
            && (Note(k, Replied) in log <==> !EndedEarlier(env, Poll(st, ms), t))
            && (Note(k, Failed) in log <==> EndedEarlier(env, Poll(st, ms), t))
  {
    var st := RunLooper(env, world, cap, rounds);
    var polled := Poll(st, ms);
    ReplyCollected(st, ms, s, t);
    PollKeepsCore(st, ms);
    var ops := LooperOps(env, world, cap, rounds);
    LooperRuns(env, world, cap, rounds);
    NoneAgreed(env.peer, cap);
    FromOrderly(env, NewCore(cap), ops);
    BatchReplyWins(env, world, polled, FirstAt(polled.batch.replies, t), t);
  }
}
