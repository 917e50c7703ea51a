/** What holds of every run of the engine. */
module EngineTheorems {
  import opened Enumeration
  import opened Engine
  import opened EngineBooks

  // ---- the two layers, over whole runs ----

  lemma {:induction false} PerformAgreed(env: Env, p: Port, sc: Scene, act: Act)
    requires Agreed(env.peer, sc.books, {})
    ensures Agreed(env.peer, Perform(env, p, sc, act).books, {})
  {
    var books := Perform(env, p, sc, act).books;
    if act.Send? || act.TrySend? {
      SendAgreed(env, sc.books, act.session, Handler);
      assert books == sc.books || books == SendRequest(env, sc.books, act.session, Handler);
    } else if act.Await? {
      AsyncAgreed(env.peer, sc.books, act.session);
      assert books == sc.books || books == SendAsync(env.peer, sc.books, act.session);
    } else {
      assert books == sc.books;
    }
  }

  lemma {:induction false} PerformAllAgreed(env: Env, p: Port, sc: Scene, acts: seq<Act>)
    requires Agreed(env.peer, sc.books, {})
    ensures Agreed(env.peer, PerformAll(env, p, sc, acts).books, {})
  {
    if acts != [] {
      PerformAllAgreed(env, p, sc, acts[..|acts| - 1]);
      PerformAgreed(env, p, PerformAll(env, p, sc, acts[..|acts| - 1]), acts[|acts| - 1]);
    }
  }

  /** Between events the layers agree, and after an exit nothing is pending. */
  ghost predicate Orderly(env: Env, c: Core) {
    Agreed(env.peer, c.books, {}) && (c.exited ==> c.books.cor.sessions == map[])
  }

  lemma {:induction false} DestroyOrderly(env: Env, c: Core, reason: ExitReason, gone: set<Token>)
    requires env.Fair() && Agreed(env.peer, c.books, gone)
    ensures Orderly(env, Destroy(env, c, reason))
  {
    WreckAgreed(env, c.books, gone);
  }

  lemma {:induction false} FinishOrderly(env: Env, c: Core, o: Outcome, gone: set<Token>)
    requires env.Fair() && Agreed(env.peer, c.books, gone) && !c.exited && (gone == {} || o == Panic)
    ensures Orderly(env, Finish(env, c, o))
  {
    match o
    case Continue =>
    case Stop => DestroyOrderly(env, c, Graceful, gone);
    case Panic => DestroyOrderly(env, c, Crashed, gone);
  }

  lemma {:induction false} CallbackOrderly(env: Env, c: Core)
    requires env.Fair() && Orderly(env, c) && !c.exited
    ensures Orderly(env, Callback(env, c))
  {
    FinishOrderly(env, c.(ledger := Called(env, c.ledger, Plain)), env.outcome(c.ledger.calls), {});
  }

  lemma {:induction false} RequestOrderly(env: Env, c: Core, p: Port, body: Body)
    requires env.Fair() && Orderly(env, c) && !c.exited
    ensures Orderly(env, Request(env, c, p, body))
  {
    if env.serves(p.session) && body == Good {
      var start := Opening(c.books, c.ledger, p);
      PerformAllAgreed(env, p, start, env.acts(c.ledger.calls));
      FinishOrderly(env, Handled(env, c, p), HandledOutcome(env, c, p), {});
    }
  }

  /** A reply or failure, whatever the callback does: a panic leaves the token to the destruction, which skips it. */
  lemma {:induction false} ConcludeOrderly(env: Env, c: Core, t: Token, v: Verdict)
    requires env.Fair() && Orderly(env, c) && !c.exited
    ensures Orderly(env, Conclude(env, c, t, v))
  {
    var k := Key(env.peer, t);
    assert KeyAgreed(env.peer, c.books, {}, k);
    if Has(c.books.tab, k) {
      ResolveAgreed(env.peer, c.books, t, v);
      DischargeAgreed(env.peer, c.books, t, v);
      if CallsHandler(c.books.tab, k) {
        var o := env.outcome(c.ledger.calls);
        FinishOrderly(env, Concluding(env, c, t, v), o, if o == Panic then {t} else {});
      }
    }
  }

  lemma {:induction false} CloseOrderly(env: Env, c: Core)
    requires env.Fair() && Orderly(env, c) && !c.exited
    ensures Orderly(env, Close(env, c))
  {
    CallbackOrderly(env, c);
    if env.outcome(c.ledger.calls) == Continue {
      DestroyOrderly(env, Callback(env, c), Disconnected, {});
    }
  }

  lemma {:induction false} NotifyOrderly(env: Env, c: Core, s: Session, body: Body)
    requires env.Fair() && Orderly(env, c) && !c.exited
    ensures Orderly(env, Notify(env, c, s, body))
  {
    CallbackOrderly(env, c);
    FinishOrderly(env, c, Panic, {});
  }

  lemma {:induction false} SyncOrderly(env: Env, c: Core, s: Session)
    requires Orderly(env, c) && !c.exited
    ensures Orderly(env, Step(env, c, SyncSend(s)))
  {
    SendAgreed(env, c.books, s, Sync);
  }

  lemma {:induction false} TeardownOrderly(env: Env, c: Core, s: Session)
    requires env.Fair() && Orderly(env, c) && !c.exited
    ensures Orderly(env, Teardown(env, c, s))
  {
    TeardownAgreed(env, c.books, s);
  }

  lemma {:induction false} StepOrderly(env: Env, c: Core, op: Op)
    requires env.Fair() && Orderly(env, c) && !c.exited
    ensures Orderly(env, Step(env, c, op))
  {
    match op
    case Call => CallbackOrderly(env, c);
    case Notice(s, body) => NotifyOrderly(env, c, s, body);
    case Asked(p, body) => RequestOrderly(env, c, p, body);
    case SyncSend(s) => SyncOrderly(env, c, s);
    case ReplyTo(t) => ConcludeOrderly(env, c, t, Replied);
    case FailureOf(t) => ConcludeOrderly(env, c, t, Failed);
    case TeardownOf(s) => TeardownOrderly(env, c, s);
    case Closed => CloseOrderly(env, c);
    case Broken => DestroyOrderly(env, c, InfraError, {});
  }

  lemma {:induction false} FromOrderly(env: Env, c: Core, ops: seq<Op>)
    requires env.Fair() && Orderly(env, c)
    ensures Orderly(env, From(env, c, ops))
  {
    if ops != [] {
      var init := ops[..|ops| - 1];
      FromOrderly(env, c, init);
      if !From(env, c, init).exited {
        StepOrderly(env, From(env, c, init), ops[|ops| - 1]);
      }
    }
  }

  /**
   Exactly-once resolution. In every run each token ever allocated is either still pending or has been replied to,
   failed or rolled back exactly once; once the looper has exited none is pending, and no entry was ever discarded.
   */
  lemma {:induction false} ExactlyOnce(env: Env, cap: nat, ops: seq<Op>, t: Token)
    requires env.Fair()
    ensures var b := Run(env, cap, ops).books;
            && Times(b.tab.log, Key(env.peer, t)) == (if t < b.cor.next && t !in b.cor.sessions then 1 else 0)
            && (t in b.cor.sessions <==> Has(b.tab, Key(env.peer, t)))
            && b.tab.dropped == {}
    ensures Run(env, cap, ops).exited ==> t !in Run(env, cap, ops).books.cor.sessions
  {
    NoneAgreed(env.peer, cap);
    FromOrderly(env, NewCore(cap), ops);
    assert KeyAgreed(env.peer, Run(env, cap, ops).books, {}, Key(env.peer, t));
  }

  /** Two-layer agreement, as equalities: keys, and the counter, which therefore never saturates. */
  lemma {:induction false} LayersAgree(env: Env, cap: nat, ops: seq<Op>)
    requires env.Fair()
    ensures var b := Run(env, cap, ops).books;
            && b.tab.entries.Keys + b.tab.asyncs == (set t | t in b.cor.sessions :: Key(env.peer, t))
            && b.tab.entries.Keys !! b.tab.asyncs
            && b.cor.outstanding == |b.cor.sessions|
  {
    NoneAgreed(env.peer, cap);
    FromOrderly(env, NewCore(cap), ops);
    AgreedKeys(env.peer, Run(env, cap, ops).books);
  }

  lemma {:induction false} AgreedKeys(peer: Peer, b: Books)
    requires Agreed(peer, b, {})
    ensures b.tab.entries.Keys + b.tab.asyncs == (set t | t in b.cor.sessions :: Key(peer, t))
    ensures b.tab.entries.Keys !! b.tab.asyncs
  {
    forall k ensures k in b.tab.entries.Keys + b.tab.asyncs <==> k in (set t | t in b.cor.sessions :: Key(peer, t)) {
      assert KeyAgreed(peer, b, {}, k);
      if k.peer == peer {
        assert k == Key(peer, k.token);
      }
    }
    forall k ensures !(k in b.tab.entries.Keys && k in b.tab.asyncs) {
      assert KeyAgreed(peer, b, {}, k);
    }
  }

  // ---- what a session cascade takes ----

  function FailedNotes(peer: Peer, ts: seq<Token>): seq<Note> {
    seq(|ts|, i requires 0 <= i < |ts| => Note(Key(peer, ts[i]), Failed))
  }

  lemma {:induction false} FailAllLog(d: Table, peer: Peer, ts: seq<Token>)
    requires Distinct(ts) && forall t :: t in ts ==>
               Has(d, Key(peer, t)) && !(Key(peer, t) in d.entries && Key(peer, t) in d.asyncs)
    ensures FailAll(d, peer, ts).log == d.log + FailedNotes(peer, ts)
  {
    if ts != [] {
      var init, last := ts[..|ts| - 1], ts[|ts| - 1];
      assert ts == init + [last];
      FailAllLog(d, peer, init);
      FailAllEffect(d, peer, init, Key(peer, last));
      assert FailedNotes(peer, ts) == FailedNotes(peer, init) + [Note(Key(peer, last), Failed)];
    }
  }

  /** A teardown fails each token of its session, once, and leaves every other request as it was. */
  lemma {:induction false} TeardownTakesItsSession(env: Env, c: Core, s: Session)
    requires env.Fair() && Agreed(env.peer, c.books, {})
    ensures var r, ts := Teardown(env, c, s).books, SessionTokens(env, c.books, s);
            && Enumerates(ts, set t | t in c.books.cor.sessions && c.books.cor.sessions[t] == s)
            && r.tab.log == c.books.tab.log + FailedNotes(env.peer, ts)
            && Remains(c.books.cor, ts, r.cor) && r.cor.next == c.books.cor.next
            && (forall t :: t in r.cor.sessions ==> KeyFailed(c.books.tab, env.peer, ts, r.tab, Key(env.peer, t)))
  {
    var ts := SessionTokens(env, c.books, s);
    assert Enumerates(ts, TokensOf(c.books.cor, s));
    SettleAllEffect(c.books.cor, ts);
    forall t ensures KeyAgreed(env.peer, c.books, {}, Key(env.peer, t))
                  && KeyFailed(c.books.tab, env.peer, ts, FailAll(c.books.tab, env.peer, ts), Key(env.peer, t)) {
      assert KeyAgreed(env.peer, c.books, {}, Key(env.peer, t));
      FailAllEffect(c.books.tab, env.peer, ts, Key(env.peer, t));
    }
    FailAllLog(c.books.tab, env.peer, ts);
  }

  // ---- the cap ----

  ghost function WaitingFor(d: Table, o: Origin): set<Key> {
    set k | k in d.entries && d.entries[k] == o
  }

  lemma {:induction false} SubsetSize<T>(a: set<T>, b: set<T>)
    requires a <= b
    ensures |a| <= |b|
  {
    assert a + (b - a) == b && a * (b - a) == {};
  }

  lemma {:induction false} KeysSize(peer: Peer, ts: set<Token>)
    ensures |set t | t in ts :: Key(peer, t)| == |ts|
  {
    if ts != {} {
      var x :| x in ts;
      KeysSize(peer, ts - {x});
      assert (set t | t in ts :: Key(peer, t)) == (set t | t in ts - {x} :: Key(peer, t)) + {Key(peer, x)};
    } else {
      assert (set t | t in ts :: Key(peer, t)) == {};
    }
  }

  /** The outstanding count, by who is waiting. */
  lemma {:induction false} OutstandingByOrigin(peer: Peer, b: Books)
    requires Agreed(peer, b, {})
    ensures b.cor.outstanding == |WaitingFor(b.tab, Handler)| + |WaitingFor(b.tab, Sync)| + |b.tab.asyncs|
  {
    AgreedKeys(peer, b);
    KeysSize(peer, b.cor.sessions.Keys);
    assert (set t | t in b.cor.sessions.Keys :: Key(peer, t)) == (set t | t in b.cor.sessions :: Key(peer, t));
    assert b.tab.entries.Keys == WaitingFor(b.tab, Handler) + WaitingFor(b.tab, Sync);
    assert WaitingFor(b.tab, Handler) !! WaitingFor(b.tab, Sync);
  }

  ghost predicate Capped(b: Books) {
    b.cor.cap > 0 ==> |WaitingFor(b.tab, Handler)| <= b.cor.cap
  }

  /** Nothing but a handler's own send adds a callback entry. */
  ghost predicate Shrunk(b: Books, r: Books) {
    r.cor.cap == b.cor.cap && WaitingFor(r.tab, Handler) <= WaitingFor(b.tab, Handler)
  }

  lemma {:induction false} ShrunkCapped(b: Books, r: Books)
    requires Capped(b) && Shrunk(b, r)
    ensures Capped(r)
  {
    SubsetSize(WaitingFor(r.tab, Handler), WaitingFor(b.tab, Handler));
  }

  lemma {:induction false} FailAllShrinks(d: Table, peer: Peer, ts: seq<Token>)
    ensures WaitingFor(FailAll(d, peer, ts), Handler) <= WaitingFor(d, Handler)
  {
    if ts != [] {
      FailAllShrinks(d, peer, ts[..|ts| - 1]);
    }
  }

  lemma {:induction false} SettleAllCap(c: Correlator, ts: seq<Token>)
    ensures SettleAll(c, ts).cap == c.cap
  {
    if ts != [] {
      SettleAllCap(c, ts[..|ts| - 1]);
    }
  }

  lemma {:induction false} SendCapped(env: Env, b: Books, s: Session)
    requires Agreed(env.peer, b, {}) && Capped(b) && !b.cor.WouldExceed()
    ensures Capped(SendRequest(env, b, s, Handler)) && SendRequest(env, b, s, Handler).cor.cap == b.cor.cap
  {
    OutstandingByOrigin(env.peer, b);
    var i := Install(env.peer, b, s, Handler);
    assert WaitingFor(i.tab, Handler) == WaitingFor(b.tab, Handler) + {Key(env.peer, b.cor.next)};
    assert Capped(i);
    ShrunkCapped(i, SendRequest(env, b, s, Handler));
  }

  lemma {:induction false} SyncShrinks(env: Env, b: Books, s: Session)
    requires Agreed(env.peer, b, {})
    ensures Shrunk(b, SendRequest(env, b, s, Sync))
  {
    assert KeyAgreed(env.peer, b, {}, Key(env.peer, b.cor.next));
  }

  lemma {:induction false} PerformCapped(env: Env, p: Port, sc: Scene, act: Act)
    requires Agreed(env.peer, sc.books, {}) && Capped(sc.books)
    ensures Capped(Perform(env, p, sc, act).books) && Perform(env, p, sc, act).books.cor.cap == sc.books.cor.cap
  {
    if sc.ok && (act.Send? || act.TrySend?) && !sc.books.cor.WouldExceed() {
      SendCapped(env, sc.books, act.session);
    }
    if act.Await? {
      ShrunkCapped(sc.books, SendAsync(env.peer, sc.books, act.session));
    }
  }

  lemma {:induction false} PerformAllCapped(env: Env, p: Port, sc: Scene, acts: seq<Act>)
    requires Agreed(env.peer, sc.books, {}) && Capped(sc.books)
    ensures Capped(PerformAll(env, p, sc, acts).books) && PerformAll(env, p, sc, acts).books.cor.cap == sc.books.cor.cap
  {
    if acts != [] {
      var init := acts[..|acts| - 1];
      PerformAllAgreed(env, p, sc, init);
      PerformAllCapped(env, p, sc, init);
      PerformCapped(env, p, PerformAll(env, p, sc, init), acts[|acts| - 1]);
    }
  }

  ghost predicate StaysCapped(b: Books, r: Books) {
    r.cor.cap == b.cor.cap && (Capped(b) ==> Capped(r))
  }

  lemma {:induction false} FinishCapped(env: Env, c: Core, o: Outcome)
    ensures StaysCapped(c.books, Finish(env, c, o).books)
  {
    FailAllShrinks(c.books.tab, env.peer, AllTokens(env, c.books));
    if Capped(c.books) && o != Continue {
      ShrunkCapped(c.books, Finish(env, c, o).books);
    }
  }

  lemma {:induction false} ConcludeCapped(env: Env, c: Core, t: Token, v: Verdict)
    ensures StaysCapped(c.books, Conclude(env, c, t, v).books)
  {
    var k := Key(env.peer, t);
    if Capped(c.books) {
      ShrunkCapped(c.books, c.books.(tab := Resolve(c.books.tab, k, v)));
      ShrunkCapped(c.books, Discharge(env.peer, c.books, t, v));
    }
    FinishCapped(env, Concluding(env, c, t, v), env.outcome(c.ledger.calls));
  }

  lemma {:induction false} RequestCapped(env: Env, c: Core, p: Port, body: Body)
    requires Agreed(env.peer, c.books, {})
    ensures StaysCapped(c.books, Request(env, c, p, body).books)
  {
    if env.serves(p.session) && body == Good {
      var start := Opening(c.books, c.ledger, p);
      if Capped(c.books) {
        PerformAllCapped(env, p, start, env.acts(c.ledger.calls));
      }
      PerformAllKeepsCap(env, p, start, env.acts(c.ledger.calls));
      FinishCapped(env, Handled(env, c, p), HandledOutcome(env, c, p));
    }
  }

  lemma {:induction false} PerformAllKeepsCap(env: Env, p: Port, sc: Scene, acts: seq<Act>)
    ensures PerformAll(env, p, sc, acts).books.cor.cap == sc.books.cor.cap
  {
    if acts != [] {
      PerformAllKeepsCap(env, p, sc, acts[..|acts| - 1]);
    }
  }

  lemma {:induction false} CallbackCapped(env: Env, c: Core)
    ensures StaysCapped(c.books, Callback(env, c).books)
  {
    FinishCapped(env, c.(ledger := Called(env, c.ledger, Plain)), env.outcome(c.ledger.calls));
  }

  lemma {:induction false} CloseCapped(env: Env, c: Core)
    ensures StaysCapped(c.books, Close(env, c).books)
  {
    CallbackCapped(env, c);
    FinishCapped(env, Callback(env, c), Stop);
  }

  lemma {:induction false} NotifyCapped(env: Env, c: Core, s: Session, body: Body)
    ensures StaysCapped(c.books, Notify(env, c, s, body).books)
  {
    CallbackCapped(env, c);
    FinishCapped(env, c, Panic);
  }

  lemma {:induction false} SyncCapped(env: Env, b: Books, s: Session)
    requires Agreed(env.peer, b, {})
    ensures StaysCapped(b, SendRequest(env, b, s, Sync))
  {
    SyncShrinks(env, b, s);
    if Capped(b) {
      ShrunkCapped(b, SendRequest(env, b, s, Sync));
    }
  }

  lemma {:induction false} TeardownCapped(env: Env, c: Core, s: Session)
    ensures StaysCapped(c.books, Teardown(env, c, s).books)
  {
    var ts := SessionTokens(env, c.books, s);
    FailAllShrinks(c.books.tab, env.peer, ts);
    SettleAllCap(c.books.cor, ts);
    if Capped(c.books) {
      ShrunkCapped(c.books, Teardown(env, c, s).books);
    }
  }

  lemma {:induction false} StepCapped(env: Env, c: Core, op: Op)
    requires Agreed(env.peer, c.books, {})
    ensures StaysCapped(c.books, Step(env, c, op).books)
  {
    match op
    case Call => CallbackCapped(env, c);
    case Notice(s, body) => NotifyCapped(env, c, s, body);
    case Asked(p, body) => RequestCapped(env, c, p, body);
    case SyncSend(s) => SyncCapped(env, c.books, s);
    case ReplyTo(t) => ConcludeCapped(env, c, t, Replied);
    case FailureOf(t) => ConcludeCapped(env, c, t, Failed);
    case TeardownOf(s) => TeardownCapped(env, c, s);
    case Closed => CloseCapped(env, c);
    case Broken => FinishCapped(env, c, Stop);
  }

  lemma {:induction false} FromCapped(env: Env, c: Core, ops: seq<Op>)
    requires env.Fair() && Orderly(env, c)
    ensures StaysCapped(c.books, From(env, c, ops).books)
  {
    if ops != [] {
      var init := ops[..|ops| - 1];
      FromCapped(env, c, init);
      FromOrderly(env, c, init);
      if !From(env, c, init).exited {
        StepCapped(env, From(env, c, init), ops[|ops| - 1]);
      }
    }
  }

  /**
   What the cap turns away. At any point of a request handler in any run, a fallible send does nothing exactly when a
   cap is set and that many requests, whoever sent them, are without a verdict. A cap of zero turns nothing away.
   */
  lemma {:induction false} TurnedAwayExactly(
    env: Env, cap: nat, ops: seq<Op>, p: Port, acts: seq<Act>, s: Session, caught: bool)
    requires env.Fair()
    ensures var c := Run(env, cap, ops);
            var sc := PerformAll(env, p, Opening(c.books, c.ledger, p), acts);
            sc.ok ==>
              (Perform(env, p, sc, TrySend(s, caught)).books == sc.books <==> cap > 0 && |sc.books.cor.sessions| >= cap)
  {
    NoneAgreed(env.peer, cap);
    FromOrderly(env, NewCore(cap), ops);
    FromCapped(env, NewCore(cap), ops);
    var c := Run(env, cap, ops);
    PerformAllAgreed(env, p, Opening(c.books, c.ledger, p), acts);
    PerformAllKeepsCap(env, p, Opening(c.books, c.ledger, p), acts);
  }

  /**
   The cap under bypass. With a non-zero cap a handler never has more requests outstanding than the cap; synchronous
   and async requests skip the check, so the total is bounded by the cap plus those.
   */
  lemma {:induction false} CapHolds(env: Env, cap: nat, ops: seq<Op>)
    requires env.Fair() && cap > 0
    ensures var b := Run(env, cap, ops).books;
            && |WaitingFor(b.tab, Handler)| <= cap
            && b.cor.outstanding == |WaitingFor(b.tab, Handler)| + |WaitingFor(b.tab, Sync)| + |b.tab.asyncs|
            && b.cor.outstanding <= cap + |WaitingFor(b.tab, Sync)| + |b.tab.asyncs|
  {
    NoneAgreed(env.peer, cap);
    assert WaitingFor(NoBooks(cap).tab, Handler) == {};
    FromOrderly(env, NewCore(cap), ops);
    FromCapped(env, NewCore(cap), ops);
    OutstandingByOrigin(env.peer, Run(env, cap, ops).books);
  }

  /** The synchronous bypass is real: with a cap of one, two synchronous requests are outstanding at once. */
  lemma {:induction false} SyncExceedsCap(env: Env)
    requires env.Fair() && forall i :: env.wire(i) == Sent
    ensures Run(env, 1, [SyncSend(1), SyncSend(1)]).books.cor.outstanding == 2
  {
    var ops := [SyncSend(1), SyncSend(1)];
    assert ops[..1] == [SyncSend(1)] && [SyncSend(1)][..0] == [];
    assert From(env, NewCore(1), []) == NewCore(1);
    assert From(env, NewCore(1), [SyncSend(1)]).books.cor.outstanding == 1;
  }

  /** A refused frame costs one token number and leaves a note; everything else is as before the send. */
  lemma {:induction false} RefusedSendRestores(env: Env, b: Books, s: Session, o: Origin)
    requires Agreed(env.peer, b, {}) && env.wire(b.attempts) == Refused
    ensures var r, k := SendRequest(env, b, s, o), Key(env.peer, b.cor.next);
            r.cor == b.cor.(next := b.cor.next + 1) && r.tab == b.tab.(log := b.tab.log + [Note(k, RolledBack)])
  {
    var k := Key(env.peer, b.cor.next);
    assert KeyAgreed(env.peer, b, {}, k);
    assert b.cor.sessions[b.cor.next := s] - {b.cor.next} == b.cor.sessions;
    assert b.tab.entries[k := o] - {k} == b.tab.entries;
  }
}
