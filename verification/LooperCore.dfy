/** The looper core: sends requests, routes replies, runs callbacks and the destruction sequence. */
module LooperCore {
  import opened Engine
  import opened DispatchTable
  import opened Sessions

  /** The write channel; each frame offered is taken or refused. */
  class WriteChannel {
    var attempts: nat

    constructor ()
      ensures attempts == 0
    {
      attempts := 0;
    }

    method Offer(env: Env) returns (d: Delivery)
      modifies this
      ensures d == env.wire(old(attempts)) && attempts == old(attempts) + 1
    {
      d := env.wire(attempts);
      attempts := attempts + 1;
    }
  }

  /** What a request handler may touch: the dispatch table and the session, never one without the other. */
  class DispatchCtx {
    const env: Env
    const dispatch: Dispatch
    const session: ActiveSession
    const wire: WriteChannel

    ghost predicate Valid() {
      session.primary == env.peer
    }

    ghost function Now(): Books
      reads dispatch, session.correlator, wire
    {
      Books(session.correlator.Now(), dispatch.Now(), wire.attempts)
    }

    constructor (env: Env, cap: nat)
      ensures this.env == env && Valid() && Now() == NoBooks(cap)
      ensures fresh(dispatch) && fresh(session) && fresh(session.correlator) && fresh(wire)
    {
      this.env := env;
      dispatch := new Dispatch();
      session := new ActiveSession(env.peer, cap);
      wire := new WriteChannel();
    }

    method Cancel(t: Token)
      requires Valid()
      modifies dispatch, session.correlator
      ensures Now() == if !Has(old(Now()).tab, Key(env.peer, t)) then old(Now())
                       else Discharge(env.peer, old(Now()), t, RolledBack)
    {
      var removed := dispatch.Cancel(Key(session.primary, t));
      if removed {
        session.correlator.RecordResolution(t);
      }
    }

    /** Install first, then offer the frame, and take the entry back if it is refused. */
    method InstallAndSend(s: Session, o: Origin) returns (d: Delivery)
      requires Valid()
      modifies dispatch, session.correlator, wire
      ensures Now() == SendRequest(env, old(Now()), s, o) && d == env.wire(old(wire.attempts))
    {
      var t := session.correlator.AllocateToken(s);
      dispatch.Install(Key(session.primary, t), o);
      d := wire.Offer(env);
      if d == Refused {
        Cancel(t);
      }
    }

    method InstallAsync(s: Session)
      requires Valid()
      modifies dispatch, session.correlator
      ensures Now() == SendAsync(env.peer, old(Now()), s)
    {
      var t := session.correlator.AllocateToken(s);
      dispatch.InstallAsync(Key(session.primary, t));
    }
  }

  /** A request handler at work: its own port may still be in hand. */
  class RequestScene {
    const ctx: DispatchCtx
    const handler: Actor
    const port: Port
    var held: bool
    var ok: bool

    ghost function Now(): Scene
      reads this, ctx.dispatch, ctx.session.correlator, ctx.wire, handler
    {
      Scene(ctx.Now(), handler.Now(), held, ok)
    }

    constructor (ctx: DispatchCtx, handler: Actor, port: Port)
      ensures this.ctx == ctx && this.handler == handler && this.port == port && held && ok
    {
      this.ctx, this.handler, this.port := ctx, handler, port;
      held, ok := true, true;
    }

    /** The infallible send panics when the cap is reached. */
    method SendRequest(s: Session, caught: bool)
      requires ctx.Valid() && ok
      modifies this, ctx.dispatch, ctx.session.correlator, ctx.wire
      ensures Now() == Perform(ctx.env, port, old(Now()), Act.Send(s, caught))
    {
      if ctx.session.correlator.WouldExceedCap() {
        ok := caught;
        return;
      }
      var d := ctx.InstallAndSend(s, Handler);
      ok := caught || d != Unserializable;
    }

    method TrySendRequest(s: Session, caught: bool)
      requires ctx.Valid() && ok
      modifies this, ctx.dispatch, ctx.session.correlator, ctx.wire
      ensures Now() == Perform(ctx.env, port, old(Now()), TrySend(s, caught))
    {
      if ctx.session.correlator.WouldExceedCap() {
        return;
      }
      var d := ctx.InstallAndSend(s, Handler);
      ok := caught || d != Unserializable;
    }

    method Do(act: Act)
      requires ctx.Valid() && ok
      modifies this, ctx.dispatch, ctx.session.correlator, ctx.wire, handler
      ensures Now() == Perform(ctx.env, port, old(Now()), act)
    {
      match act
      case OnStash(r) => handler.Use(r);
      case AnswerHeld(way) =>
        if held {
          held := false;
          handler.Send(port, way);
        }
      case StashHeld =>
        if held {
          held := false;
          handler.stash := handler.stash + [port];
        }
      case Send(s, caught) => SendRequest(s, caught);
      case TrySend(s, caught) => TrySendRequest(s, caught);
      case Await(s) => ctx.InstallAsync(s);
    }

    method DoAll(acts: seq<Act>)
      requires ctx.Valid() && ok
      modifies this, ctx.dispatch, ctx.session.correlator, ctx.wire, handler
      ensures Now() == PerformAll(ctx.env, port, old(Now()), acts)
    {
      for i := 0 to |acts|
        invariant Now() == PerformAll(ctx.env, port, old(Now()), acts[..i])
      {
        PerformNext(ctx.env, port, old(Now()), acts, i);
        if ok {
          Do(acts[i]);
        }
      }
      assert acts[..|acts|] == acts;
    }

    /** Returning and unwinding both drop a port still in hand. */
    method Finish()
      modifies this, handler
      ensures Now() == Leave(port, old(Now()))
    {
      if held {
        held := false;
        handler.Send(port, Failure);
      }
    }
  }

  lemma {:induction false} PerformNext(env: Env, p: Port, sc: Scene, acts: seq<Act>, i: nat)
    requires i < |acts|
    ensures PerformAll(env, p, sc, acts[..i + 1]) == Perform(env, p, PerformAll(env, p, sc, acts[..i]), acts[i])
  {
    assert acts[..i + 1][..i] == acts[..i];
  }

  function Walk(env: Env, n: nat): set<Token> -> seq<Token> {
    (ts: set<Token>) => env.order(n, ts)
  }

  function TokensIn(ks: seq<Key>): seq<Token> {
    seq(|ks|, i requires 0 <= i < |ks| => ks[i].token)
  }

  lemma {:induction false} KeysTokens(peer: Peer, ts: seq<Token>)
    ensures TokensIn(Keys(peer, ts)) == ts
  {
  }

  class LooperCore {
    const env: Env
    const ctx: DispatchCtx
    const handler: Actor
    var exits: seq<ExitReason>
    var exited: bool
    /** The reason last given to the driver. */
    var result: Result

    ghost predicate Valid() {
      ctx.env == env && ctx.Valid()
    }

    ghost function Now(): Core
      reads this, ctx.dispatch, ctx.session.correlator, ctx.wire, handler
    {
      Core(ctx.Now(), handler.Now(), exits, exited, result)
    }

    constructor (env: Env, cap: nat)
      ensures this.env == env && Valid() && Now() == NewCore(cap)
      ensures fresh(ctx) && fresh(ctx.dispatch) && fresh(ctx.session.correlator) && fresh(ctx.wire) && fresh(handler)
    {
      this.env := env;
      ctx := new DispatchCtx(env, cap);
      handler := new Actor();
      exits, exited, result := [], false, Running;
    }

    /** Fail every tracked request, discard what is left, tell the server. */
    method RunDestruction(reason: ExitReason)
      requires Valid()
      modifies this, ctx.dispatch, ctx.session.correlator, handler
      ensures Now() == Destroy(env, old(Now()), reason)
    {
      exited := true;
      var walk := Walk(env, |ctx.dispatch.log|);
      var teardown := ctx.session.CascadeConnectionFailure(walk);
      var ks := teardown.Drain();
      assert teardown.Droppable();
      var tokens := TokensIn(ks);
      KeysTokens(env.peer, walk(old(Now()).books.cor.sessions.Keys));
      ctx.dispatch.FailTokens(env, tokens, handler);
      ctx.dispatch.Clear();
      exits := exits + [reason];
      result := Exit(reason);
    }

    method FlowToOutcome(o: Outcome) returns (r: Result)
      requires Valid()
      modifies this, ctx.dispatch, ctx.session.correlator, handler
      ensures Now() == Engine.Finish(env, old(Now()), o)
      ensures r == if o == Continue then Running else result
    {
      match o {
        case Continue => return Running;
        case Stop => RunDestruction(Graceful);
        case Panic => RunDestruction(Crashed);
      }
      return result;
    }

    /** Any callback that takes the handler alone. An exited core runs none. */
    method DispatchCallback() returns (r: Result)
      requires Valid()
      modifies this, ctx.dispatch, ctx.session.correlator, handler
      ensures old(exited) ==> Now() == old(Now()) && r == Exit(Crashed)
      ensures !old(exited) ==> Now() == Callback(env, old(Now()))
      ensures !old(exited) ==> r == if env.outcome(|old(handler.trace)|) == Continue then Running else result
    {
      if exited {
        return Exit(Crashed);
      }
      var o := handler.Invoke(env, Plain);
      r := FlowToOutcome(o);
    }

    /** The connection is lost. A handler that stops has the reason corrected, so the server hears two. */
    method ConnectionLost() returns (r: Result)
      requires Valid() && !exited && result == Running
      modifies this, ctx.dispatch, ctx.session.correlator, handler
      ensures env.outcome(|old(handler.trace)|) == Continue ==> Now() == Callback(env, old(Now())) && r == Running
      ensures env.outcome(|old(handler.trace)|) != Continue ==> Now() == Close(env, old(Now())) && r == result
    {
      r := DispatchCallback();
      if r == Exit(Graceful) {
        exits := exits + [Disconnected];
        result := Exit(Disconnected);
        return result;
      }
    }

    /** The driver's part: a handler that goes on after a disconnect is stopped all the same. */
    method HandleClosed() returns (r: Result)
      requires Valid() && !exited && result == Running
      modifies this, ctx.dispatch, ctx.session.correlator, handler
      ensures Now() == Close(env, old(Now())) && r == result && r.Exit?
    {
      r := ConnectionLost();
      if r == Running {
        RunDestruction(Disconnected);
        r := result;
      }
    }

    method ProcessSyncRequest(s: Session)
      requires Valid()
      modifies ctx.dispatch, ctx.session.correlator, ctx.wire
      ensures Now() == Step(env, old(Now()), SyncSend(s))
    {
      var d := ctx.InstallAndSend(s, Sync);
    }

    method DispatchNotification(s: Session, body: Body) returns (r: Result)
      requires Valid() && !exited && result == Running
      modifies this, ctx.dispatch, ctx.session.correlator, handler
      ensures Now() == Notify(env, old(Now()), s, body) && r == result
    {
      if !env.listens(s) || body == WrongTag {
        return Running;
      }
      if body == Malformed {
        r := FlowToOutcome(Panic);
      } else {
        r := DispatchCallback();
      }
    }

    method RunRequest(p: Port) returns (o: Outcome)
      requires Valid()
      modifies ctx.dispatch, ctx.session.correlator, ctx.wire, handler
      ensures var sc := Receive(env, old(Now()).books, old(Now()).ledger, p);
              Now() == old(Now()).(books := sc.books, ledger := sc.ledger)
              && o == if sc.ok then env.outcome(|old(handler.trace)|) else Panic
    {
      var call := |handler.trace|;
      handler.trace := handler.trace + [OnRequest(p)];
      handler.handed := handler.handed + [p];
      var scene := new RequestScene(ctx, handler, p);
      scene.DoAll(env.acts(call));
      scene.Finish();
      o := if scene.ok then env.outcome(call) else Panic;
    }

    method DispatchRequest(p: Port, body: Body) returns (r: Result)
      requires Valid() && !exited && result == Running
      modifies this, ctx.dispatch, ctx.session.correlator, ctx.wire, handler
      ensures Now() == Request(env, old(Now()), p, body) && r == result
    {
      if !env.serves(p.session) || body != Good {
        handler.handed := handler.handed + [p];
        handler.Send(p, Failure);
        return Running;
      }
      var o := RunRequest(p);
      r := FlowToOutcome(o);
    }

    /** A Reply or Failed frame, matched by token alone. */
    method Settle(t: Token, v: Verdict) returns (r: Result)
      requires Valid() && !exited && result == Running
      modifies this, ctx.dispatch, ctx.session.correlator, handler
      ensures Now() == Conclude(env, old(Now()), t, v) && r == result
    {
      var fired := ctx.dispatch.Fire(env, Key(env.peer, t), v, handler);
      if fired.Nothing? {
        return Running;
      }
      if fired.outcome != Panic {
        ctx.session.correlator.RecordResolution(t);
      }
      r := FlowToOutcome(fired.outcome);
    }

    method DispatchReply(t: Token) returns (r: Result)
      requires Valid() && !exited && result == Running
      modifies this, ctx.dispatch, ctx.session.correlator, handler
      ensures Now() == Step(env, old(Now()), ReplyTo(t)) && r == result
    {
      r := Settle(t, Replied);
    }

    method DispatchFailed(t: Token) returns (r: Result)
      requires Valid() && !exited && result == Running
      modifies this, ctx.dispatch, ctx.session.correlator, handler
      ensures Now() == Step(env, old(Now()), FailureOf(t)) && r == result
    {
      r := Settle(t, Failed);
    }

    /** The callbacks of a cascade cannot end the looper. */
    method DispatchTeardown(s: Session)
      requires Valid()
      modifies ctx.dispatch, ctx.session.correlator, handler
      ensures Now() == Teardown(env, old(Now()), s)
    {
      var walk := Walk(env, |ctx.dispatch.log|);
      var teardown := ctx.session.CascadeSessionFailure(s, walk);
      var ks := teardown.Drain();
      assert teardown.Droppable();
      KeysTokens(env.peer, walk(TokensOf(old(Now()).books.cor, s)));
      ctx.dispatch.FailTokens(env, TokensIn(ks), handler);
    }

    method Perform(op: Op) returns (r: Result)
      requires Valid() && !exited && result == Running
      modifies this, ctx.dispatch, ctx.session.correlator, ctx.wire, handler
      ensures Now() == Step(env, old(Now()), op) && r == result
    {
      r := Running;
      match op
      case Call => r := DispatchCallback();
      case Notice(s, body) => r := DispatchNotification(s, body);
      case Asked(p, body) => r := DispatchRequest(p, body);
      case SyncSend(s) => ProcessSyncRequest(s);
      case ReplyTo(t) => r := DispatchReply(t);
      case FailureOf(t) => r := DispatchFailed(t);
      case TeardownOf(s) => DispatchTeardown(s);
      case Closed => r := HandleClosed();
      case Broken =>
        RunDestruction(InfraError);
        r := result;
    }

    /** Serve a closed channel's messages one by one until something ends the looper; then drop the handler. */
    method Run(cap: nat, messages: seq<Op>) returns (reason: ExitReason)
      requires Valid() && Now() == NewCore(cap)
      modifies this, ctx.dispatch, ctx.session.correlator, ctx.wire, handler
      ensures var c := Engine.Run(env, cap, messages + [Closed]);
              Now() == c.(ledger := Shutdown(c.ledger)) && c.exited && c.result == Exit(reason)
    {
      var ops := messages + [Closed];
      var i := 0;
      while i < |ops| && result == Running
        invariant i <= |ops| && Now() == Engine.Run(env, cap, ops[..i])
        invariant result == Running <==> !exited
        invariant i == |ops| ==> exited
      {
        RunNext(env, NewCore(cap), ops, i);
        StepResult(env, Now(), ops[i]);
        var r := Perform(ops[i]);
        i := i + 1;
      }
      RunStopped(env, NewCore(cap), ops, i);
      reason := result.reason;
      handler.Drop();
    }
  }

  lemma {:induction false} RunNext(env: Env, c: Core, ops: seq<Op>, i: nat)
    requires i < |ops| && !From(env, c, ops[..i]).exited
    ensures From(env, c, ops[..i + 1]) == Step(env, From(env, c, ops[..i]), ops[i])
  {
    assert ops[..i + 1][..i] == ops[..i];
  }

  /** A step reports a reason exactly when it ended the looper. */
  lemma {:induction false} StepResult(env: Env, c: Core, op: Op)
    requires c.result == Running && !c.exited
    ensures Step(env, c, op).result.Exit? <==> Step(env, c, op).exited
    ensures op == Closed ==> Step(env, c, op).exited
  {
  }

  lemma {:induction false} RunStopped(env: Env, c: Core, ops: seq<Op>, i: nat)
    requires i <= |ops| && From(env, c, ops[..i]).exited
    ensures From(env, c, ops) == From(env, c, ops[..i])
    decreases |ops| - i
  {
    if i < |ops| {
      assert ops[..i + 1][..i] == ops[..i];
      RunStopped(env, c, ops, i + 1);
    } else {
      assert ops[..i] == ops;
    }
  }
}
