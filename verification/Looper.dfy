/** The looper that collects messages into a batch and dispatches it phase by phase. */
module Looper {
  import opened Engine
  import opened LooperCore
  import opened Scheduler
  import opened SchedulerTheorems
  import opened LooperTheorems

  class Buckets {
    var syncs: seq<Session>
    var replies: seq<Token>
    var failed: seq<Token>
    var teardowns: seq<Session>
    var departed: seq<nat>
    var connected: seq<Session>
    var lifecycle: seq<nat>
    var requests: seq<Item>
    var notices: seq<Item>
    var revoked: set<Session>
    var ctl: seq<Session>
    var handoff: Handoff
    var closed: bool

    function Now(): Batch
      reads this
    {
      Batch(syncs, replies, failed, teardowns, departed, connected, lifecycle, requests, notices, revoked, ctl, handoff,
            closed)
    }

    constructor ()
      ensures Now() == NO_BATCH
    {
      syncs, replies, failed, teardowns, departed, connected, lifecycle := [], [], [], [], [], [], [];
      requests, notices, revoked, ctl, handoff, closed := [], [], {}, [], NoHandoff, false;
    }

    predicate IsEmpty()
      reads this
      ensures IsEmpty() <==> Empty(Now())
    {
      && syncs == [] && replies == [] && failed == [] && teardowns == [] && departed == [] && connected == []
      && lifecycle == [] && requests == [] && notices == [] && ctl == []
      && handoff == NoHandoff && !closed
    }

    method AddWork(x: Item)
      modifies this`requests, this`notices
      ensures Now() == Collect(old(Now()), Work(x))
    {
      if x.Ask? {
        requests := requests + [x];
      } else {
        notices := notices + [x];
      }
    }

    /** The first revocation of a session queues its wire frame. */
    method Revoke(s: Session)
      modifies this`revoked, this`ctl
      ensures Now() == Collect(old(Now()), LocalRevoke(s))
    {
      if s !in revoked {
        revoked := revoked + {s};
        ctl := ctl + [s];
      }
    }

    /** A message for the framework phases. */
    method AddFramework(m: Message)
      requires !m.Work? && !m.LocalRevoke?
      modifies this
      ensures Now() == Collect(old(Now()), m)
    {
      match m
      case SyncCall(s) => syncs := syncs + [s];
      case LifecycleEvent(x) => lifecycle := lifecycle + [x];
      case ServiceTeardown(s) => teardowns := teardowns + [s];
      case PaneExited(a) => departed := departed + [a];
      case InterestAccepted(s) => connected := connected + [s];
      case ReplyFrame(_, t) => replies := replies + [t];
      case FailedFrame(_, t) => failed := failed + [t];
      case NewConnection(id) => handoff := Handoff(id);
      case Ignored =>
      case ChannelClosed => closed := true;
    }

    method Add(m: Message)
      modifies this
      ensures Now() == Collect(old(Now()), m)
    {
      if m.Work? {
        AddWork(m.item);
      } else if m.LocalRevoke? {
        Revoke(m.session);
      } else {
        AddFramework(m);
      }
    }

    method EmptyObligations()
      modifies this`syncs, this`replies, this`failed, this`teardowns
      ensures syncs == [] && replies == [] && failed == [] && teardowns == []
    {
      syncs, replies, failed, teardowns := [], [], [], [];
    }

    method EmptyFramework()
      modifies this`syncs, this`replies, this`failed, this`teardowns, this`departed, this`connected, this`lifecycle,
          this`ctl, this`handoff
      ensures Now() == Inbound(old(Now()))
    {
      EmptyObligations();
      departed, connected, lifecycle := [], [], [];
      ctl, handoff := [], NoHandoff;
    }

    /** Discard all events; revocations and the closed channel are not events. */
    method Discard()
      modifies this
      ensures Now() == Cleared(old(Now()))
    {
      EmptyFramework();
      requests, notices := [], [];
    }
  }

  /** Events that precede the outcome of serving the rest of a queue. */
  function Prepend(events: seq<Event>, r: Served): Served {
    r.(events := events + r.events)
  }

  lemma {:induction false} PrependNext(events: seq<Event>, e: Event, r: Served)
    ensures Prepend(events + [e], r) == Prepend(events, After(e, r))
  {
    assert events + [e] + r.events == events + ([e] + r.events);
  }

  class Looper {
    const env: Env
    const world: World
    const core: LooperCore
    const batch: Buckets
    var sent: seq<Session>
    var taken: seq<nat>
    var ticks: nat
    ghost var history: seq<Event>

    ghost predicate Valid()
      reads core
    {
      core.env == env && core.Valid() && (core.result == Running <==> !core.exited)
    }

    ghost function Now(): Loop
      reads this, batch, core, core.ctx.dispatch, core.ctx.session.correlator, core.ctx.wire, core.handler
    {
      Loop(batch.Now(), core.Now(), history, sent, taken, ticks)
    }

    constructor (env: Env, world: World, cap: nat)
      ensures this.env == env && this.world == world && Valid() && Now() == NewLoop(cap)
      ensures fresh(core) && fresh(batch) && fresh(core.ctx) && fresh(core.handler)
      ensures fresh(core.ctx.dispatch) && fresh(core.ctx.session.correlator) && fresh(core.ctx.wire)
    {
      this.env, this.world := env, world;
      core := new LooperCore(env, cap);
      batch := new Buckets();
      sent, taken, ticks := [], [], 0;
      history := [];
    }

    /** Dispatch the messages of one phase until one of them ends the looper. */
    method RunPhase(ops: seq<Op>)
      requires Valid()
      modifies core, core.ctx.dispatch, core.ctx.session.correlator, core.ctx.wire, core.handler
      ensures Valid() && core.Now() == From(env, old(core.Now()), ops)
    {
      var i := 0;
      while i < |ops| && core.result == Running
        invariant i <= |ops| && Valid() && core.Now() == From(env, old(core.Now()), ops[..i])
      {
        RunNext(env, old(core.Now()), ops, i);
        StepResult(env, core.Now(), ops[i]);
        var _ := core.Perform(ops[i]);
        i := i + 1;
      }
      if core.result == Running {
        assert ops[..i] == ops;
      } else {
        RunStopped(env, old(core.Now()), ops, i);
      }
    }

    method RunTwo(a: seq<Op>, b: seq<Op>)
      requires Valid()
      modifies core, core.ctx.dispatch, core.ctx.session.correlator, core.ctx.wire, core.handler
      ensures Valid() && core.Now() == From(env, old(core.Now()), a + b)
    {
      FromConcat(env, core.Now(), a, b);
      RunPhase(a);
      RunPhase(b);
    }

    /** Failed frames, teardowns, then the other callbacks. */
    method RunThree(a: seq<Op>, b: seq<Op>, c: seq<Op>, ghost ops: seq<Op>)
      requires Valid() && ops == a + b + c
      modifies core, core.ctx.dispatch, core.ctx.session.correlator, core.ctx.wire, core.handler
      ensures Valid() && core.Now() == From(env, old(core.Now()), ops)
    {
      FromConcat(env, core.Now(), a + b, c);
      RunTwo(a, b);
      RunPhase(c);
    }

    method RunFirst(b: Batch)
      requires Valid()
      modifies core, core.ctx.dispatch, core.ctx.session.correlator, core.ctx.wire, core.handler
      ensures Valid() && core.Now() == From(env, old(core.Now()), FirstOps(b))
    {
      RunTwo(SyncOps(b.syncs), ReplyOps(b.replies));
    }

    method RunLater(b: Batch)
      requires Valid()
      modifies core, core.ctx.dispatch, core.ctx.session.correlator, core.ctx.wire, core.handler
      ensures Valid() && core.Now() == From(env, old(core.Now()), LaterOps(b))
    {
      RunThree(FailureOps(b.failed), TeardownOps(b.teardowns), Calls(|b.departed| + |b.connected| + |b.lifecycle|),
               LaterOps(b));
    }

    /** Phases 0 to 3, in order: synchronous requests and replies come before anything can fail a request. */
    method RunFramework()
      requires Valid()
      modifies core, core.ctx.dispatch, core.ctx.session.correlator, core.ctx.wire, core.handler
      ensures Valid() && core.Now() == From(env, old(core.Now()), FrameworkOps(batch.Now()))
    {
      FromConcat(env, core.Now(), FirstOps(batch.Now()), LaterOps(batch.Now()));
      RunFirst(batch.Now());
      RunLater(batch.Now());
    }

    /** Serve a queue from the front within the budget; revoked sessions are skipped for free. */
    method ServeQueue(items: seq<Item>, start: nat) returns (rest: seq<Item>, n: nat, ghost events: seq<Event>)
      requires Valid() && !core.exited
      modifies core, core.ctx.dispatch, core.ctx.session.correlator, core.ctx.wire, core.handler
      ensures Valid()
      ensures Serve(env, world, ticks, batch.revoked, old(core.Now()), items, start)
           == Served(core.Now(), rest, events, n)
    {
      var i := 0;
      n := start;
      events := [];
      while i < |items|
        invariant i <= |items| && Valid() && !core.exited
        invariant Serve(env, world, ticks, batch.revoked, old(core.Now()), items, start)
               == Prepend(events, Serve(env, world, ticks, batch.revoked, core.Now(), items[i..], n))
      {
        var x := items[i];
        ghost var c := core.Now();
        assert items[i..][0] == x && items[i..][1..] == items[i + 1..];
        i := i + 1;
        if SessionOf(x) in batch.revoked {
          PrependNext(events, Skipped(x), Serve(env, world, ticks, batch.revoked, c, items[i..], n));
          events := events + [Skipped(x)];
          continue;
        }
        StepResult(env, c, OpOf(x));
        var r := core.Perform(OpOf(x));
        n := n + 1;
        if r != Running || n >= BATCH_MSG_LIMIT || world.late(ticks, n) {
          events := events + [Handed(x)];
          return items[i..], n, events;
        }
        PrependNext(events, Handed(x), Serve(env, world, ticks, batch.revoked, core.Now(), items[i..], n));
        events := events + [Handed(x)];
      }
      assert items[i..] == [];
      assert events + [] == events;
      rest := [];
    }

    method CloseChannel()
      requires Valid() && !core.exited
      modifies this`history, batch, core, core.ctx.dispatch, core.ctx.session.correlator, core.handler
      ensures Valid() && Now() == EndOfChannel(env, old(Now()))
    {
      if batch.closed {
        StepResult(env, core.Now(), Closed);
        batch.closed := false;
        var _ := core.HandleClosed();
        history := history + [Closing];
      }
    }

    method ServeNotifications(start: nat) returns (rest: seq<Item>, ghost r: Served)
      requires Valid() && !core.exited
      modifies this`history, core, core.ctx.dispatch, core.ctx.session.correlator, core.ctx.wire, core.handler
      ensures Valid() && r == ServeNotices(env, world, old(Now()), start) && rest == r.rest
      ensures Now() == old(Now()).(core := r.core, history := old(history) + r.events)
    {
      var n;
      ghost var events;
      rest, n, events := ServeQueue(batch.notices, start);
      history := history + events;
      r := Served(core.Now(), rest, events, n);
    }

    method DispatchNotices(start: nat)
      requires Valid() && !core.exited
      modifies this`history, batch, core, core.ctx.dispatch, core.ctx.session.correlator, core.ctx.wire, core.handler
      ensures Valid() && Now() == PhaseFiveNotices(env, world, old(Now()), start)
    {
      ghost var r;
      var rest;
      rest, r := ServeNotifications(start);
      if core.exited {
        batch.Discard();
        return;
      }
      batch.notices := rest;
      if rest == [] {
        CloseChannel();
      }
    }

    /** Requests first; notifications only if no request is left over. */
    method DispatchInbound()
      requires Valid() && !core.exited
      modifies this`history, batch, core, core.ctx.dispatch, core.ctx.session.correlator, core.ctx.wire, core.handler
      ensures Valid() && Now() == PhaseFive(env, world, old(Now()))
    {
      ghost var events;
      var rest, n;
      rest, n, events := ServeQueue(batch.requests, 0);
      history := history + events;
      if core.exited {
        batch.Discard();
        return;
      }
      batch.requests := rest;
      if rest == [] {
        DispatchNotices(n);
      }
    }

    /** Register the connection handed over, if there is one and it can be. */
    method TakeOver()
      modifies this`taken, this`history
      ensures taken == old(taken) + TakenOver(world, batch.handoff)
      ensures history == old(history) + Handover(world, batch.handoff)
    {
      if batch.handoff.Handoff? && world.registers(batch.handoff.id) {
        taken := taken + [batch.handoff.id];
        history := history + [TookOver(batch.handoff.id)];
      }
    }

    /** One batch in phase order; an exit in any phase discards the rest. */
    method Dispatch()
      requires Valid() && !core.exited
      modifies this`history, this`sent, this`taken, batch, core, core.ctx.dispatch, core.ctx.session.correlator,
          core.ctx.wire, core.handler
      ensures Valid() && Now() == DispatchBatch(env, world, old(Now()))
    {
      RunFramework();
      if core.exited {
        batch.Discard();
        return;
      }
      TakeOver();
      sent := sent + batch.ctl;
      batch.EmptyFramework();
      DispatchInbound();
    }

    method CollectAll(ms: seq<Message>)
      modifies this`history, batch
      ensures Now() == Poll(old(Now()), ms)
    {
      for i := 0 to |ms|
        invariant Now() == Poll(old(Now()), ms[..i])
      {
        PollNext(old(Now()), ms, i);
        batch.Add(ms[i]);
        history := history + Heard(ms[i]);
      }
      assert ms[..|ms|] == ms;
    }

    method DoTick(ms: seq<Message>)
      requires Valid() && !core.exited
      modifies this`history, this`sent, this`taken, this`ticks, batch
      modifies core, core.ctx.dispatch, core.ctx.session.correlator, core.ctx.wire, core.handler
      ensures Valid() && Now() == Tick(env, world, old(Now()), ms)
    {
      CollectAll(ms);
      PollKeepsCore(old(Now()), ms);
      if !batch.IsEmpty() {
        Dispatch();
      }
      ticks := ticks + 1;
    }

    /** A failed poll ends the looper; what it had collected is lost. */
    method FailPoll(ms: seq<Message>)
      requires Valid() && !core.exited
      modifies this`history, batch, core, core.ctx.dispatch, core.ctx.session.correlator, core.handler
      ensures Valid() && Now() == Turn(env, world, old(Now()), PollFailed(ms))
    {
      CollectAll(ms);
      PollKeepsCore(old(Now()), ms);
      core.RunDestruction(InfraError);
    }

    method DoTurn(round: Round)
      requires Valid() && !core.exited
      modifies this`history, this`sent, this`taken, this`ticks, batch
      modifies core, core.ctx.dispatch, core.ctx.session.correlator, core.ctx.wire, core.handler
      ensures Valid() && Now() == Turn(env, world, old(Now()), round)
    {
      match round
      case Messages(ms) => DoTick(ms);
      case PollFailed(ms) => FailPoll(ms);
    }

    /** Turn after turn until something ends the looper; then the handler is dropped. */
    method Run(cap: nat, rounds: seq<Round>) returns (r: Result)
      requires Valid() && Now() == NewLoop(cap)
      modifies this`history, this`sent, this`taken, this`ticks, batch
      modifies core, core.ctx.dispatch, core.ctx.session.correlator, core.ctx.wire, core.handler
      ensures var st := RunLooper(env, world, cap, rounds);
              && r == st.core.result
              && (r.Exit? <==> st.core.exited)
              && Now() == if r.Exit? then st.(core := st.core.(ledger := Shutdown(st.core.ledger))) else st
    {
      var i := 0;
      while i < |rounds| && core.result == Running
        invariant i <= |rounds| && Valid() && Now() == RunLooper(env, world, cap, rounds[..i])
      {
        assert rounds[..i + 1][..i] == rounds[..i];
        DoTurn(rounds[i]);
        i := i + 1;
      }
      TicksStopped(env, world, NewLoop(cap), rounds, i);
      r := core.result;
      if r != Running {
        core.handler.Drop();
      }
    }
  }

  lemma {:induction false} PollNext(st: Loop, ms: seq<Message>, i: nat)
    requires i < |ms|
    ensures Poll(st, ms[..i + 1]) == Take(Poll(st, ms[..i]), ms[i])
  {
    assert ms[..i + 1][..i] == ms[..i];
  }

  lemma {:induction false} TicksStopped(env: Env, world: World, st: Loop, rounds: seq<Round>, i: nat)
    requires i <= |rounds| && (i == |rounds| || Ticks(env, world, st, rounds[..i]).core.exited)
    ensures Ticks(env, world, st, rounds) == Ticks(env, world, st, rounds[..i])
    decreases |rounds| - i
  {
    if i < |rounds| {
      assert rounds[..i + 1][..i] == rounds[..i];
      TicksStopped(env, world, st, rounds, i + 1);
    } else {
      assert rounds[..i] == rounds;
    }
  }
}
