/** The engine under the scheduler: what holds of whole looper runs. */
module LooperTheorems {
  import opened Engine
  import opened EngineAnswers
  import opened EngineBooks
  import opened EngineCallbacks
  import opened EngineTheorems
  import opened EngineObligations
  import opened EngineVerdicts
  import opened Scheduler
  import opened SchedulerPhases
  import opened SchedulerPolicies
  import opened SchedulerTheorems

  // ---- every looper run is a run of the engine ----

  lemma {:induction false} FromConcat(env: Env, c: Core, a: seq<Op>, b: seq<Op>)
    ensures From(env, c, a + b) == From(env, From(env, c, a), b)
  {
    if b == [] {
      assert a + b == a;
    } else {
      assert (a + b)[..|a + b| - 1] == a + b[..|b| - 1];
      FromConcat(env, c, a, b[..|b| - 1]);
    }
  }

  lemma {:induction false} FromFirst(env: Env, c: Core, op: Op, ops: seq<Op>)
    requires !c.exited
    ensures From(env, c, [op] + ops) == From(env, Step(env, c, op), ops)
  {
    FromConcat(env, c, [op], ops);
    assert [op][..0] == [];
    assert From(env, c, [op][..0]) == c;
  }

  /** The engine's operations in serving a queue. */
  function ServeOps(
    env: Env, world: World, tick: nat, revoked: set<Session>, c: Core, items: seq<Item>, n: nat): seq<Op>
    decreases |items|
  {
    if items == [] then []
    else
      var x, rest := items[0], items[1..];
      var next := Step(env, c, OpOf(x));
      if SessionOf(x) in revoked then ServeOps(env, world, tick, revoked, c, rest, n)
      else if next.exited || n + 1 >= BATCH_MSG_LIMIT || world.late(tick, n + 1) then [OpOf(x)]
      else [OpOf(x)] + ServeOps(env, world, tick, revoked, next, rest, n + 1)
  }

  function NoticeOps(env: Env, world: World, st: Loop, n: nat): seq<Op> {
    var r := ServeNotices(env, world, st, n);
    ServeOps(env, world, st.ticks, st.batch.revoked, st.core, st.batch.notices, n)
    + if !r.core.exited && r.rest == [] && st.batch.closed then [Closed] else []
  }

  function InboundOps(env: Env, world: World, st: Loop): seq<Op> {
    var r := ServeRequests(env, world, st);
    var served := ServeOps(env, world, st.ticks, st.batch.revoked, st.core, st.batch.requests, 0);
    if r.core.exited || r.rest != [] then served
    else served + NoticeOps(env, world, RequestsServed(st, r), r.dispatched)
  }

  /** What follows the framework phases of a batch. */
  function RestOps(env: Env, world: World, st: Loop): seq<Op> {
    if From(env, st.core, FrameworkOps(st.batch)).exited then [] else InboundOps(env, world, Middle(env, world, st))
  }

  function TurnOps(env: Env, world: World, st: Loop, round: Round): seq<Op> {
    match round
    case PollFailed(_) => [Broken]
    case Messages(ms) =>
      var polled := Poll(st, ms);
      if Empty(polled.batch) then [] else FrameworkOps(polled.batch) + RestOps(env, world, polled)
  }

  /** The engine's operations in a run of the looper. */
  function LooperOps(env: Env, world: World, cap: nat, rounds: seq<Round>): seq<Op> {
    if rounds == [] then []
    else
      var init := rounds[..|rounds| - 1];
      var before := RunLooper(env, world, cap, init);
      LooperOps(env, world, cap, init)
      + if before.core.exited then [] else TurnOps(env, world, before, rounds[|rounds| - 1])
  }

  lemma {:induction false} FromOne(env: Env, c: Core, op: Op)
    requires !c.exited
    ensures From(env, c, [op]) == Step(env, c, op)
  {
    assert [op][..0] == [];
    assert From(env, c, [op][..0]) == c;
  }

  lemma {:induction false} ServeRuns(
    env: Env, world: World, tick: nat, revoked: set<Session>, c: Core, items: seq<Item>, n: nat)
    requires !c.exited
    ensures Serve(env, world, tick, revoked, c, items, n).core
         == From(env, c, ServeOps(env, world, tick, revoked, c, items, n))
    decreases |items|
  {
    if items != [] {
      var x, rest := items[0], items[1..];
      var next := Step(env, c, OpOf(x));
      if SessionOf(x) in revoked {
        ServeRuns(env, world, tick, revoked, c, rest, n);
      } else if next.exited || n + 1 >= BATCH_MSG_LIMIT || world.late(tick, n + 1) {
        FromOne(env, c, OpOf(x));
      } else {
        ServeRuns(env, world, tick, revoked, next, rest, n + 1);
        FromFirst(env, c, OpOf(x), ServeOps(env, world, tick, revoked, next, rest, n + 1));
      }
    }
  }

  lemma {:induction false} NoticesRun(env: Env, world: World, st: Loop, n: nat)
    requires !st.core.exited
    ensures PhaseFiveNotices(env, world, st, n).core == From(env, st.core, NoticeOps(env, world, st, n))
  {
    var r := ServeNotices(env, world, st, n);
    var served := ServeOps(env, world, st.ticks, st.batch.revoked, st.core, st.batch.notices, n);
    ServeRuns(env, world, st.ticks, st.batch.revoked, st.core, st.batch.notices, n);
    if !r.core.exited && r.rest == [] && st.batch.closed {
      FromConcat(env, st.core, served, [Closed]);
      FromOne(env, r.core, Closed);
    } else {
      assert served + [] == served;
    }
  }

  lemma {:induction false} PhaseFiveRuns(env: Env, world: World, st: Loop)
    requires !st.core.exited
    ensures PhaseFive(env, world, st).core == From(env, st.core, InboundOps(env, world, st))
  {
    var r := ServeRequests(env, world, st);
    ServeRuns(env, world, st.ticks, st.batch.revoked, st.core, st.batch.requests, 0);
    if !r.core.exited && r.rest == [] {
      var served := ServeOps(env, world, st.ticks, st.batch.revoked, st.core, st.batch.requests, 0);
      NoticesRun(env, world, RequestsServed(st, r), r.dispatched);
      FromConcat(env, st.core, served, NoticeOps(env, world, RequestsServed(st, r), r.dispatched));
    }
  }

  lemma {:induction false} DispatchRuns(env: Env, world: World, st: Loop)
    requires !st.core.exited
    ensures DispatchBatch(env, world, st).core == From(env, st.core, FrameworkOps(st.batch) + RestOps(env, world, st))
  {
    FromConcat(env, st.core, FrameworkOps(st.batch), RestOps(env, world, st));
    if !From(env, st.core, FrameworkOps(st.batch)).exited {
      PhaseFiveRuns(env, world, Middle(env, world, st));
    }
  }

  lemma {:induction false} TurnRuns(env: Env, world: World, st: Loop, round: Round)
    requires !st.core.exited
    ensures Turn(env, world, st, round).core == From(env, st.core, TurnOps(env, world, st, round))
  {
    PollKeepsCore(st, round.messages);
    match round
    case Messages(ms) =>
      if !Empty(Poll(st, ms).batch) {
        DispatchRuns(env, world, Poll(st, ms));
      }
    case PollFailed(_) => FromOne(env, st.core, Broken);
  }

  /** Every run of the looper is a run of the engine. */
  lemma {:induction false} LooperRuns(env: Env, world: World, cap: nat, rounds: seq<Round>)
    ensures RunLooper(env, world, cap, rounds).core == Run(env, cap, LooperOps(env, world, cap, rounds))
  {
    if rounds != [] {
      var init, round := rounds[..|rounds| - 1], rounds[|rounds| - 1];
      LooperRuns(env, world, cap, init);
      var before, done := RunLooper(env, world, cap, init), LooperOps(env, world, cap, init);
      if before.core.exited {
        assert done + [] == done;
      } else {
        TurnRuns(env, world, before, round);
        FromConcat(env, NewCore(cap), done, TurnOps(env, world, before, round));
      }
    }
  }

  /** Exactly-once resolution for the batched looper: whatever arrives, in whatever rounds. */
  lemma {:induction false} LooperResolvesOnce(env: Env, world: World, cap: nat, rounds: seq<Round>, t: Token)
    requires env.Fair()
    ensures var c, k := RunLooper(env, world, cap, rounds).core, Key(env.peer, t);
            && Times(c.books.tab.log, k) == (if t < c.books.cor.next && t !in c.books.cor.sessions then 1 else 0)
            && c.books.tab.dropped == {}
            && (c.exited ==> t !in c.books.cor.sessions)
  {
    LooperRuns(env, world, cap, rounds);
    ExactlyOnce(env, cap, LooperOps(env, world, cap, rounds), t);
  }

  /** The verdicts for the batched looper: rolled back, replied to, or failed for want of either. */
  lemma {:induction false} LooperVerdicts(env: Env, world: World, cap: nat, rounds: seq<Round>, t: Token)
    requires env.Fair()
    ensures var c, k := RunLooper(env, world, cap, rounds).core, Key(env.peer, t);
            var ops := LooperOps(env, world, cap, rounds);
            && (Note(k, RolledBack) in c.books.tab.log <==> RefusedIn(env, NewCore(cap), ops, t))
            && (Note(k, Replied) in c.books.tab.log <==> RepliedIn(env, NewCore(cap), ops, t))
            && (Note(k, Failed) in c.books.tab.log <==>
                 t < c.books.cor.next && t !in c.books.cor.sessions
                 && !RefusedIn(env, NewCore(cap), ops, t) && !RepliedIn(env, NewCore(cap), ops, t))
  {
    LooperRuns(env, world, cap, rounds);
    VerdictsExact(env, cap, LooperOps(env, world, cap, rounds), t);
  }

  /**
   The callbacks of the batched looper: that of a request a handler sent runs exactly once, for the verdict its request
   came to, and not at all if there is none yet; no other callback ever runs.
   */
  lemma {:induction false} LooperCallbacks(env: Env, world: World, cap: nat, rounds: seq<Round>, t: Token)
    ensures var c, k := RunLooper(env, world, cap, rounds).core, Key(env.peer, t);
            var mine := t in IssuedIn(env, NewCore(cap), LooperOps(env, world, cap, rounds));
            && Count(c.ledger.trace, OnReply(t)) == (if mine && Note(k, Replied) in c.books.tab.log then 1 else 0)
            && Count(c.ledger.trace, OnFailed(t)) == (if mine && Note(k, Failed) in c.books.tab.log then 1 else 0)
  {
    LooperRuns(env, world, cap, rounds);
    CallbacksExact(env, cap, LooperOps(env, world, cap, rounds), t);
  }

  /**
   Handing over an item calls the handler exactly if its body is well formed and its session has someone to take it; a
   malformed notification that has ends the looper with a crash.
   */
  lemma {:induction false} HandedCalls(env: Env, c: Core, x: Item)
    requires !c.exited
    ensures Direct(Step(env, c, OpOf(x)).ledger.trace)
         == Direct(c.ledger.trace)
            + match x
              case Ask(p, body) => if env.serves(p.session) && body == Good then [OnRequest(p)] else []
              case Tell(s, body) => if env.listens(s) && body == Good then [Plain] else []
    ensures x.Tell? && x.body != Good ==>
              Step(env, c, OpOf(x)).exits
              == c.exits + if env.listens(x.to) && x.body == Malformed then [Crashed] else []
  {
    StepDirect(env, c, OpOf(x));
    StepEnds(env, c, OpOf(x));
  }

  // ---- the end of the channel ----

  lemma {:induction false} TicksConcat(env: Env, world: World, st: Loop, a: seq<Round>, b: seq<Round>)
    ensures Ticks(env, world, st, a + b) == Ticks(env, world, Ticks(env, world, st, a), b)
  {
    if b == [] {
      assert a + b == a;
    } else {
      assert (a + b)[..|a + b| - 1] == a + b[..|b| - 1];
      TicksConcat(env, world, st, a, b[..|b| - 1]);
    }
  }

  lemma {:induction false} StaysExited(env: Env, world: World, st: Loop, rounds: seq<Round>)
    requires st.core.exited
    ensures Ticks(env, world, st, rounds) == st
  {
    if rounds != [] {
      StaysExited(env, world, st, rounds[..|rounds| - 1]);
    }
  }

  /** A round that brings the end of the channel. */
  lemma {:induction false} CloseHeard(env: Env, world: World, cap: nat, rounds: seq<Round>, ms: seq<Message>)
    requires ChannelClosed in ms
    ensures var r := RunLooper(env, world, cap, rounds + [Messages(ms)]);
            r.core.exited || (r.batch.closed && Pending(r.batch) > 0)
  {
    assert (rounds + [Messages(ms)])[..|rounds|] == rounds;
    var before := RunLooper(env, world, cap, rounds);
    PollCloses(before, ms);
    TickProgress(env, world, before, ms);
  }

  /**
   Once a round brings the end of the channel, and nothing more arrives, the looper ends: at once, or after as many
   rounds as inbound items were left waiting.
   */
  lemma {:induction false} DisconnectEnds(
    env: Env, world: World, cap: nat, rounds: seq<Round>, ms: seq<Message>, quiet: seq<Round>)
    requires ChannelClosed in ms && forall i :: 0 <= i < |quiet| ==> Quiet(quiet[i])
    requires |quiet| >= Pending(RunLooper(env, world, cap, rounds + [Messages(ms)]).batch)
    ensures RunLooper(env, world, cap, rounds + [Messages(ms)] + quiet).core.exited
  {
    var heard := RunLooper(env, world, cap, rounds + [Messages(ms)]);
    CloseHeard(env, world, cap, rounds, ms);
    TicksConcat(env, world, NewLoop(cap), rounds + [Messages(ms)], quiet);
    if heard.core.exited {
      StaysExited(env, world, heard, quiet);
    } else {
      ClosedLooperEnds(env, world, heard, quiet);
    }
  }

  // ---- requests handed over are answered ----

  function HandedPorts(h: seq<Event>): seq<Port> {
    if h == [] then []
    else
      var before, e := HandedPorts(h[..|h| - 1]), h[|h| - 1];
      if e.Handed? && e.item.Ask? then before + [e.item.port] else before
  }

  lemma {:induction false} HandedConcat(a: seq<Event>, b: seq<Event>)
    ensures HandedPorts(a + b) == HandedPorts(a) + HandedPorts(b)
  {
    if b == [] {
      assert a + b == a;
    } else {
      assert (a + b)[..|a + b| - 1] == a + b[..|b| - 1];
      HandedConcat(a, b[..|b| - 1]);
    }
  }

  lemma {:induction false} HandedFirst(e: Event, b: seq<Event>)
    ensures HandedPorts([e] + b) == if e.Handed? && e.item.Ask? then [e.item.port] + HandedPorts(b) else HandedPorts(b)
  {
    HandedConcat([e], b);
    assert [e][..0] == [];
    assert HandedPorts([e][..0]) == [];
  }

  /** The ledger lists exactly these requests. */
  predicate Matches(l: Ledger, ports: seq<Port>) {
    l.handed == ports
  }

  lemma {:induction false} FrameworkMatches(env: Env, c: Core, ops: seq<Op>, ports: seq<Port>)
    requires Matches(c.ledger, ports) && forall i :: 0 <= i < |ops| ==> !ops[i].Asked?
    ensures Matches(From(env, c, ops).ledger, ports)
  {
    if ops != [] {
      var init := ops[..|ops| - 1];
      FrameworkMatches(env, c, init, ports);
      if !From(env, c, init).exited {
        StepHands(env, From(env, c, init), ops[|ops| - 1]);
      }
    }
  }

  lemma {:induction false} TeardownOpsAskNothing(ss: seq<Session>)
    ensures forall i :: 0 <= i < |TeardownOps(ss)| ==> !TeardownOps(ss)[i].Asked?
  {
    if ss != [] {
      TeardownOpsAskNothing(ss[..|ss| - 1]);
    }
  }

  lemma {:induction false} FrameworkAsksNothing(b: Batch)
    ensures forall i :: 0 <= i < |FrameworkOps(b)| ==> !FrameworkOps(b)[i].Asked?
  {
    TeardownOpsAskNothing(b.teardowns);
    assert forall i :: 0 <= i < |FirstOps(b)| ==> !FirstOps(b)[i].Asked?;
    assert forall i :: 0 <= i < |LaterOps(b)| ==> !LaterOps(b)[i].Asked?;
  }

  /** What handing over one item adds to the requests handed over. */
  function PortsOf(x: Item): seq<Port> {
    if x.Ask? then [x.port] else []
  }

  lemma {:induction false} HandMatches(env: Env, c: Core, x: Item, ports: seq<Port>)
    requires Matches(c.ledger, ports)
    ensures Matches(Step(env, c, OpOf(x)).ledger, ports + PortsOf(x))
  {
    StepHands(env, c, OpOf(x));
    assert ports + [] == ports;
  }

  lemma {:induction false} HandedNext(x: Item, events: seq<Event>, ports: seq<Port>)
    ensures ports + HandedPorts([Handed(x)] + events) == ports + PortsOf(x) + HandedPorts(events)
    ensures HandedPorts([Skipped(x)] + events) == HandedPorts(events)
  {
    HandedFirst(Handed(x), events);
    HandedFirst(Skipped(x), events);
  }

  lemma {:induction false} ServeMatches(
    env: Env, world: World, tick: nat, revoked: set<Session>, c: Core, items: seq<Item>, n: nat, ports: seq<Port>)
    requires Matches(c.ledger, ports)
    ensures Matches(Serve(env, world, tick, revoked, c, items, n).core.ledger,
                    ports + HandedPorts(Serve(env, world, tick, revoked, c, items, n).events))
    decreases |items|
  {
    if items == [] {
      assert ports + [] == ports;
    } else {
      var x, rest := items[0], items[1..];
      var next := Step(env, c, OpOf(x));
      if SessionOf(x) in revoked {
        ServeMatches(env, world, tick, revoked, c, rest, n, ports);
        HandedNext(x, Serve(env, world, tick, revoked, c, rest, n).events, ports);
      } else if next.exited || n + 1 >= BATCH_MSG_LIMIT || world.late(tick, n + 1) {
        HandMatches(env, c, x, ports);
        HandedNext(x, [], ports);
        assert [Handed(x)] + [] == [Handed(x)];
        assert ports + PortsOf(x) + [] == ports + PortsOf(x);
      } else {
        HandMatches(env, c, x, ports);
        ServeMatches(env, world, tick, revoked, next, rest, n + 1, ports + PortsOf(x));
        HandedNext(x, Serve(env, world, tick, revoked, next, rest, n + 1).events, ports);
      }
    }
  }

  predicate MatchesLoop(st: Loop) {
    Matches(st.core.ledger, HandedPorts(st.history))
  }

  /** Serving a queue, whatever becomes of the batch. */
  lemma {:induction false} ServedMatches(st: Loop, r: Served, batch: Batch)
    requires Matches(r.core.ledger, HandedPorts(st.history) + HandedPorts(r.events))
    ensures MatchesLoop(st.(core := r.core, history := st.history + r.events, batch := batch))
  {
    HandedConcat(st.history, r.events);
  }

  lemma {:induction false} EndMatches(env: Env, st: Loop)
    requires MatchesLoop(st)
    ensures MatchesLoop(EndOfChannel(env, st))
  {
    if st.batch.closed {
      StepHands(env, st.core, Closed);
      HandedConcat(st.history, [Closing]);
      HandedFirst(Closing, []);
      assert [Closing] + [] == [Closing];
    }
  }

  lemma {:induction false} NoticesMatch(env: Env, world: World, st: Loop, n: nat)
    requires MatchesLoop(st)
    ensures MatchesLoop(PhaseFiveNotices(env, world, st, n))
  {
    var r := ServeNotices(env, world, st, n);
    ServeMatches(env, world, st.ticks, st.batch.revoked, st.core, st.batch.notices, n, HandedPorts(st.history));
    if r.core.exited {
      ServedMatches(st, r, Cleared(st.batch));
    } else if r.rest != [] {
      ServedMatches(st, r, st.batch.(notices := r.rest));
    } else {
      ServedMatches(st, r, st.batch.(notices := []));
      EndMatches(env, st.(core := r.core, history := st.history + r.events, batch := st.batch.(notices := [])));
    }
  }

  lemma {:induction false} PhaseFiveMatches(env: Env, world: World, st: Loop)
    requires MatchesLoop(st)
    ensures MatchesLoop(PhaseFive(env, world, st))
  {
    var r := ServeRequests(env, world, st);
    ServeMatches(env, world, st.ticks, st.batch.revoked, st.core, st.batch.requests, 0, HandedPorts(st.history));
    if r.core.exited {
      ServedMatches(st, r, Cleared(st.batch));
    } else if r.rest != [] {
      ServedMatches(st, r, st.batch.(requests := r.rest));
    } else {
      ServedMatches(st, r, st.batch.(requests := []));
      NoticesMatch(env, world, RequestsServed(st, r), r.dispatched);
    }
  }

  lemma {:induction false} HeardHandsNoPort(h: seq<Event>, m: Message)
    ensures HandedPorts(h + Heard(m)) == HandedPorts(h)
  {
    if Heard(m) == [] {
      assert h + Heard(m) == h;
    } else {
      assert (h + Heard(m))[..|h|] == h;
    }
  }

  lemma {:induction false} PollHandsNoPort(st: Loop, ms: seq<Message>)
    ensures HandedPorts(Poll(st, ms).history) == HandedPorts(st.history)
  {
    if ms != [] {
      PollHandsNoPort(st, ms[..|ms| - 1]);
      HeardHandsNoPort(Poll(st, ms[..|ms| - 1]).history, ms[|ms| - 1]);
    }
  }

  lemma {:induction false} PollMatches(st: Loop, ms: seq<Message>)
    requires MatchesLoop(st)
    ensures MatchesLoop(Poll(st, ms))
  {
    PollHandsNoPort(st, ms);
    PollKeepsCore(st, ms);
  }

  lemma {:induction false} HandoverHandsNoPort(h: seq<Event>, world: World, handoff: Handoff)
    ensures HandedPorts(h + Handover(world, handoff)) == HandedPorts(h)
  {
    var events := Handover(world, handoff);
    if events == [] {
      assert h + events == h;
    } else {
      assert (h + events)[..|h|] == h;
    }
  }

  lemma {:induction false} DispatchMatches(env: Env, world: World, st: Loop)
    requires MatchesLoop(st)
    ensures MatchesLoop(DispatchBatch(env, world, st))
  {
    FrameworkAsksNothing(st.batch);
    FrameworkMatches(env, st.core, FrameworkOps(st.batch), HandedPorts(st.history));
    HandoverHandsNoPort(st.history, world, st.batch.handoff);
    PhaseFiveMatches(env, world, Middle(env, world, st));
  }

  lemma {:induction false} TickMatches(env: Env, world: World, st: Loop, ms: seq<Message>)
    requires MatchesLoop(st)
    ensures MatchesLoop(Tick(env, world, st, ms))
  {
    PollMatches(st, ms);
    DispatchMatches(env, world, Poll(st, ms));
  }

  lemma {:induction false} FailureMatches(env: Env, world: World, st: Loop, ms: seq<Message>)
    requires MatchesLoop(st)
    ensures MatchesLoop(Turn(env, world, st, PollFailed(ms)))
  {
    PollHandsNoPort(st, ms);
    StepHands(env, st.core, Broken);
  }

  lemma {:induction false} TurnMatches(env: Env, world: World, st: Loop, round: Round)
    requires MatchesLoop(st)
    ensures MatchesLoop(Turn(env, world, st, round))
  {
    match round
    case Messages(ms) => TickMatches(env, world, st, ms);
    case PollFailed(ms) => FailureMatches(env, world, st, ms);
  }

  lemma {:induction false} LooperMatches(env: Env, world: World, cap: nat, rounds: seq<Round>)
    ensures MatchesLoop(RunLooper(env, world, cap, rounds))
  {
    if rounds != [] {
      var init := rounds[..|rounds| - 1];
      LooperMatches(env, world, cap, init);
      if !RunLooper(env, world, cap, init).core.exited {
        TurnMatches(env, world, RunLooper(env, world, cap, init), rounds[|rounds| - 1]);
      }
    }
  }

  /**
   The port of every request the looper hands to the handler is used exactly once by the time the handler is dropped.
   Each has exactly one Reply-or-Failed attempt if and only if user code never uses a port with a value that cannot be
   serialized.
   */
  lemma {:induction false} LooperAnswersOnce(env: Env, world: World, cap: nat, rounds: seq<Round>)
    ensures var st := RunLooper(env, world, cap, rounds);
            var answers, asked := Shutdown(st.core.ledger).answers, HandedPorts(st.history);
            && multiset(Ports(answers)) == multiset(asked)
            && (multiset(Ports(Frames(answers))) == multiset(asked)
                <==> !BotchesRun(env, NewCore(cap), LooperOps(env, world, cap, rounds)))
  {
    var l, ops := RunLooper(env, world, cap, rounds).core.ledger, LooperOps(env, world, cap, rounds);
    LooperMatches(env, world, cap, rounds);
    LooperRuns(env, world, cap, rounds);
    RunBalanced(env, cap, ops);
    ShutdownAnswers(l);
    RunLeaves(env, NewCore(cap), ops);
    ShutdownLeaves(l);
    FramesToAll(Shutdown(l).answers);
  }
}
