/** The budget of a tick, progress after the channel closes, and the revocations sent. */
module SchedulerPolicies {
  import opened Enumeration
  import opened Engine
  import opened Scheduler
  import opened SchedulerTheorems

  // ---- the budget ----

  /** How many items were handed over. */
  function Handings(h: seq<Event>): nat {
    if h == [] then 0 else Handings(h[..|h| - 1]) + if h[|h| - 1].Handed? then 1 else 0
  }

  lemma {:induction false} HandingsConcat(a: seq<Event>, b: seq<Event>)
    ensures Handings(a + b) == Handings(a) + Handings(b)
  {
    if b == [] {
      assert a + b == a;
    } else {
      assert (a + b)[..|a + b| - 1] == a + b[..|b| - 1];
      HandingsConcat(a, b[..|b| - 1]);
    }
  }

  lemma {:induction false} HandingsOne(e: Event)
    ensures Handings([e]) == if e.Handed? then 1 else 0
  {
    assert [e][..0] == [];
    assert Handings([e][..0]) == 0;
  }

  /** A queue stops at the limit, or after one item when the limit was reached before it. */
  lemma {:induction false} ServeBudget(
    env: Env, world: World, tick: nat, revoked: set<Session>, c: Core, items: seq<Item>, n: nat)
    ensures var r := Serve(env, world, tick, revoked, c, items, n);
            && r.dispatched == n + Handings(r.events)
            && r.dispatched <= if n < BATCH_MSG_LIMIT then BATCH_MSG_LIMIT else n + 1
    decreases |items|
  {
    if items != [] {
      var x, rest := items[0], items[1..];
      var next := Step(env, c, OpOf(x));
      HandingsOne(Handed(x));
      if SessionOf(x) in revoked {
        ServeBudget(env, world, tick, revoked, c, rest, n);
        HandingsOne(Skipped(x));
        HandingsConcat([Skipped(x)], Serve(env, world, tick, revoked, c, rest, n).events);
      } else if !next.exited && n + 1 < BATCH_MSG_LIMIT && !world.late(tick, n + 1) {
        ServeBudget(env, world, tick, revoked, next, rest, n + 1);
        HandingsConcat([Handed(x)], Serve(env, world, tick, revoked, next, rest, n + 1).events);
      }
    }
  }

  function Live(items: seq<Item>, revoked: set<Session>): nat {
    if items == [] then 0 else (if SessionOf(items[0]) in revoked then 0 else 1) + Live(items[1..], revoked)
  }

  predicate LastLive(items: seq<Item>, revoked: set<Session>) {
    items != [] && SessionOf(items[|items| - 1]) !in revoked
  }

  lemma {:induction false} LastIsLive(items: seq<Item>, revoked: set<Session>)
    requires LastLive(items, revoked)
    ensures Live(items, revoked) > 0
  {
    if |items| > 1 {
      LastIsLive(items[1..], revoked);
    }
  }

  ghost predicate InTime(world: World, tick: nat, from: nat) {
    forall d :: from < d < BATCH_MSG_LIMIT ==> !world.late(tick, d)
  }

  /** A queue ends exactly at the limit just when it holds that many live items, the last of them at its end. */
  lemma {:induction false} ServeToLimit(
    env: Env, world: World, tick: nat, revoked: set<Session>, c: Core, items: seq<Item>, n: nat)
    requires n < BATCH_MSG_LIMIT && !Serve(env, world, tick, revoked, c, items, n).core.exited
    ensures var r := Serve(env, world, tick, revoked, c, items, n);
            r.rest == [] && r.dispatched == BATCH_MSG_LIMIT
            <==> n + Live(items, revoked) == BATCH_MSG_LIMIT && LastLive(items, revoked) && InTime(world, tick, n)
    decreases |items|
  {
    if items != [] {
      var x, rest := items[0], items[1..];
      var next := Step(env, c, OpOf(x));
      if rest != [] {
        assert LastLive(items, revoked) == LastLive(rest, revoked);
        if LastLive(rest, revoked) {
          LastIsLive(rest, revoked);
        }
      }
      if SessionOf(x) in revoked {
        ServeToLimit(env, world, tick, revoked, c, rest, n);
      } else if n + 1 < BATCH_MSG_LIMIT && !world.late(tick, n + 1) {
        ServeToLimit(env, world, tick, revoked, next, rest, n + 1);
        assert InTime(world, tick, n) == InTime(world, tick, n + 1);
      }
    }
  }

  lemma {:induction false} ServeSome(
    env: Env, world: World, tick: nat, revoked: set<Session>, c: Core, items: seq<Item>, n: nat)
    ensures Serve(env, world, tick, revoked, c, items, n).dispatched > n <==> Live(items, revoked) > 0
    decreases |items|
  {
    if items != [] {
      if SessionOf(items[0]) in revoked {
        ServeSome(env, world, tick, revoked, c, items[1..], n);
      } else {
        ServeBudget(env, world, tick, revoked, Step(env, c, OpOf(items[0])), items[1..], n + 1);
      }
    }
  }

  /** The messages handed over by one phase 5. */
  function Dispatched(st: Loop, after: Loop): int {
    Handings(after.history) - Handings(st.history)
  }

  lemma {:induction false} NoticesBudget(env: Env, world: World, st: Loop, n: nat)
    ensures Dispatched(st, PhaseFiveNotices(env, world, st, n)) == ServeNotices(env, world, st, n).dispatched - n
  {
    var r := ServeNotices(env, world, st, n);
    ServeBudget(env, world, st.ticks, st.batch.revoked, st.core, st.batch.notices, n);
    HandingsConcat(st.history, r.events);
    HandingsConcat(st.history + r.events, [Closing]);
    HandingsOne(Closing);
  }

  /**
   The budget, exactly. Phase 5 hands over at most the limit and one more; the one more happens just when the live
   requests are exactly the limit with the last at the end of the queue, time and handler permitting, and a live
   notification waits.
   */
  lemma {:induction false} PhaseFiveBudget(env: Env, world: World, st: Loop)
    ensures Dispatched(st, PhaseFive(env, world, st)) <= BATCH_MSG_LIMIT + 1
    ensures Dispatched(st, PhaseFive(env, world, st)) == BATCH_MSG_LIMIT + 1
       <==> && !ServeRequests(env, world, st).core.exited
            && Live(st.batch.requests, st.batch.revoked) == BATCH_MSG_LIMIT
            && LastLive(st.batch.requests, st.batch.revoked) && InTime(world, st.ticks, 0)
            && Live(st.batch.notices, st.batch.revoked) > 0
  {
    var r, b := ServeRequests(env, world, st), st.batch;
    ServeBudget(env, world, st.ticks, b.revoked, st.core, b.requests, 0);
    HandingsConcat(st.history, r.events);
    if !r.core.exited {
      ServeToLimit(env, world, st.ticks, b.revoked, st.core, b.requests, 0);
      if r.rest == [] {
        var mid := RequestsServed(st, r);
        NoticesBudget(env, world, mid, r.dispatched);
        ServeBudget(env, world, st.ticks, b.revoked, r.core, b.notices, r.dispatched);
        ServeSome(env, world, st.ticks, b.revoked, r.core, b.notices, r.dispatched);
      }
    }
  }

  lemma {:induction false} HeardHandsNothing(h: seq<Event>, m: Message)
    ensures Handings(h + Heard(m)) == Handings(h)
  {
    HandingsConcat(h, Heard(m));
    if Heard(m) != [] {
      assert Heard(m) == [Heard(m)[0]];
      HandingsOne(Heard(m)[0]);
    }
  }

  lemma {:induction false} PollHandsNothing(st: Loop, ms: seq<Message>)
    ensures Handings(Poll(st, ms).history) == Handings(st.history)
  {
    if ms != [] {
      PollHandsNothing(st, ms[..|ms| - 1]);
      HeardHandsNothing(Poll(st, ms[..|ms| - 1]).history, ms[|ms| - 1]);
    }
  }

  lemma {:induction false} HandoverHandsNothing(h: seq<Event>, world: World, handoff: Handoff)
    ensures Handings(h + Handover(world, handoff)) == Handings(h)
  {
    HandingsConcat(h, Handover(world, handoff));
    if handoff.Handoff? {
      HandingsOne(TookOver(handoff.id));
    }
  }

  lemma {:induction false} TickBudget(env: Env, world: World, st: Loop, ms: seq<Message>)
    ensures Dispatched(st, Tick(env, world, st, ms)) <= BATCH_MSG_LIMIT + 1
  {
    PollHandsNothing(st, ms);
    var polled := Poll(st, ms);
    HandoverHandsNothing(polled.history, world, polled.batch.handoff);
    PhaseFiveBudget(env, world, Middle(env, world, polled));
  }

  // ---- progress ----

  function Pending(b: Batch): nat {
    |b.requests| + |b.notices|
  }

  lemma {:induction false} NoticesProgress(env: Env, world: World, st: Loop, n: nat)
    requires st.batch.requests == []
    ensures var r := PhaseFiveNotices(env, world, st, n);
            !r.core.exited ==>
              && (Pending(st.batch) > 0 ==> Pending(r.batch) < Pending(st.batch))
              && (st.batch.closed ==> r.batch.closed && Pending(r.batch) > 0)
  {
    var r := ServeNotices(env, world, st, n);
    ServeTakes(env, world, st.ticks, st.batch.revoked, st.core, st.batch.notices, n);
    assert st.batch.notices != [] ==> r.events != [];
  }

  lemma {:induction false} PhaseFiveProgress(env: Env, world: World, st: Loop)
    ensures var r := PhaseFive(env, world, st);
            !r.core.exited ==>
              && (Pending(st.batch) > 0 ==> Pending(r.batch) < Pending(st.batch))
              && (st.batch.closed ==> r.batch.closed && Pending(r.batch) > 0)
  {
    var r := ServeRequests(env, world, st);
    ServeTakes(env, world, st.ticks, st.batch.revoked, st.core, st.batch.requests, 0);
    assert st.batch.requests != [] ==> r.events != [];
    if !r.core.exited && r.rest == [] {
      NoticesProgress(env, world, RequestsServed(st, r), r.dispatched);
    }
  }

  /** Each tick works off some of what waits; with the channel closed, only waiting work keeps the looper alive. */
  lemma {:induction false} TickProgress(env: Env, world: World, st: Loop, ms: seq<Message>)
    ensures var polled, r := Poll(st, ms), Tick(env, world, st, ms);
            !r.core.exited ==>
              && (Pending(polled.batch) > 0 ==> Pending(r.batch) < Pending(polled.batch))
              && (polled.batch.closed ==> r.batch.closed && Pending(r.batch) > 0)
  {
    var polled := Poll(st, ms);
    PhaseFiveProgress(env, world, Middle(env, world, polled));
  }

  /** With the channel closed, the looper has ended or has worked off at least one item for each tick. */
  ghost predicate WorkedOff(r: Loop, start: nat, n: nat) {
    r.core.exited || (r.batch.closed && Pending(r.batch) + n <= start && (n > 0 ==> Pending(r.batch) > 0))
  }

  /** Nothing arrives. */
  predicate Quiet(round: Round) {
    round.Messages? && round.messages == []
  }

  lemma {:induction false} QuietTurn(env: Env, world: World, st: Loop, round: Round, start: nat, n: nat)
    requires WorkedOff(st, start, n) && !st.core.exited && Quiet(round)
    ensures WorkedOff(Turn(env, world, st, round), start, n + 1)
  {
    TickProgress(env, world, st, []);
  }

  lemma {:induction false} QuietProgress(env: Env, world: World, st: Loop, rounds: seq<Round>)
    requires st.batch.closed && forall i :: 0 <= i < |rounds| ==> Quiet(rounds[i])
    ensures WorkedOff(Ticks(env, world, st, rounds), Pending(st.batch), |rounds|)
  {
    if rounds != [] {
      var init := rounds[..|rounds| - 1];
      QuietProgress(env, world, st, init);
      var before := Ticks(env, world, st, init);
      if !before.core.exited {
        QuietTurn(env, world, before, rounds[|rounds| - 1], Pending(st.batch), |init|);
      }
    }
  }

  /** Once the channel is closed and nothing more arrives, the looper ends within as many ticks as items wait. */
  lemma {:induction false} ClosedLooperEnds(env: Env, world: World, st: Loop, rounds: seq<Round>)
    requires st.batch.closed && forall i :: 0 <= i < |rounds| ==> Quiet(rounds[i])
    requires |rounds| > 0 && |rounds| >= Pending(st.batch)
    ensures Ticks(env, world, st, rounds).core.exited
  {
    QuietProgress(env, world, st, rounds);
  }

  // ---- revocations on the wire ----

  /** Each revoked session has its RevokeInterest queued or sent, once. */
  ghost predicate RevokesOnce(st: Loop) {
    Enumerates(st.sent + st.batch.ctl, st.batch.revoked)
  }

  lemma {:induction false} TakeRevokes(st: Loop, m: Message)
    requires RevokesOnce(st)
    ensures RevokesOnce(Take(st, m))
  {
    if m.LocalRevoke? && m.session !in st.batch.revoked {
      var all := st.sent + st.batch.ctl;
      assert st.sent + (st.batch.ctl + [m.session]) == all + [m.session];
      assert m.session !in all;
    }
  }

  lemma {:induction false} PollRevokes(st: Loop, ms: seq<Message>)
    requires RevokesOnce(st)
    ensures RevokesOnce(Poll(st, ms))
  {
    if ms != [] {
      PollRevokes(st, ms[..|ms| - 1]);
      TakeRevokes(Poll(st, ms[..|ms| - 1]), ms[|ms| - 1]);
    }
  }

  lemma {:induction false} PhaseFiveKeepsRevokes(env: Env, world: World, st: Loop)
    requires st.batch.ctl == []
    ensures var r := PhaseFive(env, world, st);
            r.sent == st.sent && r.batch.ctl == [] && r.batch.revoked == st.batch.revoked
  {
  }

  /** Phases 0 to 3 of the tick end the looper. */
  predicate EndsEarly(env: Env, st: Loop, ms: seq<Message>) {
    From(env, st.core, FrameworkOps(Poll(st, ms).batch)).exited
  }

  lemma {:induction false} PollSends(st: Loop, ms: seq<Message>)
    ensures Poll(st, ms).sent == st.sent && st.batch.revoked <= Poll(st, ms).batch.revoked
  {
    if ms != [] {
      PollSends(st, ms[..|ms| - 1]);
    }
  }

  lemma {:induction false} TickRevokes(env: Env, world: World, st: Loop, ms: seq<Message>)
    requires Enumerates(st.sent, st.batch.revoked) && st.batch.ctl == [] && !st.core.exited
    ensures var r, polled := Tick(env, world, st, ms), Poll(st, ms);
            && r.batch.ctl == [] && r.batch.revoked == polled.batch.revoked
            && (if EndsEarly(env, st, ms) then r.sent == st.sent else Enumerates(r.sent, polled.batch.revoked))
  {
    var polled := Poll(st, ms);
    assert st.sent + [] == st.sent;
    PollSends(st, ms);
    PollRevokes(st, ms);
    PollKeepsCore(st, ms);
    PhaseFiveKeepsRevokes(env, world, Middle(env, world, polled));
    assert polled.sent + [] == polled.sent;
    if Empty(polled.batch) {
      assert FrameworkOps(polled.batch) == [];
    }
  }

  lemma {:induction false} AllOffered(env: Env, world: World, cap: nat, rounds: seq<Round>)
    ensures var st := RunLooper(env, world, cap, rounds);
            !st.core.exited ==> Enumerates(st.sent, st.batch.revoked) && st.batch.ctl == []
  {
    if rounds != [] {
      var init, round := rounds[..|rounds| - 1], rounds[|rounds| - 1];
      AllOffered(env, world, cap, init);
      var before := RunLooper(env, world, cap, init);
      if !before.core.exited && round.Messages? {
        TickRevokes(env, world, before, round.messages);
        if EndsEarly(env, before, round.messages) {
          PollKeepsCore(before, round.messages);
          EarlyEnd(env, world, before, round.messages);
        }
      }
    }
  }

  lemma {:induction false} EarlyEnd(env: Env, world: World, st: Loop, ms: seq<Message>)
    requires !st.core.exited && EndsEarly(env, st, ms)
    ensures Tick(env, world, st, ms).core.exited
  {
    PollKeepsCore(st, ms);
    assert Empty(Poll(st, ms).batch) ==> FrameworkOps(Poll(st, ms).batch) == [];
  }

  /**
   In every run no session has its RevokeInterest offered to the wire twice, and only revoked ones at all. After each
   tick every session revoked so far has had it offered, unless the tick ends the looper in phases 0 to 3: such a tick
   offers none.
   */
  lemma {:induction false} RevokesSentOnce(env: Env, world: World, cap: nat, rounds: seq<Round>, ms: seq<Message>)
    requires !RunLooper(env, world, cap, rounds).core.exited
    ensures var st := RunLooper(env, world, cap, rounds);
            var r := Tick(env, world, st, ms);
            && Enumerates(st.sent, st.batch.revoked)
            && r.batch.revoked == Poll(st, ms).batch.revoked
            && (if EndsEarly(env, st, ms) then r.sent == st.sent else Enumerates(r.sent, r.batch.revoked))
  {
    AllOffered(env, world, cap, rounds);
    TickRevokes(env, world, RunLooper(env, world, cap, rounds), ms);
  }

  // ---- connections handed over ----

  /** The last connection announced, if any. */
  function Announced(ms: seq<Message>): Handoff {
    if ms == [] then NoHandoff
    else if ms[|ms| - 1].NewConnection? then Handoff(ms[|ms| - 1].id)
    else Announced(ms[..|ms| - 1])
  }

  lemma {:induction false} PollHandoff(st: Loop, ms: seq<Message>)
    ensures Poll(st, ms).batch.handoff == if Announced(ms) == NoHandoff then st.batch.handoff else Announced(ms)
    ensures Poll(st, ms).taken == st.taken
  {
    if ms != [] {
      PollHandoff(st, ms[..|ms| - 1]);
    }
  }

  lemma {:induction false} PhaseFiveKeepsHandoff(env: Env, world: World, st: Loop)
    requires st.batch.handoff == NoHandoff
    ensures var r := PhaseFive(env, world, st); r.taken == st.taken && r.batch.handoff == NoHandoff
  {
  }

  /** One tick takes over the last connection announced in it, if it can be registered, and no other. */
  lemma {:induction false} TickHandoff(env: Env, world: World, st: Loop, ms: seq<Message>)
    requires st.batch.handoff == NoHandoff
    ensures var r := Tick(env, world, st, ms);
            && r.batch.handoff == NoHandoff
            && r.taken == st.taken + if EndsEarly(env, st, ms) then [] else TakenOver(world, Announced(ms))
  {
    var polled := Poll(st, ms);
    PollHandoff(st, ms);
    PollKeepsCore(st, ms);
    PhaseFiveKeepsHandoff(env, world, Middle(env, world, polled));
    if Empty(polled.batch) {
      assert FrameworkOps(polled.batch) == [];
    }
    assert st.taken + [] == st.taken;
  }

  /**
   Between ticks no connection is left waiting. A tick takes over the last connection announced in it, if it can be
   registered, and no other; one that ends the looper in phases 0 to 3 takes over none.
   */
  lemma {:induction false} LastHandoffWins(env: Env, world: World, cap: nat, rounds: seq<Round>, ms: seq<Message>)
    requires !RunLooper(env, world, cap, rounds).core.exited
    ensures var st := RunLooper(env, world, cap, rounds);
            && st.batch.handoff == NoHandoff
            && Tick(env, world, st, ms).taken
               == st.taken + if EndsEarly(env, st, ms) then [] else TakenOver(world, Announced(ms))
  {
    NoneWaiting(env, world, cap, rounds);
    TickHandoff(env, world, RunLooper(env, world, cap, rounds), ms);
  }

  lemma {:induction false} NoneWaiting(env: Env, world: World, cap: nat, rounds: seq<Round>)
    ensures var st := RunLooper(env, world, cap, rounds); !st.core.exited ==> st.batch.handoff == NoHandoff
  {
    if rounds != [] {
      var init, round := rounds[..|rounds| - 1], rounds[|rounds| - 1];
      NoneWaiting(env, world, cap, init);
      var before := RunLooper(env, world, cap, init);
      if !before.core.exited && round.Messages? {
        TickHandoff(env, world, before, round.messages);
      }
    }
  }

  // ---- nothing to do ----

  /** Skipping the dispatch of an empty batch skips nothing: dispatching it would leave the looper as it is. */
  lemma {:induction false} EmptyBatchSkipped(env: Env, world: World, st: Loop)
    requires Empty(st.batch) && !st.core.exited
    ensures DispatchBatch(env, world, st) == st
  {
    assert FrameworkOps(st.batch) == [];
    assert st.sent + [] == st.sent && st.taken + [] == st.taken && st.history + [] == st.history;
  }

  // ---- the budget is passed ----

  function Repeat<T>(x: T, n: nat): seq<T> {
    seq(n, i => x)
  }

  lemma {:induction false} RepeatLive(x: Item, n: nat, revoked: set<Session>)
    requires SessionOf(x) !in revoked
    ensures |Repeat(x, n)| == n && Live(Repeat(x, n), revoked) == n && (n > 0 ==> LastLive(Repeat(x, n), revoked))
  {
    if n > 0 {
      RepeatLive(x, n - 1, revoked);
      assert Repeat(x, n)[1..] == Repeat(x, n - 1);
    }
  }

  /** Requests for sessions nobody serves are refused and never end the looper. */
  lemma {:induction false} UnservedGoesOn(
    env: Env, world: World, tick: nat, revoked: set<Session>, c: Core, p: Port, n: nat, k: nat)
    requires !env.serves(p.session) && p.session !in revoked && !c.exited
    ensures !Serve(env, world, tick, revoked, c, Repeat(Ask(p, Good), n), k).core.exited
    decreases n
  {
    if n > 0 {
      assert Repeat(Ask(p, Good), n)[1..] == Repeat(Ask(p, Good), n - 1);
      UnservedGoesOn(env, world, tick, revoked, Step(env, c, Asked(p, Good)), p, n - 1, k + 1);
    }
  }

  lemma {:induction false} FloodNext(b: Batch, x: Item, n: nat)
    requires x.Ask? && b == NO_BATCH.(requests := Repeat(x, n))
    ensures Collect(b, Work(x)) == NO_BATCH.(requests := Repeat(x, n + 1))
  {
    assert Repeat(x, n) + [x] == Repeat(x, n + 1);
  }

  lemma {:induction false} PollFlood(st: Loop, x: Item, ms: seq<Message>)
    requires x.Ask? && st.batch == NO_BATCH && forall i :: 0 <= i < |ms| ==> ms[i] == Work(x)
    ensures Poll(st, ms).batch == NO_BATCH.(requests := Repeat(x, |ms|))
  {
    if ms == [] {
      assert Repeat(x, 0) == [];
    } else {
      var n := |ms| - 1;
      PollFlood(st, x, ms[..n]);
      FloodNext(Poll(st, ms[..n]).batch, x, n);
    }
  }

  /** So many requests and a notification have been collected. */
  predicate Flooded(b: Batch, x: Item, n: nat, y: Item) {
    b == NO_BATCH.(requests := Repeat(x, n), notices := [y])
  }

  lemma {:induction false} PollFlooded(st: Loop, x: Item, y: Item, ms: seq<Message>)
    requires x.Ask? && y.Tell? && st.batch == NO_BATCH && ms != [] && ms[|ms| - 1] == Work(y)
    requires forall i :: 0 <= i < |ms| - 1 ==> ms[i] == Work(x)
    ensures Flooded(Poll(st, ms).batch, x, |ms| - 1, y)
  {
    PollFlood(st, x, ms[..|ms| - 1]);
  }

  lemma {:induction false} PhaseFiveLimitPassed(env: Env, world: World, st: Loop, p: Port, s: Session, n: nat)
    requires !env.serves(p.session) && (forall tick, k :: !world.late(tick, k)) && n == BATCH_MSG_LIMIT
    requires Flooded(st.batch, Ask(p, Good), n, Tell(s, WrongTag)) && !st.core.exited
    ensures Dispatched(st, PhaseFive(env, world, st)) == n + 1
  {
    var b := st.batch;
    RepeatLive(Ask(p, Good), n, {});
    UnservedGoesOn(env, world, st.ticks, {}, st.core, p, n, 0);
    assert b.notices[1..] == [];
    assert Live(b.notices, {}) == 1 + Live(b.notices[1..], {});
    PhaseFiveBudget(env, world, st);
  }

  /** The documented limit of 64 is passed: so many requests for a session nobody serves, and a notification, arrive. */
  lemma {:induction false} LimitPassed(env: Env, world: World, p: Port, s: Session, cap: nat)
    requires !env.serves(p.session) && forall tick, k :: !world.late(tick, k)
    ensures var ms := Repeat(Work(Ask(p, Good)), 64) + [Work(Tell(s, WrongTag))];
            Dispatched(NewLoop(cap), Tick(env, world, NewLoop(cap), ms)) == 65
  {
    var st, ms := NewLoop(cap), Repeat(Work(Ask(p, Good)), 64) + [Work(Tell(s, WrongTag))];
    PollFlooded(st, Ask(p, Good), Tell(s, WrongTag), ms);
    PollHandsNothing(st, ms);
    PollKeepsCore(st, ms);
    InboundOnly(env, world, Poll(st, ms));
    PhaseFiveLimitPassed(env, world, Poll(st, ms), p, s, 64);
  }
}
