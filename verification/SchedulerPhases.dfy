/** What a tick performs in the framework phases, told from the messages that arrived. */
module SchedulerPhases {
  import opened Engine
  import opened Scheduler
  import opened Sequences
  import SchedulerTheorems

  // ---- the messages, sorted ----

  /** The phase a message belongs to; inbound work and the rest come after the framework's seven. */
  function PhaseOf(m: Message): nat {
    match m
    case SyncCall(_) => 0
    case ReplyFrame(_, _) => 1
    case FailedFrame(_, _) => 2
    case ServiceTeardown(_) => 3
    case PaneExited(_) => 4
    case InterestAccepted(_) => 5
    case LifecycleEvent(_) => 6
    case _ => 7
  }

  /** What the message asks of the engine. */
  function OpsFor(m: Message): seq<Op> {
    match m
    case SyncCall(s) => [SyncSend(s)]
    case ReplyFrame(_, t) => [ReplyTo(t)]
    case FailedFrame(_, t) => [FailureOf(t)]
    case ServiceTeardown(s) => [TeardownOf(s), Call]
    case PaneExited(_) => [Call]
    case InterestAccepted(_) => [Call]
    case LifecycleEvent(_) => [Call]
    case _ => []
  }

  /** What the messages of one phase ask, in order of arrival. */
  function PhaseOps(ms: seq<Message>, p: nat): seq<Op> {
    if ms == [] then []
    else PhaseOps(ms[..|ms| - 1], p) + if PhaseOf(ms[|ms| - 1]) == p then OpsFor(ms[|ms| - 1]) else []
  }

  /** The framework messages, stably sorted by phase. */
  function SortedOps(ms: seq<Message>): seq<Op> {
    PhaseOps(ms, 0) + PhaseOps(ms, 1) + PhaseOps(ms, 2) + PhaseOps(ms, 3) + PhaseOps(ms, 4) + PhaseOps(ms, 5)
    + PhaseOps(ms, 6)
  }

  // ---- the buckets ----

  function BucketOps(b: Batch, p: nat): seq<Op> {
    match p
    case 0 => SyncOps(b.syncs)
    case 1 => ReplyOps(b.replies)
    case 2 => FailureOps(b.failed)
    case 3 => TeardownOps(b.teardowns)
    case 4 => Calls(|b.departed|)
    case 5 => Calls(|b.connected|)
    case 6 => Calls(|b.lifecycle|)
    case _ => []
  }

  lemma {:induction false} TeardownOpsNext(ss: seq<Session>, s: Session)
    ensures TeardownOps(ss + [s]) == TeardownOps(ss) + [TeardownOf(s), Call]
  {
    assert (ss + [s])[..|ss|] == ss;
  }

  lemma {:induction false} TokenOpsNext(ts: seq<Token>, t: Token)
    ensures ReplyOps(ts + [t]) == ReplyOps(ts) + [ReplyTo(t)]
    ensures FailureOps(ts + [t]) == FailureOps(ts) + [FailureOf(t)]
  {
  }

  lemma {:induction false} OtherOpsNext(ss: seq<Session>, s: Session, n: nat)
    ensures SyncOps(ss + [s]) == SyncOps(ss) + [SyncSend(s)]
    ensures Calls(n + 1) == Calls(n) + [Call]
  {
  }

  /** A message adds to the bucket of its own phase. */
  lemma {:induction false} CollectOwn(b: Batch, m: Message)
    requires PhaseOf(m) < 7
    ensures BucketOps(Collect(b, m), PhaseOf(m)) == BucketOps(b, PhaseOf(m)) + OpsFor(m)
  {
    match m
    case SyncCall(s) => OtherOpsNext(b.syncs, s, 0);
    case ReplyFrame(_, t) => TokenOpsNext(b.replies, t);
    case FailedFrame(_, t) => TokenOpsNext(b.failed, t);
    case ServiceTeardown(s) => TeardownOpsNext(b.teardowns, s);
    case PaneExited(_) => OtherOpsNext([], 0, |b.departed|);
    case InterestAccepted(_) => OtherOpsNext([], 0, |b.connected|);
    case LifecycleEvent(_) => OtherOpsNext([], 0, |b.lifecycle|);
  }

  /** And to no other. */
  lemma {:induction false} CollectOther(b: Batch, m: Message, p: nat)
    requires PhaseOf(m) != p
    ensures BucketOps(Collect(b, m), p) == BucketOps(b, p)
  {
  }

  lemma {:induction false} PollBucket(st: Loop, ms: seq<Message>, p: nat)
    requires p < 7
    ensures BucketOps(Poll(st, ms).batch, p) == BucketOps(st.batch, p) + PhaseOps(ms, p)
  {
    if ms == [] {
      assert BucketOps(st.batch, p) + [] == BucketOps(st.batch, p);
    } else {
      var init, m := ms[..|ms| - 1], ms[|ms| - 1];
      PollBucket(st, init, p);
      if PhaseOf(m) == p {
        CollectOwn(Poll(st, init).batch, m);
        Assoc(BucketOps(st.batch, p), PhaseOps(init, p), OpsFor(m));
      } else {
        CollectOther(Poll(st, init).batch, m, p);
        assert PhaseOps(init, p) + [] == PhaseOps(init, p);
      }
    }
  }

  lemma {:induction false} BucketsInOrder(b: Batch)
    ensures FrameworkOps(b)
         == BucketOps(b, 0) + BucketOps(b, 1) + BucketOps(b, 2) + BucketOps(b, 3) + BucketOps(b, 4) + BucketOps(b, 5)
            + BucketOps(b, 6)
  {
    assert Calls(|b.departed| + |b.connected| + |b.lifecycle|)
        == Calls(|b.departed|) + Calls(|b.connected|) + Calls(|b.lifecycle|);
  }

  // ---- between ticks ----

  lemma {:induction false} PhaseFiveLeavesInbound(env: Env, world: World, st: Loop)
    requires st.batch == Inbound(st.batch)
    ensures PhaseFive(env, world, st).batch == Inbound(PhaseFive(env, world, st).batch)
  {
  }

  lemma {:induction false} TickLeavesInbound(env: Env, world: World, st: Loop, ms: seq<Message>)
    ensures Tick(env, world, st, ms).batch == Inbound(Tick(env, world, st, ms).batch)
  {
    PhaseFiveLeavesInbound(env, world, Middle(env, world, Poll(st, ms)));
  }

  /** Between ticks only inbound work is left of the batch. */
  lemma {:induction false} RunLeavesInbound(env: Env, world: World, cap: nat, rounds: seq<Round>)
    ensures var st := RunLooper(env, world, cap, rounds); !st.core.exited ==> st.batch == Inbound(st.batch)
  {
    if rounds != [] {
      var init, round := rounds[..|rounds| - 1], rounds[|rounds| - 1];
      RunLeavesInbound(env, world, cap, init);
      if !RunLooper(env, world, cap, init).core.exited && round.Messages? {
        TickLeavesInbound(env, world, RunLooper(env, world, cap, init), round.messages);
      }
    }
  }

  lemma {:induction false} InboundBuckets(b: Batch, p: nat)
    requires b == Inbound(b)
    ensures BucketOps(b, p) == []
  {
  }

  lemma {:induction false} FreshBucket(st: Loop, ms: seq<Message>, p: nat)
    requires st.batch == Inbound(st.batch) && p < 7
    ensures BucketOps(Poll(st, ms).batch, p) == PhaseOps(ms, p)
  {
    PollBucket(st, ms, p);
    InboundBuckets(st.batch, p);
  }

  /**
   The framework phases. After any run, what a tick does before inbound work is what its messages ask, sorted by phase
   and within a phase in order of arrival: synchronous requests, replies, failures, teardowns each with its
   notification, exits of panes, new subscribers, lifecycle events.
   */
  lemma {:induction false} FrameworkSorted(env: Env, world: World, cap: nat, rounds: seq<Round>, ms: seq<Message>)
    requires !RunLooper(env, world, cap, rounds).core.exited
    ensures FrameworkOps(Poll(RunLooper(env, world, cap, rounds), ms).batch) == SortedOps(ms)
  {
    var st := RunLooper(env, world, cap, rounds);
    RunLeavesInbound(env, world, cap, rounds);
    BucketsInOrder(Poll(st, ms).batch);
    FreshBucket(st, ms, 0);
    FreshBucket(st, ms, 1);
    FreshBucket(st, ms, 2);
    FreshBucket(st, ms, 3);
    FreshBucket(st, ms, 4);
    FreshBucket(st, ms, 5);
    FreshBucket(st, ms, 6);
  }

  predicate Asks(m: Message, p: nat, op: Op) {
    PhaseOf(m) == p && op in OpsFor(m)
  }

  /** An operation among those of a phase was asked for by a message. */
  lemma {:induction false} AskedBy(ms: seq<Message>, p: nat, op: Op)
    requires op in PhaseOps(ms, p)
    ensures exists i :: 0 <= i < |ms| && Asks(ms[i], p, op)
  {
    var n := |ms| - 1;
    if op in PhaseOps(ms[..n], p) {
      AskedBy(ms[..n], p, op);
      var i :| 0 <= i < n && Asks(ms[..n][i], p, op);
      assert Asks(ms[i], p, op);
    } else {
      assert Asks(ms[n], p, op);
    }
  }

  /** And every message is heeded. */
  lemma {:induction false} Heeded(ms: seq<Message>, i: nat, op: Op)
    requires i < |ms| && op in OpsFor(ms[i])
    ensures op in PhaseOps(ms, PhaseOf(ms[i]))
  {
    var n := |ms| - 1;
    if i < n {
      Heeded(ms[..n], i, op);
    }
  }

  // ---- the end of the channel ----

  /** The channel counts as closed exactly once its end has been collected. */
  lemma {:induction false} PollCloses(st: Loop, ms: seq<Message>)
    ensures Poll(st, ms).batch.closed <==> st.batch.closed || ChannelClosed in ms
  {
    if ms != [] {
      PollCloses(st, ms[..|ms| - 1]);
      assert ms == ms[..|ms| - 1] + [ms[|ms| - 1]];
    }
  }

  /** The end of the channel was among the messages polled. */
  predicate HeardClose(env: Env, world: World, cap: nat, rounds: seq<Round>) {
    rounds != []
    && (HeardClose(env, world, cap, rounds[..|rounds| - 1])
        || (!RunLooper(env, world, cap, rounds[..|rounds| - 1]).core.exited
            && ChannelClosed in rounds[|rounds| - 1].messages))
  }

  /** The channel counts as closed once its end was heard and until it is handled, which ends the looper. */
  ghost predicate Flagged(st: Loop, heard: bool) {
    && (st.batch.closed <==> heard && Closing !in st.history)
    && (Closing in st.history ==> st.core.exited)
  }

  lemma {:induction false} ServeNoClosing(
    env: Env, world: World, tick: nat, revoked: set<Session>, c: Core, items: seq<Item>, n: nat)
    ensures Closing !in Serve(env, world, tick, revoked, c, items, n).events
    decreases |items|
  {
    if items != [] {
      ServeNoClosing(env, world, tick, revoked, c, items[1..], n);
      ServeNoClosing(env, world, tick, revoked, Step(env, c, OpOf(items[0])), items[1..], n + 1);
    }
  }

  lemma {:induction false} NoticesFlagged(env: Env, world: World, st: Loop, n: nat, heard: bool)
    requires Flagged(st, heard) && Closing !in st.history
    ensures Flagged(PhaseFiveNotices(env, world, st, n), heard)
  {
    var r := ServeNotices(env, world, st, n);
    ServeNoClosing(env, world, st.ticks, st.batch.revoked, st.core, st.batch.notices, n);
    SchedulerTheorems.ClosingEnds(env, r.core);
  }

  lemma {:induction false} PhaseFiveFlagged(env: Env, world: World, st: Loop, heard: bool)
    requires Flagged(st, heard) && Closing !in st.history
    ensures Flagged(PhaseFive(env, world, st), heard)
  {
    var r := ServeRequests(env, world, st);
    ServeNoClosing(env, world, st.ticks, st.batch.revoked, st.core, st.batch.requests, 0);
    if !r.core.exited && r.rest == [] {
      NoticesFlagged(env, world, RequestsServed(st, r), r.dispatched, heard);
    }
  }

  lemma {:induction false} PollFlagged(st: Loop, ms: seq<Message>, heard: bool)
    requires Flagged(st, heard) && Closing !in st.history
    ensures Flagged(Poll(st, ms), heard || ChannelClosed in ms) && Closing !in Poll(st, ms).history
  {
    PollCloses(st, ms);
    PollNoClosing(st, ms);
  }

  lemma {:induction false} PollNoClosing(st: Loop, ms: seq<Message>)
    requires Closing !in st.history
    ensures Closing !in Poll(st, ms).history
  {
    if ms != [] {
      PollNoClosing(st, ms[..|ms| - 1]);
    }
  }

  lemma {:induction false} TurnFlagged(env: Env, world: World, st: Loop, round: Round, heard: bool)
    requires Flagged(st, heard) && !st.core.exited
    ensures Flagged(Turn(env, world, st, round), heard || ChannelClosed in round.messages)
  {
    var polled, now := Poll(st, round.messages), heard || ChannelClosed in round.messages;
    PollFlagged(st, round.messages, heard);
    if round.Messages? && !Empty(polled.batch) && !From(env, polled.core, FrameworkOps(polled.batch)).exited {
      PhaseFiveFlagged(env, world, Middle(env, world, polled), now);
    }
  }

  /**
   In every run the channel counts as closed exactly if its end was heard and has not been handled, whatever else ended
   the looper; and handling it ends the looper.
   */
  lemma {:induction false} ClosedExactly(env: Env, world: World, cap: nat, rounds: seq<Round>)
    ensures Flagged(RunLooper(env, world, cap, rounds), HeardClose(env, world, cap, rounds))
  {
    if rounds != [] {
      var init := rounds[..|rounds| - 1];
      ClosedExactly(env, world, cap, init);
      var before := RunLooper(env, world, cap, init);
      if !before.core.exited {
        TurnFlagged(env, world, before, rounds[|rounds| - 1], HeardClose(env, world, cap, init));
      }
    }
  }

  /** A looper that goes on has dispatched one tick for each round; so each tick has a clock of its own. */
  lemma {:induction false} OneTickARound(env: Env, world: World, cap: nat, rounds: seq<Round>)
    requires !RunLooper(env, world, cap, rounds).core.exited
    ensures RunLooper(env, world, cap, rounds).ticks == |rounds|
  {
    if rounds != [] {
      OneTickARound(env, world, cap, rounds[..|rounds| - 1]);
    }
  }
}
