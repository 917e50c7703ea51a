/** What a local revocation means from then on, new connections included. */
module SchedulerRevocations {
  import opened Engine
  import opened Scheduler
  import opened SchedulerTheorems

  /** In every run the sessions held as revoked are those ever revoked: nothing clears one. */
  lemma {:induction false} RevokedForGood(env: Env, world: World, cap: nat, rounds: seq<Round>, s: Session)
    ensures var st := RunLooper(env, world, cap, rounds);
            s in st.batch.revoked <==> exists j :: 0 <= j < |st.history| && st.history[j] == Revoked(s)
  {
    TicksSound(env, world, NewLoop(cap), rounds);
    RevokedAt(RunLooper(env, world, cap, rounds).history, s);
  }

  predicate Served(e: Event) {
    e.Handed? || e.Skipped?
  }

  /** Work that is served is skipped exactly when its session was revoked at any earlier point of the run. */
  lemma {:induction false} SkippedExactly(env: Env, world: World, cap: nat, rounds: seq<Round>, i: nat)
    requires var h := RunLooper(env, world, cap, rounds).history; i < |h| && Served(h[i])
    ensures var h := RunLooper(env, world, cap, rounds).history;
            h[i].Skipped? <==> exists j :: 0 <= j < i && h[j] == Revoked(SessionOf(h[i].item))
  {
    RevokedNeverHanded(env, world, cap, rounds, i);
  }

  /** The sessions revoked since the last connection was taken over. */
  function RevokedHere(h: seq<Event>): set<Session> {
    if h == [] then {}
    else
      var before, e := RevokedHere(h[..|h| - 1]), h[|h| - 1];
      if e.Revoked? then before + {e.session} else if e.TookOver? then {} else before
  }

  lemma {:induction false} HereIsIn(h: seq<Event>)
    ensures RevokedHere(h) <= RevokedIn(h)
  {
    if h != [] {
      HereIsIn(h[..|h| - 1]);
    }
  }

  /**
   A revocation is documented to last as long as its connection. Served work meets this, being skipped just when its
   session was revoked on the present connection, if and only if it is not for a session that was revoked on an earlier
   connection and not on the present one.
   */
  lemma {:induction false} RevocationOutlivesConnection(env: Env, world: World, cap: nat, rounds: seq<Round>, i: nat)
    requires var h := RunLooper(env, world, cap, rounds).history; i < |h| && Served(h[i])
    ensures var h := RunLooper(env, world, cap, rounds).history;
            var s := SessionOf(h[i].item);
            (h[i].Skipped? <==> s in RevokedHere(h[..i])) <==> s !in RevokedIn(h[..i]) - RevokedHere(h[..i])
  {
    var h := RunLooper(env, world, cap, rounds).history;
    SkippedExactly(env, world, cap, rounds, i);
    RevokedAt(h[..i], SessionOf(h[i].item));
    HereIsIn(h[..i]);
  }

  // ---- a case ----

  lemma {:induction false} OneRound(env: Env, world: World, st: Loop, m: Message)
    requires !st.core.exited
    ensures Ticks(env, world, st, [Messages([m])]) == Tick(env, world, st, [m])
    ensures Poll(st, [m]) == Take(st, m)
  {
    assert [Messages([m])][..0] == [] && [m][..0] == [];
    assert Ticks(env, world, st, [Messages([m])][..0]) == st;
    assert Poll(st, [m][..0]) == st;
  }

  lemma {:induction false} RevokeTick(env: Env, world: World, cap: nat)
    ensures var r := Tick(env, world, NewLoop(cap), [LocalRevoke(1)]);
            && r.batch == NO_BATCH.(revoked := {1}) && r.core == NewCore(cap)
            && r.history == [Revoked(1)] && r.taken == []
  {
    var st := NewLoop(cap);
    OneRound(env, world, st, LocalRevoke(1));
    var polled := Take(st, LocalRevoke(1));
    assert FrameworkOps(polled.batch) == [];
  }

  lemma {:induction false} HandoffTick(env: Env, world: World, st: Loop)
    requires !st.core.exited && st.batch == NO_BATCH.(revoked := {1}) && world.registers(2)
    ensures var r := Tick(env, world, st, [NewConnection(2)]);
            && r.batch == st.batch && r.core == st.core
            && r.history == st.history + [TookOver(2)] && r.taken == st.taken + [2]
  {
    OneRound(env, world, st, NewConnection(2));
    var polled := Take(st, NewConnection(2));
    assert FrameworkOps(polled.batch) == [];
    assert polled.history == st.history;
    var middle := Middle(env, world, polled);
    assert middle.history + [] == middle.history;
  }

  lemma {:induction false} WorkTick(env: Env, world: World, st: Loop, body: Body)
    requires !st.core.exited && st.batch == NO_BATCH.(revoked := {1})
    ensures var r := Tick(env, world, st, [Work(Tell(1, body))]);
            r.history == st.history + [Arrived(Tell(1, body)), Skipped(Tell(1, body))]
  {
    var x := Tell(1, body);
    OneRound(env, world, st, Work(x));
    var polled := Take(st, Work(x));
    InboundOnly(env, world, polled);
    assert polled.batch.notices[1..] == [];
    assert Serve(env, world, polled.ticks, {1}, polled.core, [], 0).events == [];
    assert ServeNotices(env, world, polled, 0).events == [Skipped(x)];
  }

  lemma {:induction false} RoundsNext(env: Env, world: World, cap: nat, rounds: seq<Round>, ms: seq<Message>)
    requires !RunLooper(env, world, cap, rounds).core.exited
    ensures RunLooper(env, world, cap, rounds + [Messages(ms)])
         == Tick(env, world, RunLooper(env, world, cap, rounds), ms)
  {
    assert (rounds + [Messages(ms)])[..|rounds|] == rounds;
  }

  /** A session is revoked, then a connection taken over. */
  function RevokeThenConnect(): seq<Round> {
    [Messages([LocalRevoke(1)])] + [Messages([NewConnection(2)])]
  }

  lemma {:induction false} RevokedThenConnected(env: Env, world: World, cap: nat)
    requires world.registers(2)
    ensures var st := RunLooper(env, world, cap, RevokeThenConnect());
            !st.core.exited && st.batch == NO_BATCH.(revoked := {1}) && st.history == [Revoked(1), TookOver(2)]
  {
    var first := [Messages([LocalRevoke(1)])];
    OneRound(env, world, NewLoop(cap), LocalRevoke(1));
    RevokeTick(env, world, cap);
    RoundsNext(env, world, cap, first, [NewConnection(2)]);
    HandoffTick(env, world, RunLooper(env, world, cap, first));
  }

  /** A session revoked on one connection, and work for the same number on the next: the work is skipped. */
  lemma {:induction false} NewConnectionSuppressed(env: Env, world: World, cap: nat, body: Body)
    requires world.registers(2)
    ensures var x := Tell(1, body);
            RunLooper(env, world, cap, RevokeThenConnect() + [Messages([Work(x)])]).history
            == [Revoked(1), TookOver(2), Arrived(x), Skipped(x)]
  {
    RevokedThenConnected(env, world, cap);
    RoundsNext(env, world, cap, RevokeThenConnect(), [Work(Tell(1, body))]);
    WorkTick(env, world, RunLooper(env, world, cap, RevokeThenConnect()), body);
  }
}
