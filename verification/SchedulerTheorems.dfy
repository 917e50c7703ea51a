/** What the scheduler does with inbound work, over every run. */
module SchedulerTheorems {
  import opened Engine
  import opened Scheduler
  import opened Sequences

  // ---- conservation and order ----

  predicate Arrival(e: Event, ask: bool) {
    e.Arrived? && e.item.Ask? == ask
  }

  predicate Departure(e: Event, ask: bool) {
    (e.Handed? || e.Skipped?) && e.item.Ask? == ask
  }

  /** The items of one kind that arrived, in order. */
  function Arrivals(h: seq<Event>, ask: bool): seq<Item> {
    if h == [] then []
    else
      var before, e := Arrivals(h[..|h| - 1], ask), h[|h| - 1];
      if Arrival(e, ask) then before + [e.item] else before
  }

  /** The items of one kind that were handed to the handler or skipped, in order. */
  function Departures(h: seq<Event>, ask: bool): seq<Item> {
    if h == [] then []
    else
      var before, e := Departures(h[..|h| - 1], ask), h[|h| - 1];
      if Departure(e, ask) then before + [e.item] else before
  }

  lemma {:induction false} ArrivalsConcat(a: seq<Event>, b: seq<Event>, ask: bool)
    ensures Arrivals(a + b, ask) == Arrivals(a, ask) + Arrivals(b, ask)
  {
    if b == [] {
      assert a + b == a;
    } else {
      assert (a + b)[..|a + b| - 1] == a + b[..|b| - 1];
      ArrivalsConcat(a, b[..|b| - 1], ask);
    }
  }

  lemma {:induction false} DeparturesConcat(a: seq<Event>, b: seq<Event>, ask: bool)
    ensures Departures(a + b, ask) == Departures(a, ask) + Departures(b, ask)
  {
    if b == [] {
      assert a + b == a;
    } else {
      assert (a + b)[..|a + b| - 1] == a + b[..|b| - 1];
      DeparturesConcat(a, b[..|b| - 1], ask);
    }
  }

  function Waiting(b: Batch, ask: bool): seq<Item> {
    if ask then b.requests else b.notices
  }

  ghost predicate AllOf(items: seq<Item>, ask: bool) {
    forall i :: 0 <= i < |items| ==> items[i].Ask? == ask
  }

  /** Everything that arrived has been handed over or skipped, in order, or is waiting, in order. */
  ghost predicate Conserved(h: seq<Event>, b: Batch, ask: bool) {
    Arrivals(h, ask) == Departures(h, ask) + Waiting(b, ask) && AllOf(Waiting(b, ask), ask)
  }

  /** Items were taken from the front, those of revoked sessions skipped and the others handed over. */
  ghost predicate Took(events: seq<Event>, items: seq<Item>, revoked: set<Session>) {
    && |events| <= |items|
    && forall i :: 0 <= i < |events| ==>
                     events[i] == if SessionOf(items[i]) in revoked then Skipped(items[i]) else Handed(items[i])
  }

  lemma {:induction false} TookFirst(e: Event, events: seq<Event>, items: seq<Item>, revoked: set<Session>)
    requires items != [] && Took(events, items[1..], revoked)
    requires e == if SessionOf(items[0]) in revoked then Skipped(items[0]) else Handed(items[0])
    ensures Took([e] + events, items, revoked) && items[|[e] + events|..] == items[1..][|events|..]
  {
    var all, rest := [e] + events, items[1..];
    forall i | 0 < i < |all|
      ensures all[i] == if SessionOf(items[i]) in revoked then Skipped(items[i]) else Handed(items[i])
    {
      assert all[i] == events[i - 1] && items[i] == rest[i - 1];
    }
  }

  /** Serving takes items from the front, and what it leaves keeps its order. */
  lemma {:induction false} ServeTakes(
    env: Env, world: World, tick: nat, revoked: set<Session>, c: Core, items: seq<Item>, n: nat)
    ensures var r := Serve(env, world, tick, revoked, c, items, n);
            Took(r.events, items, revoked) && r.rest == items[|r.events|..]
    decreases |items|
  {
    if items != [] {
      var x, rest := items[0], items[1..];
      var next := Step(env, c, OpOf(x));
      if SessionOf(x) in revoked {
        ServeTakes(env, world, tick, revoked, c, rest, n);
        TookFirst(Skipped(x), Serve(env, world, tick, revoked, c, rest, n).events, items, revoked);
      } else if !next.exited && n + 1 < BATCH_MSG_LIMIT && !world.late(tick, n + 1) {
        ServeTakes(env, world, tick, revoked, next, rest, n + 1);
        TookFirst(Handed(x), Serve(env, world, tick, revoked, next, rest, n + 1).events, items, revoked);
      }
    }
  }

  lemma {:induction false} TookDepartures(
    events: seq<Event>, items: seq<Item>, revoked: set<Session>, ask: bool, kind: bool)
    requires Took(events, items, revoked) && AllOf(items, ask)
    ensures Departures(events, kind) == if kind == ask then items[..|events|] else []
    ensures Arrivals(events, kind) == []
  {
    if events != [] {
      var n := |events| - 1;
      TookDepartures(events[..n], items, revoked, ask, kind);
      assert items[..n] + [items[n]] == items[..n + 1];
    }
  }

  lemma {:induction false} ServedConserved(
    h: seq<Event>, items: seq<Item>, events: seq<Event>, revoked: set<Session>, ask: bool)
    requires Arrivals(h, ask) == Departures(h, ask) + items && AllOf(items, ask) && Took(events, items, revoked)
    ensures Arrivals(h + events, ask) == Departures(h + events, ask) + items[|events|..]
  {
    TookDepartures(events, items, revoked, ask, ask);
    ArrivalsConcat(h, events, ask);
    DeparturesConcat(h, events, ask);
    assert items == items[..|events|] + items[|events|..];
    Assoc(Departures(h, ask), items[..|events|], items[|events|..]);
  }

  lemma {:induction false} OthersConserved(
    h: seq<Event>, items: seq<Item>, events: seq<Event>, revoked: set<Session>, ask: bool)
    requires AllOf(items, ask) && Took(events, items, revoked)
    ensures Arrivals(h + events, !ask) == Arrivals(h, !ask) && Departures(h + events, !ask) == Departures(h, !ask)
  {
    TookDepartures(events, items, revoked, ask, !ask);
    ArrivalsConcat(h, events, !ask);
    DeparturesConcat(h, events, !ask);
  }

  /** Serving one queue keeps both in balance. */
  lemma {:induction false} TookConserved(h: seq<Event>, b: Batch, events: seq<Event>, ask: bool, b': Batch)
    requires Conserved(h, b, ask) && Conserved(h, b, !ask)
    requires Took(events, Waiting(b, ask), b.revoked)
    requires Waiting(b', ask) == Waiting(b, ask)[|events|..] && Waiting(b', !ask) == Waiting(b, !ask)
    ensures Conserved(h + events, b', ask) && Conserved(h + events, b', !ask)
  {
    ServedConserved(h, Waiting(b, ask), events, b.revoked, ask);
    OthersConserved(h, Waiting(b, ask), events, b.revoked, ask);
  }

  // ---- revocation ----

  function RevokedIn(h: seq<Event>): set<Session> {
    if h == [] then {}
    else
      var before, e := RevokedIn(h[..|h| - 1]), h[|h| - 1];
      if e.Revoked? then before + {e.session} else before
  }

  /** Nothing is handed over for a session revoked earlier, and nothing is skipped for any other. */
  ghost predicate Lawful(h: seq<Event>) {
    h == []
    || (Lawful(h[..|h| - 1])
        && match h[|h| - 1]
           case Handed(x) => SessionOf(x) !in RevokedIn(h[..|h| - 1])
           case Skipped(x) => SessionOf(x) in RevokedIn(h[..|h| - 1])
           case _ => true)
  }

  lemma {:induction false} TookLawful(h: seq<Event>, events: seq<Event>, items: seq<Item>)
    requires Lawful(h) && Took(events, items, RevokedIn(h))
    ensures Lawful(h + events) && RevokedIn(h + events) == RevokedIn(h)
  {
    if events == [] {
      assert h + events == h;
    } else {
      var n := |events| - 1;
      TookLawful(h, events[..n], items);
      assert (h + events)[..|h| + n] == h + events[..n];
    }
  }

  // ---- every state of the loop ----

  ghost predicate Sound(st: Loop) {
    && Lawful(st.history) && RevokedIn(st.history) == st.batch.revoked
    && (!st.core.exited ==> Conserved(st.history, st.batch, true) && Conserved(st.history, st.batch, false))
    && (Closing in st.history ==> AllTaken(st.history, true) && AllTaken(st.history, false) && st.core.exited)
  }

  ghost predicate AllTaken(h: seq<Event>, ask: bool) {
    Arrivals(h, ask) == Departures(h, ask)
  }

  lemma {:induction false} SnocEvent(h: seq<Event>, e: Event, ask: bool)
    ensures Arrivals(h + [e], ask) == if Arrival(e, ask) then Arrivals(h, ask) + [e.item] else Arrivals(h, ask)
    ensures Departures(h + [e], ask) == if Departure(e, ask) then Departures(h, ask) + [e.item] else Departures(h, ask)
    ensures RevokedIn(h + [e]) == if e.Revoked? then RevokedIn(h) + {e.session} else RevokedIn(h)
    ensures !e.Handed? && !e.Skipped? && Lawful(h) ==> Lawful(h + [e])
  {
    assert (h + [e])[..|h|] == h;
  }

  /** What one more message does to a history, as far as work and revocations go. */
  lemma {:induction false} HeardEffect(h: seq<Event>, m: Message, ask: bool)
    ensures Arrivals(h + Heard(m), ask)
         == if m.Work? && m.item.Ask? == ask then Arrivals(h, ask) + [m.item] else Arrivals(h, ask)
    ensures Departures(h + Heard(m), ask) == Departures(h, ask)
    ensures RevokedIn(h + Heard(m)) == if m.LocalRevoke? then RevokedIn(h) + {m.session} else RevokedIn(h)
    ensures Lawful(h) ==> Lawful(h + Heard(m))
    ensures Closing in h + Heard(m) <==> Closing in h
  {
    if Heard(m) == [] {
      assert h + Heard(m) == h;
    } else {
      SnocEvent(h, Heard(m)[0], ask);
      assert Heard(m) == [Heard(m)[0]];
    }
  }

  lemma {:induction false} CollectEffect(b: Batch, m: Message, ask: bool)
    ensures Waiting(Collect(b, m), ask)
         == if m.Work? && m.item.Ask? == ask then Waiting(b, ask) + [m.item] else Waiting(b, ask)
    ensures Collect(b, m).revoked == if m.LocalRevoke? then b.revoked + {m.session} else b.revoked
  {
  }

  lemma {:induction false} TakeConserved(st: Loop, m: Message, ask: bool)
    requires Conserved(st.history, st.batch, ask)
    ensures Conserved(Take(st, m).history, Take(st, m).batch, ask)
  {
    HeardEffect(st.history, m, ask);
    CollectEffect(st.batch, m, ask);
    if m.Work? && m.item.Ask? == ask {
      Assoc(Departures(st.history, ask), Waiting(st.batch, ask), [m.item]);
    }
  }

  lemma {:induction false} TakeSound(st: Loop, m: Message)
    requires Sound(st) && !st.core.exited
    ensures Sound(Take(st, m))
  {
    assert Closing !in st.history;
    TakeConserved(st, m, true);
    TakeConserved(st, m, false);
    HeardEffect(st.history, m, true);
    CollectEffect(st.batch, m, true);
  }

  lemma {:induction false} PollKeepsCore(st: Loop, ms: seq<Message>)
    ensures Poll(st, ms).core == st.core
  {
    if ms != [] {
      PollKeepsCore(st, ms[..|ms| - 1]);
    }
  }

  lemma {:induction false} PollSound(st: Loop, ms: seq<Message>)
    requires Sound(st) && !st.core.exited
    ensures Sound(Poll(st, ms)) && Poll(st, ms).core == st.core
  {
    if ms != [] {
      PollSound(st, ms[..|ms| - 1]);
      TakeSound(Poll(st, ms[..|ms| - 1]), ms[|ms| - 1]);
    }
  }

  /** Serving one of the two queues, with what is left of it put back. */
  lemma {:induction false} ServedSound(st: Loop, ask: bool, r: Served, batch: Batch)
    requires Sound(st) && !st.core.exited
    requires Took(r.events, Waiting(st.batch, ask), st.batch.revoked) && batch.revoked == st.batch.revoked
    requires r.core.exited
             || (Waiting(batch, ask) == Waiting(st.batch, ask)[|r.events|..]
                 && Waiting(batch, !ask) == Waiting(st.batch, !ask))
    ensures Sound(st.(core := r.core, history := st.history + r.events, batch := batch))
  {
    TookLawful(st.history, r.events, Waiting(st.batch, ask));
    if !r.core.exited {
      TookConserved(st.history, st.batch, r.events, ask, batch);
    }
    assert Closing !in r.events;
    assert Closing !in st.history;
  }

  lemma {:induction false} EndTakesAll(h: seq<Event>, b: Batch, ask: bool)
    requires Conserved(h, b, ask) && Waiting(b, ask) == []
    ensures AllTaken(h + [Closing], ask)
  {
    SnocEvent(h, Closing, ask);
    assert Departures(h, ask) + [] == Departures(h, ask);
  }

  lemma {:induction false} EndSound(env: Env, st: Loop)
    requires Sound(st) && !st.core.exited && st.batch.requests == [] && st.batch.notices == []
    ensures Sound(EndOfChannel(env, st))
  {
    SnocEvent(st.history, Closing, true);
    EndTakesAll(st.history, st.batch, true);
    EndTakesAll(st.history, st.batch, false);
    ClosingEnds(env, st.core);
  }

  lemma {:induction false} ClosingEnds(env: Env, c: Core)
    ensures Close(env, c).exited
  {
  }

  lemma {:induction false} NoticesSound(env: Env, world: World, st: Loop, n: nat)
    requires Sound(st) && !st.core.exited && st.batch.requests == []
    ensures Sound(PhaseFiveNotices(env, world, st, n))
  {
    var r := ServeNotices(env, world, st, n);
    ServeTakes(env, world, st.ticks, st.batch.revoked, st.core, st.batch.notices, n);
    if r.core.exited {
      ServedSound(st, false, r, Cleared(st.batch));
    } else {
      ServedSound(st, false, r, st.batch.(notices := r.rest));
      if r.rest == [] {
        EndSound(env, st.(core := r.core, history := st.history + r.events, batch := st.batch.(notices := [])));
      }
    }
  }

  lemma {:induction false} PhaseFiveSound(env: Env, world: World, st: Loop)
    requires Sound(st) && !st.core.exited
    ensures Sound(PhaseFive(env, world, st))
  {
    var r := ServeRequests(env, world, st);
    ServeTakes(env, world, st.ticks, st.batch.revoked, st.core, st.batch.requests, 0);
    if r.core.exited {
      ServedSound(st, true, r, Cleared(st.batch));
    } else {
      ServedSound(st, true, r, st.batch.(requests := r.rest));
      if r.rest == [] {
        NoticesSound(env, world, RequestsServed(st, r), r.dispatched);
      }
    }
  }

  /** Taking over a connection touches neither work nor revocations. */
  lemma {:induction false} HandoverEffect(h: seq<Event>, world: World, handoff: Handoff, ask: bool)
    ensures var after := h + Handover(world, handoff);
            && Arrivals(after, ask) == Arrivals(h, ask) && Departures(after, ask) == Departures(h, ask)
            && RevokedIn(after) == RevokedIn(h) && (Lawful(h) ==> Lawful(after)) && (Closing in after <==> Closing in h)
  {
    if Handover(world, handoff) == [] {
      assert h + [] == h;
    } else {
      SnocEvent(h, TookOver(handoff.id), ask);
    }
  }

  lemma {:induction false} MiddleSound(env: Env, world: World, st: Loop)
    requires Sound(st) && !st.core.exited
    ensures Sound(Middle(env, world, st))
  {
    HandoverEffect(st.history, world, st.batch.handoff, true);
    HandoverEffect(st.history, world, st.batch.handoff, false);
  }

  lemma {:induction false} DispatchSound(env: Env, world: World, st: Loop)
    requires Sound(st) && !st.core.exited
    ensures Sound(DispatchBatch(env, world, st))
  {
    MiddleSound(env, world, st);
    var middle := Middle(env, world, st);
    if middle.core.exited {
      assert Closing !in st.history;
    } else {
      PhaseFiveSound(env, world, middle);
    }
  }

  lemma {:induction false} TurnSound(env: Env, world: World, st: Loop, round: Round)
    requires Sound(st) && !st.core.exited
    ensures Sound(Turn(env, world, st, round))
  {
    PollSound(st, round.messages);
    if round.Messages? {
      DispatchSound(env, world, Poll(st, round.messages));
    }
  }

  lemma {:induction false} TicksSound(env: Env, world: World, st: Loop, rounds: seq<Round>)
    requires Sound(st)
    ensures Sound(Ticks(env, world, st, rounds))
  {
    if rounds != [] {
      var init := rounds[..|rounds| - 1];
      TicksSound(env, world, st, init);
      if !Ticks(env, world, st, init).core.exited {
        TurnSound(env, world, Ticks(env, world, st, init), rounds[|rounds| - 1]);
      }
    }
  }

  /**
   Conservation across ticks. Until the looper exits, the requests that arrived are those handed over or skipped,
   followed by those waiting, in arrival order; the same holds of notifications.
   */
  lemma {:induction false} InboundConserved(env: Env, world: World, cap: nat, rounds: seq<Round>, ask: bool)
    ensures var st := RunLooper(env, world, cap, rounds);
            !st.core.exited ==> Arrivals(st.history, ask) == Departures(st.history, ask) + Waiting(st.batch, ask)
    ensures var st := RunLooper(env, world, cap, rounds);
            Closing in st.history ==> Arrivals(st.history, ask) == Departures(st.history, ask)
  {
    TicksSound(env, world, NewLoop(cap), rounds);
  }

  /** Once a revocation has been collected nothing more is handed over for its session; only such work is skipped. */
  lemma {:induction false} RevokedNeverHanded(env: Env, world: World, cap: nat, rounds: seq<Round>, i: nat)
    requires i < |RunLooper(env, world, cap, rounds).history|
    ensures var h := RunLooper(env, world, cap, rounds).history;
            && (h[i].Handed? ==> forall j :: 0 <= j < i ==> h[j] != Revoked(SessionOf(h[i].item)))
            && (h[i].Skipped? ==> exists j :: 0 <= j < i && h[j] == Revoked(SessionOf(h[i].item)))
  {
    TicksSound(env, world, NewLoop(cap), rounds);
    LawfulAt(RunLooper(env, world, cap, rounds).history, i);
  }

  lemma {:induction false} LawfulAt(h: seq<Event>, i: nat)
    requires i < |h| && Lawful(h)
    ensures h[i].Handed? ==> forall j :: 0 <= j < i ==> h[j] != Revoked(SessionOf(h[i].item))
    ensures h[i].Skipped? ==> exists j :: 0 <= j < i && h[j] == Revoked(SessionOf(h[i].item))
  {
    if i + 1 < |h| {
      LawfulAt(h[..|h| - 1], i);
    } else if h[i].Handed? || h[i].Skipped? {
      RevokedAt(h[..i], SessionOf(h[i].item));
    }
  }

  lemma {:induction false} RevokedAt(h: seq<Event>, s: Session)
    ensures s in RevokedIn(h) <==> exists j :: 0 <= j < |h| && h[j] == Revoked(s)
  {
    if h != [] {
      RevokedAt(h[..|h| - 1], s);
      assert h[|h| - 1] == Revoked(s) ==> s in RevokedIn(h);
    }
  }

  // ---- batches of inbound work alone ----

  /** A batch that holds inbound work alone goes straight to phase 5. */
  lemma {:induction false} InboundOnly(env: Env, world: World, st: Loop)
    requires st.batch == Inbound(st.batch) && !st.core.exited
    ensures DispatchBatch(env, world, st) == PhaseFive(env, world, st)
  {
    assert FrameworkOps(st.batch) == [];
    assert From(env, st.core, FrameworkOps(st.batch)) == st.core;
    MiddleOfInbound(env, world, st);
  }

  lemma {:induction false} MiddleOfInbound(env: Env, world: World, st: Loop)
    requires st.batch == Inbound(st.batch) && From(env, st.core, FrameworkOps(st.batch)) == st.core
    ensures Middle(env, world, st) == st
  {
    assert st.sent + [] == st.sent && st.taken + [] == st.taken && st.history + [] == st.history;
  }
}
