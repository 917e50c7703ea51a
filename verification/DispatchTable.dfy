/** The handler-typed store of pending requests, and the handler whose callbacks it runs. */
module DispatchTable {
  import opened Engine

  /** A handler: user code whose calls are numbered, and the reply ports it keeps. */
  class Actor {
    var trace: seq<Cause>
    var stash: seq<Port>
    var handed: seq<Port>
    var answers: seq<Answer>

    function Now(): Ledger
      reads this
    {
      Ledger(trace, stash, handed, answers)
    }

    constructor ()
      ensures Now() == NO_LEDGER
    {
      trace, stash, handed, answers := [], [], [], [];
    }

    /** The port's closure is taken and called; a value that cannot be serialized never gets as far as a frame. */
    method Send(p: Port, way: Way)
      modifies this`answers
      ensures answers == old(answers) + [Answer(p, way)]
    {
      answers := answers + [Answer(p, way)];
    }

    method Use(r: Release)
      modifies this`stash, this`answers
      ensures Now() == Let(old(Now()), r)
    {
      if r.index < |stash| {
        var p := stash[r.index];
        stash := stash[..r.index] + stash[r.index + 1..];
        Send(p, r.way);
      }
    }

    /** One callback without a dispatch context. */
    method Invoke(env: Env, cause: Cause) returns (o: Outcome)
      modifies this
      ensures Now() == Called(env, old(Now()), cause) && o == env.outcome(|old(trace)|)
    {
      var rs := env.releases(|trace|);
      for i := 0 to |rs|
        invariant Now() == LetAll(old(Now()), rs[..i])
        invariant trace == old(trace)
      {
        LetNext(old(Now()), rs, i);
        Use(rs[i]);
      }
      assert rs[..|rs|] == rs;
      o := env.outcome(|trace|);
      trace := trace + [cause];
    }

    /** The handler is dropped, and with it every port it still keeps. */
    method Drop()
      modifies this
      ensures Now() == Shutdown(old(Now()))
    {
      for i := 0 to |stash|
        modifies this`answers
        invariant answers == old(answers) + Refusals(stash[..i])
      {
        assert Refusals(stash[..i + 1]) == Refusals(stash[..i]) + [Answer(stash[i], Failure)];
        Send(stash[i], Failure);
      }
      assert stash[..|stash|] == stash;
      stash := [];
    }
  }

  lemma {:induction false} LetNext(l: Ledger, rs: seq<Release>, i: nat)
    requires i < |rs|
    ensures LetAll(l, rs[..i + 1]) == Let(LetAll(l, rs[..i]), rs[i])
  {
    assert rs[..i + 1][..i] == rs[..i];
  }

  lemma {:induction false} FailNext(env: Env, l: Ledger, d: Table, ts: seq<Token>, i: nat)
    requires i < |ts|
    ensures FailAll(d, env.peer, ts[..i + 1]) == Resolve(FailAll(d, env.peer, ts[..i]), Key(env.peer, ts[i]), Failed)
    ensures FailCalls(env, l, d, ts[..i + 1])
         == LedgerAfter(env, FailCalls(env, l, d, ts[..i]), FailAll(d, env.peer, ts[..i]), Key(env.peer, ts[i]),
                        Failed)
  {
    assert ts[..i + 1][..i] == ts[..i];
  }

  function LedgerAfter(env: Env, l: Ledger, d: Table, k: Key, v: Verdict): Ledger {
    if CallsHandler(d, k) then Called(env, l, CauseOf(v, k.token)) else l
  }

  datatype Fired = Nothing | Fired(outcome: Outcome)

  class Dispatch {
    var entries: map<Key, Origin>
    var asyncs: set<Key>
    var log: seq<Note>
    ghost var dropped: set<Key>

    ghost function Now(): Table
      reads this
    {
      Table(entries, asyncs, log, dropped)
    }

    constructor ()
      ensures Now() == NoBooks(0).tab
    {
      entries, asyncs, log := map[], {}, [];
      dropped := {};
    }

    method Install(k: Key, o: Origin)
      modifies this
      ensures Now() == Insert(old(Now()), k, o)
    {
      entries := entries[k := o];
    }

    method InstallAsync(k: Key)
      modifies this
      ensures Now() == InsertAsync(old(Now()), k)
    {
      asyncs := asyncs + {k};
    }

    /** Consume an entry and fire on_reply or on_failed; only a handler's own entry runs user code. */
    method Fire(env: Env, k: Key, v: Verdict, handler: Actor) returns (r: Fired)
      modifies this, handler
      ensures Now() == Resolve(old(Now()), k, v)
      ensures handler.Now() == LedgerAfter(env, old(handler.Now()), old(Now()), k, v)
      ensures r == if !Has(old(Now()), k) then Nothing
                   else Fired(if CallsHandler(old(Now()), k) then env.outcome(|old(handler.trace)|) else Continue)
    {
      if k in entries {
        var origin := entries[k];
        entries := entries - {k};
        log := log + [Note(k, v)];
        if origin == Sync {
          return Fired(Continue);
        }
        var o := handler.Invoke(env, CauseOf(v, k.token));
        return Fired(o);
      }
      if k in asyncs {
        asyncs := asyncs - {k};
        log := log + [Note(k, v)];
        return Fired(Continue);
      }
      return Nothing;
    }

    /** Take an entry back without calling anything. */
    method Cancel(k: Key) returns (removed: bool)
      modifies this
      ensures Now() == Resolve(old(Now()), k, RolledBack) && (removed <==> Has(old(Now()), k))
    {
      removed := k in entries || k in asyncs;
      if removed {
        log := log + [Note(k, RolledBack)];
      }
      if k in entries {
        entries := entries - {k};
      } else {
        asyncs := asyncs - {k};
      }
    }

    /** Resolve a cascade: fail each token that still has an entry. */
    method FailTokens(env: Env, ts: seq<Token>, handler: Actor)
      modifies this, handler
      ensures Now() == FailAll(old(Now()), env.peer, ts)
      ensures handler.Now() == FailCalls(env, old(handler.Now()), old(Now()), ts)
    {
      for i := 0 to |ts|
        invariant Now() == FailAll(old(Now()), env.peer, ts[..i])
        invariant handler.Now() == FailCalls(env, old(handler.Now()), old(Now()), ts[..i])
      {
        FailNext(env, old(handler.Now()), old(Now()), ts, i);
        var _ := Fire(env, Key(env.peer, ts[i]), Failed, handler);
      }
      assert ts[..|ts|] == ts;
    }

    method Clear()
      modifies this
      ensures Now() == Discard(old(Now()))
    {
      dropped := dropped + entries.Keys + asyncs;
      entries, asyncs := map[], {};
    }
  }
}
