/** What the correlator and the dispatch table keep between them, whatever happens to the requests. */
module EngineBooks {
  import opened Enumeration
  import opened Engine

  /** How often an entry was resolved. */
  ghost function Times(log: seq<Note>, k: Key): nat {
    if log == [] then 0
    else Times(log[..|log| - 1], k) + if log[|log| - 1].key == k then 1 else 0
  }

  lemma {:induction false} TimesSnoc(log: seq<Note>, n: Note, k: Key)
    ensures Times(log + [n], k) == Times(log, k) + if n.key == k then 1 else 0
  {
    assert (log + [n])[..|log|] == log;
  }

  /** The tokens whose entry is waiting: those of the correlator, except some already used up by a panicking call. */
  predicate Awaited(peer: Peer, b: Books, gone: set<Token>, k: Key) {
    k.peer == peer && k.token in b.cor.sessions && k.token !in gone
  }

  predicate Issued(peer: Peer, b: Books, k: Key) {
    k.peer == peer && k.token < b.cor.next
  }

  /** The correlator counts its tokens exactly, and all of them have been allocated. */
  ghost predicate Counted(c: Correlator) {
    c.outstanding == |c.sessions| && forall t :: t in c.sessions ==> t < c.next
  }

  /** One key: it has an entry, in one of the maps only, while it is awaited; and was resolved once if no longer. */
  ghost predicate KeyAgreed(peer: Peer, b: Books, gone: set<Token>, k: Key) {
    && (Has(b.tab, k) <==> Awaited(peer, b, gone, k))
    && !(k in b.tab.entries && k in b.tab.asyncs)
    && Times(b.tab.log, k) == if Issued(peer, b, k) && !Awaited(peer, b, gone, k) then 1 else 0
  }

  /**
   The two layers agree. The dispatch table holds exactly one entry for each outstanding token of the primary
   connection; every other token ever issued has been resolved exactly once; nothing was discarded.
   */
  ghost predicate Agreed(peer: Peer, b: Books, gone: set<Token>) {
    && Counted(b.cor)
    && gone <= b.cor.sessions.Keys
    && b.tab.dropped == {}
    && forall k :: KeyAgreed(peer, b, gone, k)
  }

  lemma {:induction false} NoneAgreed(peer: Peer, cap: nat)
    ensures Agreed(peer, NoBooks(cap), {})
  {
  }

  // ---- one request ----

  lemma {:induction false} AllocateCounted(c: Correlator, s: Session)
    requires Counted(c)
    ensures Counted(Allocate(c, s))
  {
    assert Allocate(c, s).sessions.Keys == c.sessions.Keys + {c.next};
  }

  lemma {:induction false} SettleCounted(c: Correlator, t: Token)
    requires Counted(c) && t in c.sessions
    ensures Counted(Settle(c, t))
  {
    assert Settle(c, t).sessions.Keys == c.sessions.Keys - {t};
  }

  lemma {:induction false} InstallAgreed(peer: Peer, b: Books, s: Session, o: Origin)
    requires Agreed(peer, b, {})
    ensures Agreed(peer, Install(peer, b, s, o), {})
  {
    AllocateCounted(b.cor, s);
    forall k ensures KeyAgreed(peer, Install(peer, b, s, o), {}, k) {
      assert KeyAgreed(peer, b, {}, k);
    }
  }

  lemma {:induction false} AsyncAgreed(peer: Peer, b: Books, s: Session)
    requires Agreed(peer, b, {})
    ensures Agreed(peer, SendAsync(peer, b, s), {})
  {
    AllocateCounted(b.cor, s);
    forall k ensures KeyAgreed(peer, SendAsync(peer, b, s), {}, k) {
      assert KeyAgreed(peer, b, {}, k);
    }
  }

  /** Taking one entry out leaves the table short of exactly that token. */
  lemma {:induction false} ResolveAgreed(peer: Peer, b: Books, t: Token, v: Verdict)
    requires Agreed(peer, b, {}) && t in b.cor.sessions
    ensures Agreed(peer, b.(tab := Resolve(b.tab, Key(peer, t), v)), {t})
  {
    var key := Key(peer, t);
    assert KeyAgreed(peer, b, {}, key);
    forall k ensures KeyAgreed(peer, b.(tab := Resolve(b.tab, key, v)), {t}, k) {
      assert KeyAgreed(peer, b, {}, k);
      TimesSnoc(b.tab.log, Note(key, v), k);
    }
  }

  lemma {:induction false} SettleAgreed(peer: Peer, b: Books, t: Token)
    requires Agreed(peer, b, {t})
    ensures Agreed(peer, b.(cor := Settle(b.cor, t)), {})
  {
    assert t in {t};
    SettleCounted(b.cor, t);
    forall k ensures KeyAgreed(peer, b.(cor := Settle(b.cor, t)), {}, k) {
      assert KeyAgreed(peer, b, {t}, k);
    }
  }

  lemma {:induction false} DischargeAgreed(peer: Peer, b: Books, t: Token, v: Verdict)
    requires Agreed(peer, b, {}) && t in b.cor.sessions
    ensures Agreed(peer, Discharge(peer, b, t, v), {})
  {
    ResolveAgreed(peer, b, t, v);
    SettleAgreed(peer, b.(tab := Resolve(b.tab, Key(peer, t), v)), t);
  }

  lemma {:induction false} SendAgreed(env: Env, b: Books, s: Session, o: Origin)
    requires Agreed(env.peer, b, {})
    ensures Agreed(env.peer, SendRequest(env, b, s, o), {})
  {
    InstallAgreed(env.peer, b, s, o);
    if env.wire(b.attempts) == Refused {
      DischargeAgreed(env.peer, Install(env.peer, b, s, o), b.cor.next, RolledBack);
    }
  }

  // ---- a cascade ----

  ghost predicate Distinct(ts: seq<Token>) {
    forall i, j :: 0 <= i < j < |ts| ==> ts[i] != ts[j]
  }

  lemma {:induction false} SettleAllEffect(c: Correlator, ts: seq<Token>)
    requires Counted(c) && Distinct(ts) && forall t :: t in ts ==> t in c.sessions
    ensures var r := SettleAll(c, ts);
            Counted(r) && r.next == c.next && r.cap == c.cap && Remains(c, ts, r)
  {
    if ts != [] {
      var init, last := ts[..|ts| - 1], ts[|ts| - 1];
      assert ts == init + [last];
      SettleAllEffect(c, init);
      SettleCounted(SettleAll(c, init), last);
    }
  }

  /** The listed tokens are gone; the others keep their session. */
  ghost predicate Remains(c: Correlator, ts: seq<Token>, r: Correlator) {
    && (forall t :: t in r.sessions <==> t in c.sessions && t !in ts)
    && (forall t :: t in r.sessions ==> r.sessions[t] == c.sessions[t])
  }

  predicate Listed(peer: Peer, ts: seq<Token>, k: Key) {
    k.peer == peer && k.token in ts
  }

  /** What failing a list of tokens does to one key. */
  ghost predicate KeyFailed(d: Table, peer: Peer, ts: seq<Token>, r: Table, k: Key) {
    && (Has(r, k) <==> Has(d, k) && !Listed(peer, ts, k))
    && !(k in r.entries && k in r.asyncs)
    && Times(r.log, k) == Times(d.log, k) + (if Has(d, k) && Listed(peer, ts, k) then 1 else 0)
    && (k in r.entries ==> k in d.entries && r.entries[k] == d.entries[k])
    && (k in r.asyncs ==> k in d.asyncs)
  }

  /** Resolving one key takes its entry and leaves every other as it was. */
  lemma {:induction false} ResolveEffect(d: Table, key: Key, v: Verdict, k: Key)
    requires !(k in d.entries && k in d.asyncs)
    ensures var r := Resolve(d, key, v);
            if k == key then !Has(r, k) && Times(r.log, k) == Times(d.log, k) + if Has(d, k) then 1 else 0
            else (k in r.entries <==> k in d.entries) && (k in r.entries ==> r.entries[k] == d.entries[k])
                 && (k in r.asyncs <==> k in d.asyncs) && Times(r.log, k) == Times(d.log, k)
  {
    TimesSnoc(d.log, Note(key, v), k);
  }

  lemma {:induction false} FailOneEffect(d: Table, peer: Peer, ts: seq<Token>, before: Table, t: Token, k: Key)
    requires KeyFailed(d, peer, ts, before, k) && t !in ts
    ensures KeyFailed(d, peer, ts + [t], Resolve(before, Key(peer, t), Failed), k)
  {
    ResolveEffect(before, Key(peer, t), Failed, k);
    if k == Key(peer, t) {
      assert !Listed(peer, ts, k) && Listed(peer, ts + [t], k);
    } else {
      assert Listed(peer, ts + [t], k) <==> Listed(peer, ts, k);
    }
  }

  /** Failing a list of tokens resolves each listed entry that is still there, once, and touches nothing else. */
  lemma {:induction false} FailAllEffect(d: Table, peer: Peer, ts: seq<Token>, k: Key)
    requires Distinct(ts) && !(k in d.entries && k in d.asyncs)
    ensures KeyFailed(d, peer, ts, FailAll(d, peer, ts), k)
  {
    if ts != [] {
      var init, last := ts[..|ts| - 1], ts[|ts| - 1];
      FailAllEffect(d, peer, init, k);
      FailOneEffect(d, peer, init, FailAll(d, peer, init), last, k);
      assert ts == init + [last];
    }
  }

  lemma {:induction false} FailAllDropsNone(d: Table, peer: Peer, ts: seq<Token>)
    ensures FailAll(d, peer, ts).dropped == d.dropped
  {
    if ts != [] {
      FailAllDropsNone(d, peer, ts[..|ts| - 1]);
    }
  }

  lemma {:induction false} TeardownAgreed(env: Env, b: Books, s: Session)
    requires env.Fair() && Agreed(env.peer, b, {})
    ensures var ts := SessionTokens(env, b, s);
            Agreed(env.peer, Books(SettleAll(b.cor, ts), FailAll(b.tab, env.peer, ts), b.attempts), {})
  {
    var ts := SessionTokens(env, b, s);
    assert Enumerates(ts, TokensOf(b.cor, s));
    SettleAllEffect(b.cor, ts);
    FailAllDropsNone(b.tab, env.peer, ts);
    forall k ensures KeyAgreed(env.peer, Books(SettleAll(b.cor, ts), FailAll(b.tab, env.peer, ts), b.attempts), {}, k) {
      assert KeyAgreed(env.peer, b, {}, k);
      FailAllEffect(b.tab, env.peer, ts, k);
    }
  }

  /**
   The destruction sequence leaves nothing pending and discards nothing unresolved, even after a panic in a callback.
   */
  lemma {:induction false} WreckAgreed(env: Env, b: Books, gone: set<Token>)
    requires env.Fair() && Agreed(env.peer, b, gone)
    ensures Agreed(env.peer, Wreck(env, b), {})
    ensures Wreck(env, b).cor.sessions == map[]
  {
    var ts := AllTokens(env, b);
    assert Enumerates(ts, b.cor.sessions.Keys);
    var r := FailAll(b.tab, env.peer, ts);
    FailAllDropsNone(b.tab, env.peer, ts);
    forall k ensures !Has(r, k) && KeyAgreed(env.peer, Wreck(env, b), {}, k) {
      assert KeyAgreed(env.peer, b, gone, k);
      FailAllEffect(b.tab, env.peer, ts, k);
    }
    NothingLeft(r);
  }

  lemma {:induction false} NothingLeft(d: Table)
    requires forall k :: !Has(d, k)
    ensures d.entries.Keys == {} && d.asyncs == {}
  {
    assert forall k :: k in d.entries ==> Has(d, k);
    assert forall k :: k in d.asyncs ==> Has(d, k);
  }
}
