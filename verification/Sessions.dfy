/** The protocol layer of a connection: token allocation, the cap, and which requests a failure takes down. */
module Sessions {
  import opened Engine

  class RequestCorrelator {
    var nextToken: Token
    var outstanding: nat
    var requestCap: nat
    var tokenSessions: map<Token, Session>

    function Now(): Correlator
      reads this
    {
      Correlator(nextToken, outstanding, requestCap, tokenSessions)
    }

    constructor (cap: nat)
      ensures Now() == NoBooks(cap).cor
    {
      nextToken, outstanding, requestCap, tokenSessions := 0, 0, cap, map[];
    }

    method AllocateToken(s: Session) returns (t: Token)
      modifies this
      ensures t == old(nextToken) && Now() == Allocate(old(Now()), s)
    {
      t := nextToken;
      nextToken := nextToken + 1;
      outstanding := outstanding + 1;
      tokenSessions := tokenSessions[t := s];
    }

    method RecordResolution(t: Token)
      modifies this
      ensures Now() == Settle(old(Now()), t)
    {
      tokenSessions := tokenSessions - {t};
      if outstanding > 0 {
        outstanding := outstanding - 1;
      }
    }

    predicate WouldExceedCap()
      reads this
      ensures WouldExceedCap() <==> Now().WouldExceed()
    {
      requestCap > 0 && outstanding >= requestCap
    }

    method Reset()
      modifies this
      ensures Now() == Clear(old(Now()))
    {
      outstanding := 0;
      tokenSessions := map[];
    }
  }

  /** The tokens a cascade took from the correlator; whoever holds them has to fail each. */
  class TeardownSet {
    var tokens: seq<Key>
    var consumed: bool

    constructor (tokens: seq<Key>)
      ensures this.tokens == tokens && !consumed
    {
      this.tokens, consumed := tokens, false;
    }

    method Drain() returns (ks: seq<Key>)
      modifies this
      ensures ks == old(tokens) && tokens == [] && Droppable()
    {
      ks := tokens;
      tokens, consumed := [], true;
    }

    /** Dropping the set otherwise is an error. */
    predicate Droppable()
      reads this
    {
      consumed || tokens == []
    }
  }

  function Keys(peer: Peer, ts: seq<Token>): seq<Key> {
    seq(|ts|, i requires 0 <= i < |ts| => Key(peer, ts[i]))
  }

  class ActiveSession {
    const correlator: RequestCorrelator
    const primary: Peer

    constructor (primary: Peer, cap: nat)
      ensures this.primary == primary && fresh(correlator) && correlator.Now() == NoBooks(cap).cor
    {
      correlator := new RequestCorrelator(cap);
      this.primary := primary;
    }

    /** `walk` lists a set of tokens in the order the hash table yields them. */
    method CascadeSessionFailure(s: Session, walk: set<Token> -> seq<Token>) returns (r: TeardownSet)
      modifies correlator
      ensures fresh(r) && !r.consumed
      ensures r.tokens == Keys(primary, walk(TokensOf(old(correlator.Now()), s)))
      ensures correlator.Now() == SettleAll(old(correlator.Now()), walk(TokensOf(old(correlator.Now()), s)))
    {
      var tokens := walk(TokensOf(correlator.Now(), s));
      var entries := Keys(primary, tokens);
      for i := 0 to |tokens|
        invariant correlator.Now() == SettleAll(old(correlator.Now()), tokens[..i])
      {
        SettleNext(old(correlator.Now()), tokens, i);
        correlator.RecordResolution(tokens[i]);
      }
      assert tokens[..|tokens|] == tokens;
      r := new TeardownSet(entries);
    }

    method CascadeConnectionFailure(walk: set<Token> -> seq<Token>) returns (r: TeardownSet)
      modifies correlator
      ensures fresh(r) && !r.consumed
      ensures r.tokens == Keys(primary, walk(old(correlator.Now()).sessions.Keys))
      ensures correlator.Now() == Clear(old(correlator.Now()))
    {
      var entries := Keys(primary, walk(correlator.tokenSessions.Keys));
      correlator.Reset();
      r := new TeardownSet(entries);
    }
  }

  lemma {:induction false} SettleNext(c: Correlator, ts: seq<Token>, i: nat)
    requires i < |ts|
    ensures SettleAll(c, ts[..i + 1]) == Settle(SettleAll(c, ts[..i]), ts[i])
  {
    assert ts[..i + 1][..i] == ts[..i];
  }
}
