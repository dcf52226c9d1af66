/** Tokens, the grants they belong to and the chain of refresh tokens: what every operation
    of a run keeps. */
module Tokens {
  import opened Prelude
  import opened Store
  import opened Access
  import opened Effects
  import opened Links
  import opened Apps
  import opened Reload
  import opened Runs
  import Flow

  /** A token and its grant, while the grant exists, are for the same link. */
  ghost predicate FamiliesSound(s: State, past: History) {
    && (forall g :: g in s.db.grants ==> g in past.births)
    && forall h :: h in s.db.tokens ==>
         && h in past.hashes
         && s.db.tokens[h].grant in past.births
         && (s.db.tokens[h].grant in s.db.grants ==>
               s.db.grants[s.db.tokens[h].grant].server == s.db.tokens[h].server)
  }

  /** The refresh tokens of a grant form one chain, and all but the last have been used up. */
  ghost predicate ChainSound(s: State, chain: seq<string>, grant: string) {
    forall i :: 0 <= i < |chain| && chain[i] in s.db.tokens ==>
      && s.db.tokens[chain[i]].kind.Refresh?
      && s.db.tokens[chain[i]].grant == grant
      && (i < |chain| - 1 ==> s.db.tokens[chain[i]].revoked)
  }

  ghost predicate ChainsSound(s: State, past: History) {
    && past.chains.Keys <= past.births.Keys
    && (forall g :: g in past.chains ==> ChainSound(s, past.chains[g], g))
    && (forall g, h :: g in past.chains && h in past.chains[g] ==> h in past.hashes)
    && forall h :: h in s.db.tokens && s.db.tokens[h].kind.Refresh? ==>
         s.db.tokens[h].grant in past.chains && h in past.chains[s.db.tokens[h].grant]
  }

  /** A used refresh token stays in the table until it expires. */
  ghost predicate UsedKept(s: State, past: History, clock: int) {
    forall h :: h in past.used && past.used[h].expiresAt >= clock ==>
      && h in s.db.tokens
      && s.db.tokens[h].kind.Refresh? && s.db.tokens[h].revoked
      && s.db.tokens[h].grant == past.used[h].grant
      && s.db.tokens[h].expiresAt == past.used[h].expiresAt
  }

  ghost predicate Sound(s: State, past: History, clock: int) {
    FamiliesSound(s, past) && ChainsSound(s, past) && UsedKept(s, past, clock)
  }

  // ----- operations that issue nothing

  /** Tokens are revoked or pruned, but no unexpired refresh token leaves the table; grants go. */
  ghost predicate Weakens(s: State, after: State, now: int) {
    && (forall h :: h in after.db.tokens ==>
          && h in s.db.tokens
          && after.db.tokens[h] == s.db.tokens[h].(revoked := after.db.tokens[h].revoked)
          && (s.db.tokens[h].revoked ==> after.db.tokens[h].revoked))
    && (forall h :: h in s.db.tokens && s.db.tokens[h].kind.Refresh? && s.db.tokens[h].expiresAt >= now ==>
          h in after.db.tokens)
    && forall g :: g in after.db.grants ==>
         g in s.db.grants && after.db.grants[g].server == s.db.grants[g].server
  }

  lemma {:induction false} WeakensKeeps(s: State, past: History, clock: int, after: State, next: History, now: int)
    requires Sound(s, past, clock) && Weakens(s, after, now) && clock <= now
    requires next.births == past.births && next.hashes == past.hashes
    requires next.chains == past.chains && next.used == past.used
    ensures Sound(after, next, now)
  {
    forall g | g in past.chains ensures ChainSound(after, past.chains[g], g) {
      assert ChainSound(s, past.chains[g], g);
    }
  }

  lemma {:induction false} InnerWeakens(s: State, id: string, after: State, now: int)
    requires InnerEffect(s, id, after)
    ensures Weakens(s, after, now)
  {
  }

  lemma {:induction false} ServersWeaken(s: State, reached: map<string, nat>, now: int)
    ensures Weakens(s, RevokeServers(s, reached), now)
  {
  }

  lemma {:induction false} AppliedWeakens(s: State, plans: seq<LinkPlan>, loaded: Option<Loaded>, weather: seq<bool>,
                       weathers: map<string, seq<bool>>, now: int)
    ensures Weakens(s, Applied(s, plans, loaded, weather, weathers).0, now)
  {
    if loaded.Some? {
      var compiled := SignaturesOf(Plans(loaded.value));
      ServersWeaken(s, Progress(ToRevoke(s.db, LoadedLinks(loaded.value), compiled), weathers), now);
    }
  }

  lemma {:induction false} AuthorizeWeakens(lib: Library, s: State, bearer: string, server: string, now: int,
                                            weather: seq<bool>)
    ensures Weakens(s, Access.Authorize(lib, s, bearer, server, now, weather).0, now)
  {
  }

  lemma {:induction false} SweepWeakens(s: State, now: int, weather: seq<bool>)
    ensures Weakens(s, Access.Sweep(s, now, weather), now)
  {
  }

  lemma {:induction false} RevokeWeakens(lib: Library, s: State, token: string, weather: seq<bool>, now: int)
    ensures Weakens(s, Access.Revoke(lib, s, token, weather).0, now)
  {
    var hash := lib.sha256(token);

    if hash in s.db.tokens {
      var id := s.db.tokens[hash].grant;
      InnerSummary(s, id, Up(weather, 2), Up(weather, 3));
      InnerWeakens(s, id, RevokeGrantInner(s, id, Up(weather, 2), Up(weather, 3)).0, now);
    }
  }

  lemma {:induction false} RevokeGrantWeakens(s: State, id: string, weather: seq<bool>, now: int)
    ensures Weakens(s, Access.RevokeGrant(s, id, weather).0, now)
  {
    InnerSummary(s, id, Up(weather, 0), Up(weather, 1));
    InnerWeakens(s, id, RevokeGrantInner(s, id, Up(weather, 0), Up(weather, 1)).0, now);
  }

  lemma {:induction false} RevokeAllWeakens(s: State, weather: seq<bool>, now: int)
    ensures Weakens(s, Access.RevokeAll(s, weather).0, now)
  {
    hide Access.RevokeAll;
    RevokeAllTables(s, weather);
  }

  lemma {:induction false} RevokeAllTables(s: State, weather: seq<bool>)
    ensures var after := Access.RevokeAll(s, weather).0;
            && (after.db.grants == s.db.grants || after.db.grants == map[])
            && (after.db.tokens == s.db.tokens || after.db.tokens == AllRevoked(s.db.tokens))
  {
  }

  lemma {:induction false} StreamsWeaken(s: State, grant: string, id: nat, now: int)
    ensures Weakens(s, OpenGrantStream(s, grant).0, now) && Weakens(s, DropGrantStream(s, grant, id), now)
  {
  }

  lemma {:induction false} RestartWeakens(s: State, now: int)
    ensures Weakens(s, State(s.db, map[], map[], map[], {}, 0), now)
  {
  }

  lemma {:induction false} OthersWeaken(lib: Library, w: World, e: Event)
    requires !Adds(e.op) && !e.op.Refresh?
    ensures Weakens(w.s, AfterOther(lib, w, e), e.now)
  {
    hide Weakens, Access.Authorize, OpenGrantStream, DropGrantStream, Access.Revoke, Access.RevokeGrant,
         Access.RevokeAll, RevokeServers, Access.Sweep, Applied;
    var s := w.s;

    match e.op {
      case Authorize(bearer, server) => AuthorizeWeakens(lib, s, bearer, server, e.now, e.weather);
      case OpenStream(grant) => StreamsWeaken(s, grant, 0, e.now);
      case DropStream(grant, stream) => StreamsWeaken(s, grant, stream, e.now);
      case Revoke(token) => RevokeWeakens(lib, s, token, e.weather, e.now);
      case RevokeGrant(id) => RevokeGrantWeakens(s, id, e.weather, e.now);
      case RevokeServer(server) => ServersWeaken(s, map[server := Completed(e.weather)], e.now);
      case RevokeAll => RevokeAllWeakens(s, e.weather, e.now);
      case Sweep => SweepWeakens(s, e.now, e.weather);
      case Apply(loaded, weathers) => AppliedWeakens(s, w.plans, loaded, e.weather, weathers, e.now);
      case Restart => RestartWeakens(s, e.now);
    }
  }

  lemma {:induction false} BeginWeakens(lib: Library, s: State, request: NewRequest, nonce: string, code: string,
                                        now: int, after: State)
    requires BeginEffect(lib, s, request, nonce, code, now, after)
    ensures Weakens(s, after, now)
  {
  }

  lemma {:induction false} ApproveWeakens(s: State, id: string, code: string, now: int, compares: bool, after: State)
    requires ApproveEffect(s, id, code, now, compares, after)
    ensures Weakens(s, after, now)
  {
  }

  // ----- operations that issue tokens

  /** Storing a new pair at the end of a chain whose tokens are all used up. */
  lemma {:induction false} PairKeeps(lib: Library, s: State, past: History, clock: int, grant: string,
                                     server: string, pair: TokenPair, after: State, now: int)
    requires Sound(s, past, clock) && clock <= now
    requires grant in s.db.grants && s.db.grants[grant].server == server
    requires lib.sha256(pair.access) !in past.hashes && lib.sha256(pair.refresh) !in past.hashes
    requires lib.sha256(pair.access) != lib.sha256(pair.refresh)
    requires forall h :: h in s.db.tokens && s.db.tokens[h].kind.Refresh? && s.db.tokens[h].grant == grant ==>
               s.db.tokens[h].revoked
    requires StoresPair(lib, s.db.tokens, grant, server, pair, now, after.db.tokens)
    requires after.db.grants == s.db.grants
    ensures Sound(after, RecordPair(lib, past, grant, pair, after), now)
  {
    PairFamilies(lib, s, past, grant, server, pair, after, now);
    PairChains(lib, s, past, grant, server, pair, after, now);
    PairUsed(lib, s, past, clock, grant, server, pair, after, now);
  }

  lemma {:induction false} PairFamilies(lib: Library, s: State, past: History, grant: string, server: string,
                                        pair: TokenPair, after: State, now: int)
    requires FamiliesSound(s, past)
    requires grant in s.db.grants && s.db.grants[grant].server == server
    requires StoresPair(lib, s.db.tokens, grant, server, pair, now, after.db.tokens)
    requires after.db.grants == s.db.grants
    ensures FamiliesSound(after, RecordPair(lib, past, grant, pair, after))
  {
  }

  lemma {:induction false} PairUsed(lib: Library, s: State, past: History, clock: int, grant: string,
                                    server: string, pair: TokenPair, after: State, now: int)
    requires UsedKept(s, past, clock) && clock <= now
    requires StoresPair(lib, s.db.tokens, grant, server, pair, now, after.db.tokens)
    ensures UsedKept(after, RecordPair(lib, past, grant, pair, after), now)
  {
  }

  lemma {:induction false} PairChains(lib: Library, s: State, past: History, grant: string, server: string,
                                      pair: TokenPair, after: State, now: int)
    requires FamiliesSound(s, past) && ChainsSound(s, past) && grant in past.births
    requires lib.sha256(pair.access) !in past.hashes && lib.sha256(pair.refresh) !in past.hashes
    requires lib.sha256(pair.access) != lib.sha256(pair.refresh)
    requires forall h :: h in s.db.tokens && s.db.tokens[h].kind.Refresh? && s.db.tokens[h].grant == grant ==>
               s.db.tokens[h].revoked
    requires StoresPair(lib, s.db.tokens, grant, server, pair, now, after.db.tokens)
    ensures ChainsSound(after, RecordPair(lib, past, grant, pair, after))
  {
    var next := RecordPair(lib, past, grant, pair, after);
    forall g | g in next.chains ensures ChainSound(after, next.chains[g], g) {
      if g in past.chains {
        assert ChainSound(s, past.chains[g], g);
      }
    }
  }

  lemma {:induction false} GrantAdded(s: State, past: History, clock: int, grant: string, row: Grant, after: State,
                                      next: History, now: int)
    requires Sound(s, past, clock) && grant !in past.births && clock <= now
    requires after.db.tokens == s.db.tokens && after.db.grants == s.db.grants[grant := row]
    requires grant in next.births && past.births.Keys <= next.births.Keys
    requires next.hashes == past.hashes && next.chains == past.chains && next.used == past.used
    ensures Sound(after, next, now)
  {
    forall g | g in past.chains ensures ChainSound(after, past.chains[g], g) {
      assert ChainSound(s, past.chains[g], g);
    }
  }

  lemma {:induction false} ExchangeKeeps(
    lib: Library, s: State, past: History, clock: int, code: string, verifier: string, client: string,
    redirectUri: string, grant: string, pair: TokenPair, now: int, after: State)
    requires Sound(s, past, clock) && clock <= now && grant !in past.births
    requires code in s.codes ==> code in past.minted && past.minted[code] in past.requests
    requires lib.sha256(pair.access) !in past.hashes && lib.sha256(pair.refresh) !in past.hashes
    requires lib.sha256(pair.access) != lib.sha256(pair.refresh)
    requires ExchangeEffect(lib, s, code, verifier, client, redirectUri, grant, pair, now, after)
    ensures Sound(after, RecordExchange(lib, past, code, verifier, client, redirectUri, grant, pair, after), now)
  {
    if GrantMade(lib, s, code, verifier, client, redirectUri, grant, pair, now, after) {
      var made := past.(
        exchanged := past.exchanged[grant := Exchange(code, verifier, client, redirectUri)],
        births := past.births[grant := past.requests[past.minted[code]].birth]);
      var recorded := after.(db := after.db.(tokens := s.db.tokens));
      GrantAdded(s, past, clock, grant, after.db.grants[grant], recorded, made, now);
      PairKeeps(lib, recorded, made, now, grant, s.codes[code].server, pair, after, now);
    } else {
      WeakensKeeps(s, past, clock, after, past, now);
    }
  }

  /** Using a refresh token: it is the last of its chain, so afterwards the whole chain is used up. */
  lemma {:induction false} ClaimKeeps(s: State, past: History, clock: int, hash: string, next: History, now: int)
    requires Sound(s, past, clock) && clock <= now
    requires hash in s.db.tokens && s.db.tokens[hash].kind.Refresh? && !s.db.tokens[hash].revoked
    requires next == past.(used := past.used[hash := Used(s.db.tokens[hash].grant, s.db.tokens[hash].expiresAt)])
    ensures Sound(Claimed(s, hash), next, now)
    ensures var grant := s.db.tokens[hash].grant;
            forall h :: h in Claimed(s, hash).db.tokens && s.db.tokens[h].kind.Refresh? && s.db.tokens[h].grant == grant
              ==> Claimed(s, hash).db.tokens[h].revoked
  {
    var after := Claimed(s, hash);
    assert Weakens(s, after, now);
    WeakensKeeps(s, past, clock, after, past, now);
    var grant := s.db.tokens[hash].grant;
    var chain := past.chains[grant];
    assert ChainSound(s, chain, grant);
    var last :| 0 <= last < |chain| && chain[last] == hash;
    assert last == |chain| - 1;
    forall h | h in after.db.tokens && s.db.tokens[h].kind.Refresh? && s.db.tokens[h].grant == grant
      ensures after.db.tokens[h].revoked
    {
      var i :| 0 <= i < |chain| && chain[i] == h;
    }
  }

  lemma {:induction false} RefreshKeeps(lib: Library, s: State, past: History, clock: int, token: string,
                                        pair: TokenPair, now: int, after: State)
    requires Sound(s, past, clock) && clock <= now
    requires lib.sha256(pair.access) !in past.hashes && lib.sha256(pair.refresh) !in past.hashes
    requires lib.sha256(pair.access) != lib.sha256(pair.refresh)
    requires RefreshEffect(lib, s, token, pair, now, after)
    ensures Sound(after, RecordRefresh(lib, past, s, token, pair, after), now)
  {
    var hash := lib.sha256(token);

    if Rotated(lib, s, hash, pair, now, after) {
      var found := s.db.tokens[hash];
      var claimed := past.(used := past.used[hash := Used(found.grant, found.expiresAt)]);
      ClaimKeeps(s, past, clock, hash, claimed, now);
      PairKeeps(lib, Claimed(s, hash), claimed, now, found.grant, found.server, pair, after, now);
    } else {
      if after != s {
        InnerWeakens(s, s.db.tokens[hash].grant, after, now);
      }

      WeakensKeeps(s, past, clock, after, past, now);
    }
  }

  /** A token that isn't a refresh token is stored for a grant. */
  lemma {:induction false} TokenAdded(s: State, past: History, clock: int, hash: string, token: Token, after: State,
                                      next: History)
    requires Sound(s, past, clock) && hash !in past.hashes && !token.kind.Refresh?
    requires token.grant in s.db.grants && s.db.grants[token.grant].server == token.server
    requires after == s.(db := s.db.(tokens := s.db.tokens[hash := token]))
    requires next == past.(hashes := past.hashes + {hash})
    ensures Sound(after, next, clock)
  {
    forall g | g in past.chains ensures ChainSound(after, past.chains[g], g) {
      assert ChainSound(s, past.chains[g], g);
    }
  }

  lemma {:induction false} StaticKeeps(lib: Library, s: State, past: History, clock: int, server: string, name: string,
                                       ttl: int, grant: string, token: string, now: int, birth: Birth, after: State)
    requires Sound(s, past, clock) && clock <= now && grant !in past.births && lib.sha256(token) !in past.hashes
    requires StaticEffect(lib, s, server, name, ttl, grant, token, now, after)
    ensures Sound(after, RecordStatic(lib, past, s, grant, token, birth, after), now)
  {
    hide FamiliesSound, ChainsSound, UsedKept;

    if after == s {
      WeakensKeeps(s, past, clock, after, past, now);
    } else {
      NotYetStored(s, past, clock, grant, lib.sha256(token));
      var hash := lib.sha256(token);
      var next := RecordStatic(lib, past, s, grant, token, birth, after);
      var recorded := after.(db := after.db.(tokens := s.db.tokens));
      var born := next.(hashes := past.hashes);
      GrantAdded(s, past, clock, grant, after.db.grants[grant], recorded, born, now);

      if after.db.tokens != s.db.tokens {
        TokenAdded(recorded, born, now, hash, after.db.tokens[hash], after, next);
      }
    }
  }

  lemma {:induction false} NotYetStored(s: State, past: History, clock: int, grant: string, hash: string)
    requires Sound(s, past, clock) && grant !in past.births && hash !in past.hashes
    ensures grant !in s.db.grants && hash !in s.db.tokens
  {
  }

  /** Every operation keeps the invariant. */
  lemma {:induction false} StepKeeps(lib: Library, w: World, e: Event)
    requires Sound(w.s, w.past, w.clock) && Flow.CodesSound(w.s, w.past) && Enabled(lib, w, e)
    ensures var next := Step(lib, w, e); Sound(next.s, next.past, next.clock)
  {
    hide Access.Begin, Access.ApproveWithCode, Access.ExchangeCode, Access.CreateStaticToken, RefreshToken,
         FamiliesSound, ChainsSound, UsedKept, BeginEffect, ApproveEffect, ExchangeEffect, StaticEffect,
         RefreshEffect, Weakens, RecordExchange, RecordStatic, RecordRefresh;
    var after := After(lib, w, e);

    match e.op {
      case Begin(request, nonce, code) =>
        BeginSummary(lib, w.s, request, nonce, code, e.now, e.weather);
        BeginWeakens(lib, w.s, request, nonce, code, e.now, after);
        WeakensKeeps(w.s, w.past, w.clock, after, Record(lib, w, e, after), e.now);
      case ApproveWithCode(id, typed, cookie, minted) =>
        ApproveSummary(lib, w.s, id, typed, cookie, minted, e.now, e.weather);
        ApproveWeakens(w.s, id, minted, e.now, Compares(w.s, id, e.now, e.weather), after);
        WeakensKeeps(w.s, w.past, w.clock, after, Record(lib, w, e, after), e.now);
      case ExchangeCode(code, verifier, resource, client, redirectUri, grant, pair) =>
        ExchangeSummary(lib, w.s, code, verifier, resource, client, redirectUri, grant, pair, e.now, e.weather);
        ExchangeKeeps(lib, w.s, w.past, w.clock, code, verifier, client, redirectUri, grant, pair, e.now, after);
      case Refresh(token, pair) =>
        RefreshSummary(lib, w.s, token, pair, e.now, e.weather);
        RefreshKeeps(lib, w.s, w.past, w.clock, token, pair, e.now, after);
      case CreateStaticToken(server, name, ttl, grant, token) =>
        StaticSummary(lib, w.s, server, name, ttl, grant, token, e.now, e.weather);
        StaticKeeps(lib, w.s, w.past, w.clock, server, name, ttl, grant, token, e.now, BirthOn(w, server), after);
      case _ =>
        OthersWeaken(lib, w, e);
        WeakensKeeps(w.s, w.past, w.clock, after, Record(lib, w, e, after), e.now);
    }
  }
}
