/** What the operations of Access.dfy can leave behind, whatever fails: short summaries
    that the invariants of whole runs are proved from. */
module Effects {
  import opened Prelude
  import opened Store
  import opened Access

  predicate BeginEffect(lib: Library, s: State, request: NewRequest, nonce: string, code: string, now: int,
                        after: State) {
    after == s ||
    (request.id !in s.db.pending &&
     after == s.(db := s.db.(pending := s.db.pending[request.id := NewPending(lib, request, nonce, code, now)])))
  }

  lemma {:induction false} BeginSummary(lib: Library, s: State, request: NewRequest, nonce: string, code: string,
                                        now: int, weather: seq<bool>)
    ensures BeginEffect(lib, s, request, nonce, code, now, Begin(lib, s, request, nonce, code, now, weather).0)
  {
  }

  predicate ApproveEffect(s: State, id: string, code: string, now: int, compares: bool, after: State) {
    if compares then
      var counted := RecordAttempt(s, id);
      && id in s.db.pending && s.db.pending[id].attempts < MAX_CODE_ATTEMPTS
      && (after == counted || after == RemoveRequest(counted, id)
          || after == Mint(counted, id, counted.db.pending[id], code, now))
    else after == s || after == RemoveRequest(s, id)
  }

  lemma {:induction false} ApproveSummary(lib: Library, s: State, id: string, typed: string, cookie: Option<string>,
                                          code: string, now: int, weather: seq<bool>)
    ensures ApproveEffect(s, id, code, now, Compares(s, id, now, weather),
                          ApproveWithCode(lib, s, id, typed, cookie, code, now, weather).0)
  {
    var counted := RecordAttempt(s, id);
    assert RemoveRequest(s, id).db.pending == s.db.pending - {id};
    assert id in s.db.pending ==>
        Approve(lib, counted, id, cookie, code, now, if |weather| < 2 then [] else weather[2..]).0
        in {counted, Mint(counted, id, counted.db.pending[id], code, now)};
  }

  predicate StoresPair(lib: Library, tokens: map<string, Token>, grant: string, server: string, pair: TokenPair,
                       now: int, after: map<string, Token>)
  {
    var access, refresh := lib.sha256(pair.access), lib.sha256(pair.refresh);
    var one := tokens[access := Token(Access, grant, server, now + ACCESS_TOKEN_TTL, false)];
    var two := one[refresh := Token(Refresh, grant, server, now + REFRESH_TOKEN_TTL, false)];
    after == tokens || (access !in tokens && (after == one || (refresh !in one && after == two)))
  }

  lemma {:induction false} IssueSummary(lib: Library, s: State, grant: string, server: string, pair: TokenPair,
                                        now: int, up0: bool, up1: bool)
    ensures var after := IssueTokens(lib, s, grant, server, pair, now, up0, up1).0;
            && StoresPair(lib, s.db.tokens, grant, server, pair, now, after.db.tokens)
            && after == s.(db := s.db.(tokens := after.db.tokens))
  {
  }

  /** The code was taken, and with its own client, redirect URI and challenge became a grant. */
  predicate GrantMade(lib: Library, s: State, code: string, verifier: string, client: string, redirectUri: string,
                      grant: string, pair: TokenPair, now: int, after: State)
  {
    && code in s.codes && grant !in s.db.grants
    && var issued := s.codes[code];
       && issued.client == client && issued.redirectUri == redirectUri
       && lib.pkceChallenge(verifier) == issued.challenge && IsVerifier(verifier) && issued.expiresAt >= now
       && StoresPair(lib, s.db.tokens, grant, issued.server, pair, now, after.db.tokens)
       && after == s.(
            codes := s.codes - {code},
            db := s.db.(grants := s.db.grants[grant := Grant(issued.client, issued.server, now, None)],
                        tokens := after.db.tokens))
  }

  predicate ExchangeEffect(lib: Library, s: State, code: string, verifier: string, client: string, redirectUri: string,
                           grant: string, pair: TokenPair, now: int, after: State)
  {
    || after == s
    || after == s.(codes := s.codes - {code})
    || GrantMade(lib, s, code, verifier, client, redirectUri, grant, pair, now, after)
  }

  lemma {:induction false} ExchangeSummary(lib: Library, s: State, code: string, verifier: string, resource: string,
                                           client: string, redirectUri: string, grant: string, pair: TokenPair,
                                           now: int, weather: seq<bool>)
    ensures ExchangeEffect(lib, s, code, verifier, client, redirectUri, grant, pair, now,
                           ExchangeCode(lib, s, code, verifier, resource, client, redirectUri, grant, pair, now,
                                        weather).0)
  {
    if code in s.codes {
      var issued := s.codes[code];
      var row := Grant(issued.client, issued.server, now, None);
      var recorded := s.(codes := s.codes - {code}, db := s.db.(grants := s.db.grants[grant := row]));
      IssueSummary(lib, recorded, grant, issued.server, pair, now, Up(weather, 1), Up(weather, 2));
    }
  }

  lemma {:induction false} ExchangeDone(
    lib: Library, s: State, code: string, verifier: string, resource: string, client: string, redirectUri: string,
    grant: string, pair: TokenPair, now: int, weather: seq<bool>)
    ensures var (after, r) :=
              ExchangeCode(lib, s, code, verifier, resource, client, redirectUri, grant, pair, now, weather);
            r.Done? ==> GrantMade(lib, s, code, verifier, client, redirectUri, grant, pair, now, after)
  {
    ExchangeSummary(lib, s, code, verifier, resource, client, redirectUri, grant, pair, now, weather);
  }

  lemma {:induction false} ApproveDone(lib: Library, s: State, id: string, typed: string, cookie: Option<string>,
                                       code: string, now: int, weather: seq<bool>)
    ensures var (after, r) := ApproveWithCode(lib, s, id, typed, cookie, code, now, weather);
            r.Done? ==>
              && Compares(s, id, now, weather) && id in s.db.pending && id !in after.db.pending
              && Lookup(after.approved, id) == Some(now)
              && var row := s.db.pending[id];
                 && Lookup(after.codes, code) ==
                      Some(Code(row.client, row.server, row.redirectUri, row.challenge, now + AUTHORIZATION_CODE_TTL))
                 && r.value == Approval(code, row.redirectUri, row.state)
  {
  }

  /** Part or all of revoking one grant. */
  predicate InnerEffect(s: State, id: string, after: State) {
    var revoked := s.(db := s.db.(tokens := RevokedOfGrant(s.db.tokens, id)));
    || after == s
    || after == revoked
    || after == CloseGrantStreams(revoked.(db := revoked.db.(grants := s.db.grants - {id})), {id})
  }

  /** The refresh token was used and a new pair stored, as far as the database got. */
  predicate Rotated(lib: Library, s: State, hash: string, pair: TokenPair, now: int, after: State) {
    && hash in s.db.tokens && s.db.tokens[hash].kind == Refresh && !s.db.tokens[hash].revoked
    && s.db.tokens[hash].grant in s.db.grants && s.db.tokens[hash].expiresAt >= now
    && StoresPair(lib, Claimed(s, hash).db.tokens, s.db.tokens[hash].grant, s.db.tokens[hash].server, pair, now,
                  after.db.tokens)
    && after == s.(db := s.db.(tokens := after.db.tokens))
  }

  predicate RefreshEffect(lib: Library, s: State, token: string, pair: TokenPair, now: int, after: State) {
    var hash := lib.sha256(token);
    || after == s
    || Rotated(lib, s, hash, pair, now, after)
    || (hash in s.db.tokens && s.db.tokens[hash].revoked && InnerEffect(s, s.db.tokens[hash].grant, after))
  }

  lemma {:induction false} RefreshSummary(lib: Library, s: State, token: string, pair: TokenPair, now: int,
                                          weather: seq<bool>)
    ensures RefreshEffect(lib, s, token, pair, now, RefreshToken(lib, s, token, pair, now, weather).0)
  {
    var hash := lib.sha256(token);

    if hash in s.db.tokens {
      var found := s.db.tokens[hash];
      InnerSummary(s, found.grant, Up(weather, 3), Up(weather, 4));
      IssueSummary(lib, Claimed(s, hash), found.grant, found.server, pair, now, Up(weather, 3), Up(weather, 4));
    }
  }

  lemma {:induction false} InnerSummary(s: State, id: string, up0: bool, up1: bool)
    ensures InnerEffect(s, id, RevokeGrantInner(s, id, up0, up1).0)
  {
  }

  predicate StaticEffect(lib: Library, s: State, server: string, name: string, ttl: int, grant: string, token: string,
                         now: int, after: State)
  {
    var hash := lib.sha256(token);
    || after == s
    || (&& grant !in s.db.grants
        && after == s.(db := s.db.(
             grants := s.db.grants[grant := Grant("static:" + name, server, now, None)], tokens := after.db.tokens))
        && (after.db.tokens == s.db.tokens
            || (hash !in s.db.tokens
                && after.db.tokens == s.db.tokens[hash := Token(Static, grant, server, now + ttl, false)])))
  }

  lemma {:induction false} StaticSummary(lib: Library, s: State, server: string, name: string, ttl: int,
                                         grant: string, token: string, now: int, weather: seq<bool>)
    ensures StaticEffect(lib, s, server, name, ttl, grant, token, now,
                         CreateStaticToken(lib, s, server, name, ttl, grant, token, now, weather).0)
  {
  }
}
