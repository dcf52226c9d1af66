/** From a request to access, and how long access lasts: the other side of Guarantees.dfy. */
module Journey {
  import opened Prelude
  import opened Store
  import opened Access
  import opened Effects
  import opened Names
  import opened Links
  import opened Apps
  import opened Reload
  import opened Runs
  import Flow
  import Tokens
  import Membership
  import Guarantees
  import Orphans

  // ----- the whole flow

  /** What a client and its user do, and when. `shown` is the code on the screen; `elsewhere` is a
      redirect URI that the client names instead of the one the browser was sent back to. */
  datatype Visit = Visit(
    request: NewRequest, nonce: string, shown: string, typed: string, cookie: Option<string>, minted: string,
    verifier: string, resource: string, client: string, elsewhere: Option<string>,
    grant: string, pair: TokenPair, begun: int, approved: int, exchanged: int)

  /** The user types the code that was shown, in the same browser and in time. */
  predicate ApprovesRightly(lib: Library, v: Visit) {
    && lib.normalizeCode(v.typed) == lib.normalizeCode(v.shown)
    && v.cookie.Some? && lib.sha256(v.cookie.value) == lib.sha256(v.nonce)
    && v.approved <= v.begun + PENDING_TTL
  }

  /** The client that asked proves it holds the verifier, in time. */
  predicate ExchangesRightly(lib: Library, v: Visit) {
    && v.exchanged <= v.approved + AUTHORIZATION_CODE_TTL
    && v.client == v.request.client && (v.elsewhere.Some? ==> v.elsewhere.value == v.request.redirectUri)
    && IsVerifier(v.verifier) && v.request.challenge == lib.pkceChallenge(v.verifier)
    && (v.resource == "" || lib.urlMatches(v.resource, v.request.server))
  }

  /** The drawn values are fresh, and the table of requests has room. */
  predicate HasRoomFor(lib: Library, s: State, v: Visit) {
    && |ActiveRequests(s.db.pending, v.begun)| < MAX_PENDING_REQUESTS
    && v.request.id !in s.db.pending && v.minted !in s.codes && v.grant !in s.db.grants
    && lib.sha256(v.pair.access) !in s.db.tokens && lib.sha256(v.pair.refresh) !in s.db.tokens
    && lib.sha256(v.pair.access) != lib.sha256(v.pair.refresh)
  }

  function Begun(lib: Library, s: State, v: Visit): (State, Reply<string>) {
    Access.Begin(lib, s, v.request, v.nonce, v.shown, v.begun, [])
  }

  function Approved(lib: Library, s: State, v: Visit): (State, Reply<Approval>) {
    Access.ApproveWithCode(lib, s, v.request.id, v.typed, v.cookie, v.minted, v.approved, [])
  }

  /** The client exchanges the code that the browser came back with. */
  function Exchanged(lib: Library, s: State, v: Visit, told: Approval): (State, Reply<TokenPair>) {
    var redirectUri := if v.elsewhere.Some? then v.elsewhere.value else told.redirectUri;
    Access.ExchangeCode(lib, s, told.code, v.verifier, v.resource, v.client, redirectUri, v.grant, v.pair,
                        v.exchanged, [])
  }

  /** Approval and exchange. */
  function Concluded(lib: Library, s: State, v: Visit): (State, Reply<TokenPair>) {
    var (after, told) := Approved(lib, s, v);
    if told.Done? then Exchanged(lib, after, v, told.value) else (after, Reply.Refused("Not approved"))
  }

  /** The code this visit's approval mints. */
  function VisitCode(v: Visit): Code {
    Code(v.request.client, v.request.server, v.request.redirectUri, v.request.challenge,
         v.approved + AUTHORIZATION_CODE_TTL)
  }

  lemma {:induction false} BeginWorks(lib: Library, s: State, v: Visit)
    requires HasRoomFor(lib, s, v)
    ensures var (after, r) := Begun(lib, s, v);
            && r == Done(v.nonce)
            && var row := NewPending(lib, v.request, v.nonce, v.shown, v.begun);
               after == s.(db := s.db.(pending := s.db.pending[v.request.id := row]))
  {
  }

  /** A request becomes a code only by its own code, in its own browser, in time and within the
      attempts allowed. */
  lemma {:induction false} ApproveExactly(lib: Library, s: State, id: string, typed: string, cookie: Option<string>,
                                          minted: string, now: int)
    ensures Access.ApproveWithCode(lib, s, id, typed, cookie, minted, now, []).1.Done? <==>
            && id in s.db.pending && now <= s.db.pending[id].expiresAt && s.db.pending[id].attempts < MAX_CODE_ATTEMPTS
            && lib.normalizeCode(typed) == lib.normalizeCode(s.db.pending[id].code)
            && cookie.Some? && lib.sha256(cookie.value) == s.db.pending[id].nonceHash
    ensures var (after, r) := Access.ApproveWithCode(lib, s, id, typed, cookie, minted, now, []);
            !r.Done? ==> after.codes == s.codes && after.approved == s.approved
  {
    assert id in s.db.pending ==> RecordAttempt(s, id).db.pending[id].nonceHash == s.db.pending[id].nonceHash;
  }

  lemma {:induction false} ApproveMints(lib: Library, s: State, v: Visit)
    requires Lookup(s.db.pending, v.request.id) == Some(NewPending(lib, v.request, v.nonce, v.shown, v.begun))
    ensures var (after, r) := Approved(lib, s, v);
            && after.db.grants == s.db.grants && after.db.tokens == s.db.tokens
            && (r.Done? ==>
                  && r.value == Approval(v.minted, v.request.redirectUri, v.request.state)
                  && Lookup(after.codes, v.minted) == Some(VisitCode(v)))
  {
  }

  /** And why it doesn't. */
  lemma {:induction false} ApproveRefuses(lib: Library, s: State, id: string, typed: string, cookie: Option<string>,
                                          minted: string, now: int)
    ensures var r := Access.ApproveWithCode(lib, s, id, typed, cookie, minted, now, []).1;
            var waits := id in s.db.pending && now <= s.db.pending[id].expiresAt;
            var tried := waits && s.db.pending[id].attempts < MAX_CODE_ATTEMPTS;
            var right := tried && lib.normalizeCode(typed) == lib.normalizeCode(s.db.pending[id].code);
            && (r == Reply.Refused("Code expired") <==> !waits)
            && (r == Reply.Refused("Too many attempts") <==> waits && !tried)
            && (r == Reply.Refused("Invalid code") <==> tried && !right)
            && (r == Reply.Refused("Cookie mismatch") <==> right && !r.Done?)
  {
  }

  /** A code becomes a grant only once, in time, and for the client, redirect URI, verifier and
      resource it was minted for. */
  lemma {:induction false} ExchangeExactly(lib: Library, s: State, code: string, verifier: string, resource: string,
                                           client: string, redirectUri: string, grant: string, pair: TokenPair,
                                           now: int)
    requires grant !in s.db.grants && lib.sha256(pair.access) != lib.sha256(pair.refresh)
    requires lib.sha256(pair.access) !in s.db.tokens && lib.sha256(pair.refresh) !in s.db.tokens
    ensures var (after, r) := Access.ExchangeCode(lib, s, code, verifier, resource, client, redirectUri, grant,
                                                     pair, now, []);
            && (r == Done(pair) <==>
                  && IsVerifier(verifier) && code in s.codes && now <= s.codes[code].expiresAt
                  && s.codes[code].client == client && s.codes[code].redirectUri == redirectUri
                  && s.codes[code].challenge == lib.pkceChallenge(verifier)
                  && (resource == "" || lib.urlMatches(resource, s.codes[code].server)))
            && (IsVerifier(verifier) ==> code !in after.codes)
            && (r != Done(pair) ==> after.db == s.db)
  {
  }

  /** And why it doesn't. */
  lemma {:induction false} ExchangeRefuses(lib: Library, s: State, code: string, verifier: string, resource: string,
                                           client: string, redirectUri: string, grant: string, pair: TokenPair,
                                           now: int)
    requires grant !in s.db.grants && lib.sha256(pair.access) != lib.sha256(pair.refresh)
    requires lib.sha256(pair.access) !in s.db.tokens && lib.sha256(pair.refresh) !in s.db.tokens
    ensures var r := Access.ExchangeCode(lib, s, code, verifier, resource, client, redirectUri, grant, pair, now, []).1;
            var known := code in s.codes && now <= s.codes[code].expiresAt
                         && s.codes[code].client == client && s.codes[code].redirectUri == redirectUri;
            var proved := known && s.codes[code].challenge == lib.pkceChallenge(verifier);
            && (r == Reply.Refused("Invalid PKCE verifier") <==> !IsVerifier(verifier))
            && (r == Reply.Refused("invalid_grant") <==> IsVerifier(verifier) && !known)
            && (r == Reply.Refused("PKCE verification failed") <==> IsVerifier(verifier) && known && !proved)
            && (r == Reply.Refused("Resource mismatch") <==>
                  IsVerifier(verifier) && proved && resource != "" && !lib.urlMatches(resource, s.codes[code].server))
  {
    hide IsVerifier;
  }

  lemma {:induction false} ExchangeIssues(lib: Library, s: State, v: Visit, told: Approval)
    requires Exchanged(lib, s, v, told).1 == Done(v.pair) && Lookup(s.codes, told.code) == Some(VisitCode(v))
    ensures var after := Exchanged(lib, s, v, told).0;
            && Live(after, lib.sha256(v.pair.access), v.grant, v.request.server, v.exchanged + ACCESS_TOKEN_TTL)
            && Lookup(after.db.tokens, lib.sha256(v.pair.refresh)) ==
                 Some(Token(TokenKind.Refresh, v.grant, v.request.server, v.exchanged + REFRESH_TOKEN_TTL, false))
            && Lookup(after.db.grants, v.grant) == Some(Grant(v.request.client, v.request.server, v.exchanged, None))
  {
  }

  /** A visit of three steps ends with tokens if and only if the user approved rightly and the
      client exchanged rightly; the browser is sent back with the code, to the request's own
      redirect URI and with its state. Then the access token is accepted on the request's own link
      until it expires and on no other, and the refresh token is never accepted as a bearer;
      otherwise the tables of grants and tokens are as before. */
  lemma {:induction false} FlowExactly(lib: Library, s: State, v: Visit, link: string, now: int)
    requires HasRoomFor(lib, s, v)
    ensures var one := Begun(lib, s, v).0;
            var told := Approved(lib, one, v).1;
            var (three, r) := Concluded(lib, one, v);
            && (told.Done? <==> ApprovesRightly(lib, v))
            && (told.Done? ==> told.value.redirectUri == v.request.redirectUri && told.value.state == v.request.state)
            && (r == Done(v.pair) <==> ApprovesRightly(lib, v) && ExchangesRightly(lib, v))
            && (r == Done(v.pair) ==>
                  && Live(three, lib.sha256(v.pair.access), v.grant, v.request.server, v.exchanged + ACCESS_TOKEN_TTL)
                  && (StillAllowed(lib, three, v.pair.access, link, now, []) == Done(Some(v.grant)) <==>
                        link == v.request.server && now < v.exchanged + ACCESS_TOKEN_TTL)
                  && StillAllowed(lib, three, v.pair.refresh, link, now, []) == Done(None)
                  && Lookup(three.db.grants, v.grant) ==
                       Some(Grant(v.request.client, v.request.server, v.exchanged, None)))
            && (r != Done(v.pair) ==> three.db.grants == s.db.grants && three.db.tokens == s.db.tokens)
  {
    hide Access.Begin, Access.ApproveWithCode, Access.ExchangeCode, IsVerifier;
    var one := Begun(lib, s, v).0;
    var (two, told) := Approved(lib, one, v);
    BeginWorks(lib, s, v);
    ApproveExactly(lib, one, v.request.id, v.typed, v.cookie, v.minted, v.approved);
    ApproveMints(lib, one, v);

    if told.Done? {
      var redirectUri := if v.elsewhere.Some? then v.elsewhere.value else told.value.redirectUri;
      ExchangeExactly(lib, two, told.value.code, v.verifier, v.resource, v.client, redirectUri, v.grant, v.pair,
                      v.exchanged);

      if Exchanged(lib, two, v, told.value).1 == Done(v.pair) {
        ExchangeIssues(lib, two, v, told.value);
      }
    }
  }

  // ----- rotation

  /** A refresh token can be used: it is unused and unexpired, and its grant exists. */
  predicate Refreshable(s: State, hash: string, now: int) {
    && hash in s.db.tokens && s.db.tokens[hash].kind == TokenKind.Refresh && !s.db.tokens[hash].revoked
    && now <= s.db.tokens[hash].expiresAt && s.db.tokens[hash].grant in s.db.grants
  }

  /** Rotation works exactly for such a token: it is used up, and the new pair is for the same
      grant and link. */
  lemma {:induction false} RotationExactly(lib: Library, s: State, token: string, pair: TokenPair, now: int)
    requires lib.sha256(pair.access) != lib.sha256(pair.refresh)
    requires lib.sha256(pair.access) !in s.db.tokens && lib.sha256(pair.refresh) !in s.db.tokens
    ensures var hash := lib.sha256(token);
            var (after, r) := RefreshToken(lib, s, token, pair, now, []);
            && (r == Done(pair) <==> Refreshable(s, hash, now))
            && (Refreshable(s, hash, now) ==>
                  var used := s.db.tokens[hash];
                  && Live(after, lib.sha256(pair.access), used.grant, used.server, now + ACCESS_TOKEN_TTL)
                  && Refreshable(after, lib.sha256(pair.refresh), now + REFRESH_TOKEN_TTL)
                  && after.db.tokens[lib.sha256(pair.refresh)].server == used.server
                  && !Refreshable(after, hash, now))
  {
  }

  /** And why it doesn't. */
  lemma {:induction false} RefreshRefuses(lib: Library, s: State, token: string, pair: TokenPair, now: int)
    requires lib.sha256(pair.access) != lib.sha256(pair.refresh)
    requires lib.sha256(pair.access) !in s.db.tokens && lib.sha256(pair.refresh) !in s.db.tokens
    ensures var r := RefreshToken(lib, s, token, pair, now, []).1;
            var hash := lib.sha256(token);
            var known := hash in s.db.tokens && s.db.tokens[hash].kind == TokenKind.Refresh;
            var inTime := known && now <= s.db.tokens[hash].expiresAt;
            && (r == Reply.Refused("Refresh token expired") <==> known && !inTime)
            && (r == Reply.Refused("invalid_grant") <==> !known || (inTime && s.db.tokens[hash].grant !in s.db.grants))
            && (r == Reply.Refused("Refresh token reused; grant revoked") <==>
                  inTime && s.db.tokens[hash].grant in s.db.grants && s.db.tokens[hash].revoked)
  {
  }

  // ----- a sweep in between

  /** `refresh` with a sweep between two of its statements: before it looks for the grant if
      `early`, or else before it claims the token. The sweep takes no lock. */
  function RefreshAroundSweep(lib: Library, s: State, token: string, pair: TokenPair, now: int, early: bool,
                              sweepAt: int, sweepWeather: seq<bool>): (State, Reply<TokenPair>)
  {
    var hash := lib.sha256(token);
    var swept := Access.Sweep(s, sweepAt, sweepWeather);
    if hash !in s.db.tokens || s.db.tokens[hash].kind != TokenKind.Refresh then (swept, Reply.Refused("invalid_grant"))
    else
      var found := s.db.tokens[hash];
      if found.expiresAt < now then (swept, Reply.Refused("Refresh token expired"))
      else if found.grant !in (if early then swept else s).db.grants then (swept, Reply.Refused("invalid_grant"))
      else if hash in swept.db.tokens && !swept.db.tokens[hash].revoked then
        IssueTokens(lib, Claimed(swept, hash), found.grant, found.server, pair, now, true, true)
      else
        (RevokeGrantInner(swept, found.grant, true, true).0, Reply.Refused("Refresh token reused; grant revoked"))
  }

  /** What the sweep leaves of a refreshable token and its grant. */
  lemma {:induction false} SweptToken(s: State, hash: string, now: int, sweepAt: int, sweepWeather: seq<bool>)
    requires Refreshable(s, hash, now) && Up(sweepWeather, 2)
    ensures var swept := Access.Sweep(s, sweepAt, sweepWeather);
            && (hash in swept.db.tokens <==> sweepAt <= s.db.tokens[hash].expiresAt)
            && (hash in swept.db.tokens ==>
                  swept.db.tokens[hash] == s.db.tokens[hash] && s.db.tokens[hash].grant in swept.db.grants)
            && swept.db.tokens.Keys <= s.db.tokens.Keys && swept.db.grants.Keys <= s.db.grants.Keys
  {
    var pruned := TokensPruned(s.db.tokens, sweepAt);
    assert hash in pruned ==> s.db.tokens[hash].grant in Families(pruned);
  }

  /** A token that could be used when it was read is rotated if and only if it hasn't expired when
      the sweep deletes what has; if it has, the grant is gone, although the token was never used
      before. */
  lemma {:induction false} SweptRotationExactly(
    lib: Library, s: State, token: string, pair: TokenPair, now: int, early: bool, sweepAt: int,
    sweepWeather: seq<bool>)
    requires Refreshable(s, lib.sha256(token), now) && Up(sweepWeather, 2)
    requires lib.sha256(pair.access) != lib.sha256(pair.refresh)
    requires lib.sha256(pair.access) !in s.db.tokens && lib.sha256(pair.refresh) !in s.db.tokens
    ensures var found := s.db.tokens[lib.sha256(token)];
            var (after, r) := RefreshAroundSweep(lib, s, token, pair, now, early, sweepAt, sweepWeather);
            && (r == Done(pair) <==> sweepAt <= found.expiresAt)
            && (r == Done(pair) ==> Live(after, lib.sha256(pair.access), found.grant, found.server,
                                       now + ACCESS_TOKEN_TTL))
            && (r != Done(pair) ==> found.grant !in after.db.grants)
  {
    hide Access.Sweep;
    SweptToken(s, lib.sha256(token), now, sweepAt, sweepWeather);
  }

  /** When the sweep finds nothing to delete, this is `refresh` after it. */
  lemma {:induction false} RefreshWithoutSweep(lib: Library, s: State, token: string, pair: TokenPair, now: int,
                                               early: bool, sweepAt: int)
    ensures var idle := [false, false, false, false, false];
            var (after, r) := RefreshAroundSweep(lib, s, token, pair, now, early, sweepAt, idle);
            (after, r) == RefreshToken(lib, s, token, pair, now, [])
  {
    assert Access.Sweep(s, sweepAt, [false, false, false, false, false]) == s;
  }

  // ----- how long it lasts

  /** The row of a token is as it was stored, and its grant exists. */
  predicate Stands(s: State, hash: string, row: Token) {
    Lookup(s.db.tokens, hash) == Some(row) && !row.revoked && row.grant in s.db.grants
  }

  /** No bearer or refresh token any more. */
  predicate Dead(s: State, hash: string) {
    hash in s.db.tokens && !s.db.tokens[hash].revoked ==> s.db.tokens[hash].grant !in s.db.grants
  }

  /** A token that is accepted until it expires. */
  predicate Live(s: State, hash: string, grant: string, link: string, expiry: int) {
    && hash in s.db.tokens && s.db.tokens[hash].kind != TokenKind.Refresh
    && Stands(s, hash, Token(s.db.tokens[hash].kind, grant, link, expiry, false))
  }

  /** A bearer is accepted exactly when it is such a token, for the link that was asked for. */
  lemma {:induction false} AcceptedExactly(lib: Library, s: State, bearer: string, link: string, now: int,
                                           grant: string)
    ensures StillAllowed(lib, s, bearer, link, now, []) == Done(Some(grant)) <==>
            exists expiry: int :: Live(s, lib.sha256(bearer), grant, link, expiry) && now < expiry
  {
    var hash := lib.sha256(bearer);

    if StillAllowed(lib, s, bearer, link, now, []) == Done(Some(grant)) {
      assert Live(s, hash, grant, link, s.db.tokens[hash].expiresAt);
    }
  }

  /** Authorizing marks the accepted grant as used now, and does nothing else. */
  lemma {:induction false} AuthorizeExactly(lib: Library, s: State, bearer: string, link: string, now: int)
    ensures var (after, r) := Access.Authorize(lib, s, bearer, link, now, []);
            && r == StillAllowed(lib, s, bearer, link, now, [])
            && match r
               case Done(Some(grant)) =>
                 && grant in s.db.grants
                 && after == s.(db := s.db.(grants := s.db.grants[grant := after.db.grants[grant]]))
                 && after.db.grants[grant] == s.db.grants[grant].(lastUsed := Some(now))
               case _ => after == s
  {
  }

  /** The first `n` statements complete. */
  ghost predicate Completes(weather: seq<bool>, n: nat) {
    forall i: nat :: i < n ==> Up(weather, i)
  }

  /** What the revocations answer: success exactly if every statement they get to completes, the audit
      entry included, and of a grant whether it existed. */
  lemma {:induction false} RevocationsAnswer(lib: Library, s: State, id: string, link: string, token: string,
                                             weather: seq<bool>)
    ensures var existed := id in s.db.grants;
            Access.RevokeGrant(s, id, weather).1 ==
            if Completes(weather, if existed then 3 else 2) then Done(existed) else StoreFailed
    ensures var occupied := exists grant :: grant in s.db.grants && s.db.grants[grant].server == link;
            Access.RevokeServer(s, link, weather).1 ==
            if Completes(weather, if occupied then 6 else 5) then Done(()) else StoreFailed
    ensures Access.RevokeAll(s, weather).1 == if Completes(weather, 4) then Done(()) else StoreFailed
    ensures var known := lib.sha256(token) in s.db.tokens;
            && Access.Revoke(lib, s, token, weather).1 ==
                 (if Completes(weather, if known then 5 else 1) then Done(()) else StoreFailed)
            && (!known ==> Access.Revoke(lib, s, token, weather).0 == s)
  {
    FirstStatements(weather);
    Occupied(s.db.grants, link);
  }

  lemma {:induction false} FirstStatements(weather: seq<bool>)
    ensures Completes(weather, 1) <==> Up(weather, 0)
    ensures Completes(weather, 2) <==> Up(weather, 0) && Up(weather, 1)
    ensures Completes(weather, 3) <==> Completes(weather, 2) && Up(weather, 2)
    ensures Completes(weather, 4) <==> Completes(weather, 3) && Up(weather, 3)
    ensures Completes(weather, 5) <==> Completes(weather, 4) && Up(weather, 4)
    ensures Completes(weather, 6) <==> Completes(weather, 5) && Up(weather, 5)
  {
  }

  lemma {:induction false} Occupied(grants: map<string, Grant>, link: string)
    ensures GrantsOn(grants, {link}) != {} <==> exists grant :: grant in grants && grants[grant].server == link
  {
    if grant :| grant in grants && grants[grant].server == link {
      assert grant in GrantsOn(grants, {link});
    }

    if GrantsOn(grants, {link}) != {} {
      var grant :| grant in GrantsOn(grants, {link});
    }
  }

  lemma {:induction false} BeginWhole(lib: Library, s: State, request: NewRequest, nonce: string, code: string,
                                      now: int, weather: seq<bool>)
    ensures Access.Begin(lib, s, request, nonce, code, now, weather).1.Done? ==> Completes(weather, 3)
  {
    hide Completes;
    FirstStatements(weather);
  }

  lemma {:induction false} ApproveWhole(lib: Library, s: State, id: string, typed: string,
                                        cookie: Option<string>, minted: string, now: int, weather: seq<bool>)
    ensures Access.ApproveWithCode(lib, s, id, typed, cookie, minted, now, weather).1.Done? ==> Completes(weather, 5)
  {
    hide Completes;
    FirstStatements(weather);
    RestOf(weather);
  }

  lemma {:induction false} ExchangeWhole(lib: Library, s: State, code: string, verifier: string,
                                         resource: string, client: string, redirectUri: string, grant: string,
                                         pair: TokenPair, now: int, weather: seq<bool>)
    ensures var r := Access.ExchangeCode(lib, s, code, verifier, resource, client, redirectUri, grant, pair, now,
                                         weather).1;
            r.Done? ==> Completes(weather, 3)
  {
    hide Completes;
    FirstStatements(weather);
  }

  lemma {:induction false} StaticWhole(lib: Library, s: State, server: string, name: string, ttl: int, grant: string,
                                       token: string, now: int, weather: seq<bool>)
    ensures Access.CreateStaticToken(lib, s, server, name, ttl, grant, token, now, weather).1.Done? ==>
              Completes(weather, 3)
  {
    hide Completes;
    FirstStatements(weather);
  }

  lemma {:induction false} RefreshWhole(lib: Library, s: State, token: string, pair: TokenPair, now: int,
                                        weather: seq<bool>)
    ensures var r := RefreshToken(lib, s, token, pair, now, weather).1;
            && (r.Done? ==> Completes(weather, 5))
            && (r == Reply.Refused("Refresh token reused; grant revoked") ==> Completes(weather, 6))
  {
    hide Completes;
    FirstStatements(weather);
  }

  lemma {:induction false} AuthorizeWhole(lib: Library, s: State, bearer: string, server: string, now: int,
                                          weather: seq<bool>)
    ensures match Access.Authorize(lib, s, bearer, server, now, weather).1
            case Done(Some(_)) => Completes(weather, 3)
            case _ => true
  {
    hide Completes;
    FirstStatements(weather);
  }

  /** Operations that store something answer with success only if every statement completes. */
  lemma {:induction false} SuccessIsWhole(lib: Library, w: World, e: Event)
    requires Adds(e.op) || e.op.Refresh? || e.op.Authorize?
    ensures match e.op
            case Begin(request, nonce, code) =>
              Access.Begin(lib, w.s, request, nonce, code, e.now, e.weather).1.Done? ==> Completes(e.weather, 3)
            case ApproveWithCode(id, typed, cookie, minted) =>
              Access.ApproveWithCode(lib, w.s, id, typed, cookie, minted, e.now, e.weather).1.Done? ==>
                Completes(e.weather, 5)
            case ExchangeCode(code, verifier, resource, client, redirectUri, grant, pair) =>
              var r := Access.ExchangeCode(lib, w.s, code, verifier, resource, client, redirectUri, grant, pair, e.now,
                                           e.weather).1;
              r.Done? ==> Completes(e.weather, 3)
            case CreateStaticToken(server, name, ttl, grant, token) =>
              Access.CreateStaticToken(lib, w.s, server, name, ttl, grant, token, e.now, e.weather).1.Done? ==>
                Completes(e.weather, 3)
            case Refresh(token, pair) =>
              var r := RefreshToken(lib, w.s, token, pair, e.now, e.weather).1;
              && (r.Done? ==> Completes(e.weather, 5))
              && (r == Reply.Refused("Refresh token reused; grant revoked") ==> Completes(e.weather, 6))
            case Authorize(bearer, server) =>
              (match Access.Authorize(lib, w.s, bearer, server, e.now, e.weather).1
               case Done(Some(_)) => Completes(e.weather, 3)
               case _ => true)
            case _ => true
  {
    hide Completes, Access.Begin, Access.ApproveWithCode, Access.ExchangeCode, Access.CreateStaticToken, RefreshToken,
         Access.Authorize;

    match e.op
    case Begin(request, nonce, code) => BeginWhole(lib, w.s, request, nonce, code, e.now, e.weather);
    case ApproveWithCode(id, typed, cookie, minted) =>
      ApproveWhole(lib, w.s, id, typed, cookie, minted, e.now, e.weather);
    case ExchangeCode(code, verifier, resource, client, redirectUri, grant, pair) =>
      ExchangeWhole(lib, w.s, code, verifier, resource, client, redirectUri, grant, pair, e.now, e.weather);
    case CreateStaticToken(server, name, ttl, grant, token) =>
      StaticWhole(lib, w.s, server, name, ttl, grant, token, e.now, e.weather);
    case Refresh(token, pair) => RefreshWhole(lib, w.s, token, pair, e.now, e.weather);
    case Authorize(bearer, server) => AuthorizeWhole(lib, w.s, bearer, server, e.now, e.weather);
    case _ =>
  }

  lemma {:induction false} RestOf(weather: seq<bool>)
    ensures var rest := if |weather| < 2 then [] else weather[2..];
            forall i: nat :: Up(rest, i) <==> Up(weather, i + 2)
  {
  }

  /** The operation is meant to end the grant, or all access to its link. */
  predicate Ends(lib: Library, w: World, e: Event, grant: string, link: string) {
    var tokens := w.s.db.tokens;
    match e.op
    case Revoke(token) => lib.sha256(token) in tokens && tokens[lib.sha256(token)].grant == grant
    case RevokeGrant(id) => id == grant
    case RevokeServer(server) => server == link
    case RevokeAll => true
    case Apply(_, _) => link in Orphans.RevokesMade(w, e)
    case Refresh(token, _) => Reuses(w.s, lib.sha256(token), e.now, grant)
    case _ => false
  }

  /** The operation is meant to end this token, or uses it up. */
  predicate EndsToken(lib: Library, w: World, e: Event, hash: string, row: Token) {
    || Ends(lib, w, e, row.grant, row.server)
    || (e.op.Refresh? && row.kind == TokenKind.Refresh && lib.sha256(e.op.token) == hash)
  }

  /** A refresh token of this grant that was already used, and hasn't expired. */
  predicate Reuses(s: State, hash: string, now: int, grant: string) {
    && hash in s.db.tokens && s.db.tokens[hash].kind == TokenKind.Refresh && s.db.tokens[hash].revoked
    && s.db.tokens[hash].expiresAt >= now && s.db.tokens[hash].grant == grant
  }

  /** Every statement completes. */
  ghost predicate Fair(e: Event) {
    && (forall i: nat :: Up(e.weather, i))
    && (e.op.Apply? ==> forall server, i: nat :: Up(Weather(e.op.weathers, server), i))
  }

  lemma {:induction false} AddersLeave(lib: Library, w: World, e: Event, hash: string, row: Token)
    requires Stands(w.s, hash, row) && Adds(e.op)
    ensures Stands(AfterAdding(lib, w.s, e), hash, row)
  {
    var after := AfterAdding(lib, w.s, e);

    match e.op {
      case Begin(request, nonce, code) => BeginSummary(lib, w.s, request, nonce, code, e.now, e.weather);
      case ApproveWithCode(id, typed, cookie, minted) =>
        ApproveSummary(lib, w.s, id, typed, cookie, minted, e.now, e.weather);
        SameRows(w.s, after, id, minted, e.now, Compares(w.s, id, e.now, e.weather));
      case ExchangeCode(code, verifier, resource, client, redirectUri, made, pair) =>
        ExchangeSummary(lib, w.s, code, verifier, resource, client, redirectUri, made, pair, e.now, e.weather);
      case CreateStaticToken(server, name, ttl, made, token) =>
        StaticSummary(lib, w.s, server, name, ttl, made, token, e.now, e.weather);
    }
  }

  lemma {:induction false} SameRows(s: State, after: State, id: string, minted: string, now: int, compares: bool)
    requires ApproveEffect(s, id, minted, now, compares, after)
    ensures after.db.tokens == s.db.tokens && after.db.grants == s.db.grants
  {
  }

  lemma {:induction false} InnerLeaves(s: State, id: string, after: State, hash: string, row: Token)
    requires Stands(s, hash, row) && InnerEffect(s, id, after) && id != row.grant
    ensures Stands(after, hash, row)
  {
  }

  lemma {:induction false} InnerEnds(s: State, hash: string, row: Token)
    requires Stands(s, hash, row)
    ensures Dead(RevokeGrantInner(s, row.grant, true, true).0, hash)
  {
  }

  lemma {:induction false} RefreshLeaves(lib: Library, s: State, token: string, pair: TokenPair, now: int,
                                         weather: seq<bool>, hash: string, row: Token)
    requires Stands(s, hash, row) && !Reuses(s, lib.sha256(token), now, row.grant)
    requires row.kind == TokenKind.Refresh ==> lib.sha256(token) != hash
    ensures Stands(RefreshToken(lib, s, token, pair, now, weather).0, hash, row)
  {
    var used := lib.sha256(token);
    var after := RefreshToken(lib, s, token, pair, now, weather).0;
    RefreshSummary(lib, s, token, pair, now, weather);

    if after != s && !Rotated(lib, s, used, pair, now, after) {
      assert s.db.tokens[used].kind == TokenKind.Refresh && s.db.tokens[used].expiresAt >= now;
      InnerLeaves(s, s.db.tokens[used].grant, after, hash, row);
    }
  }

  lemma {:induction false} SweepLeaves(s: State, now: int, weather: seq<bool>, hash: string, row: Token)
    requires Stands(s, hash, row) && now <= row.expiresAt
    ensures Stands(Access.Sweep(s, now, weather), hash, row)
  {
    var pruned := TokensPruned(s.db.tokens, now);
    assert hash in pruned && pruned[hash].grant == row.grant;
    assert row.grant in Families(s.db.tokens) && row.grant in Families(pruned);
  }

  lemma {:induction false} ServersLeave(s: State, reached: map<string, nat>, hash: string, row: Token)
    requires Stands(s, hash, row) && s.db.grants[row.grant].server == row.server && row.server !in reached
    ensures Stands(RevokeServers(s, reached), hash, row)
  {
  }

  lemma {:induction false} ServersEnd(s: State, reached: map<string, nat>, hash: string, row: Token)
    requires Stands(s, hash, row) && s.db.grants[row.grant].server == row.server
    requires row.server in reached && reached[row.server] == 5
    ensures Dead(RevokeServers(s, reached), hash)
  {
  }

  lemma {:induction false} SameAccess(s: State, after: State, hash: string, row: Token)
    requires s.db.tokens == after.db.tokens && s.db.grants == after.db.grants
    ensures Stands(s, hash, row) <==> Stands(after, hash, row)
    ensures Dead(s, hash) <==> Dead(after, hash)
  {
  }

  lemma {:induction false} ApplyTables(lib: Library, w: World, e: Event, hash: string, row: Token)
    requires e.op.Apply?
    ensures Stands(AfterOther(lib, w, e), hash, row) <==>
            Stands(RevokeServers(w.s, Orphans.RevokesMade(w, e)), hash, row)
    ensures Dead(AfterOther(lib, w, e), hash) <==> Dead(RevokeServers(w.s, Orphans.RevokesMade(w, e)), hash)
  {
    hide Stands, Dead, RevokeServers, Applied, Orphans.RevokesMade;
    var after := AfterOther(lib, w, e);

    if Orphans.ReadsFail(e) {
      NothingRevoked(w, e);
    } else {
      Orphans.SameTables(w.s, w, e);
    }

    SameAccess(after, RevokeServers(w.s, Orphans.RevokesMade(w, e)), hash, row);
  }

  lemma {:induction false} NothingRevoked(w: World, e: Event)
    requires e.op.Apply? && Orphans.ReadsFail(e)
    ensures var revoked := RevokeServers(w.s, Orphans.RevokesMade(w, e));
            && Applied(w.s, w.plans, e.op.loaded, e.weather, e.op.weathers).0 == w.s
            && revoked.db.tokens == w.s.db.tokens && revoked.db.grants == w.s.db.grants
            && revoked.db.pending == w.s.db.pending && revoked.codes == w.s.codes
  {
    RevokeServersNone(w.s);
  }

  lemma {:induction false} RevokesLeave(lib: Library, w: World, e: Event, hash: string, row: Token)
    requires Stands(w.s, hash, row) && !Ends(lib, w, e, row.grant, row.server)
    requires e.op.Revoke? || e.op.RevokeGrant?
    ensures Stands(AfterOther(lib, w, e), hash, row)
  {
    var s := w.s;

    match e.op {
      case Revoke(token) =>
        if lib.sha256(token) in s.db.tokens {
          var id := s.db.tokens[lib.sha256(token)].grant;
          InnerSummary(s, id, Up(e.weather, 2), Up(e.weather, 3));
          InnerLeaves(s, id, RevokeGrantInner(s, id, Up(e.weather, 2), Up(e.weather, 3)).0, hash, row);
        }
      case RevokeGrant(id) =>
        InnerSummary(s, id, Up(e.weather, 0), Up(e.weather, 1));
        InnerLeaves(s, id, RevokeGrantInner(s, id, Up(e.weather, 0), Up(e.weather, 1)).0, hash, row);
    }
  }

  lemma {:induction false} StreamsLeave(lib: Library, w: World, e: Event, hash: string, row: Token)
    requires Stands(w.s, hash, row)
    requires e.op.Authorize? || e.op.OpenStream? || e.op.DropStream? || e.op.Restart?
    ensures Stands(AfterOther(lib, w, e), hash, row)
  {
  }

  /** An operation that is not meant to end the access leaves it, whatever fails in it. */
  lemma {:induction false} StepLeaves(lib: Library, w: World, e: Event, hash: string, row: Token)
    requires Stands(w.s, hash, row) && w.s.db.grants[row.grant].server == row.server
    requires !EndsToken(lib, w, e, hash, row) && e.now <= row.expiresAt
    ensures Stands(After(lib, w, e), hash, row)
  {
    hide Stands, RefreshToken, RevokeServers, Access.Sweep, AfterAdding, Applied, Orphans.RevokesMade, Reuses;

    if Adds(e.op) {
      AddersLeave(lib, w, e, hash, row);
    } else if e.op.Refresh? {
      RefreshLeaves(lib, w.s, e.op.token, e.op.pair, e.now, e.weather, hash, row);
    } else if e.op.Sweep? {
      SweepLeaves(w.s, e.now, e.weather, hash, row);
    } else if e.op.RevokeServer? {
      ServersLeave(w.s, map[e.op.server := Completed(e.weather)], hash, row);
    } else if e.op.Apply? {
      ServersLeave(w.s, Orphans.RevokesMade(w, e), hash, row);
      ApplyTables(lib, w, e, hash, row);
    } else if e.op.Revoke? || e.op.RevokeGrant? {
      RevokesLeave(lib, w, e, hash, row);
    } else {
      StreamsLeave(lib, w, e, hash, row);
    }
  }

  lemma {:induction false} AllEnds(s: State, weather: seq<bool>, hash: string, row: Token)
    requires forall i: nat :: Up(weather, i)
    ensures Dead(Access.RevokeAll(s, weather).0, hash)
  {
    assert Up(weather, 0) && Up(weather, 1) && Up(weather, 2);
  }

  lemma {:induction false} ReuseEnds(lib: Library, s: State, token: string, pair: TokenPair, now: int,
                                     weather: seq<bool>, hash: string, row: Token)
    requires Stands(s, hash, row) && Reuses(s, lib.sha256(token), now, row.grant)
    requires forall i: nat :: Up(weather, i)
    ensures Dead(RefreshToken(lib, s, token, pair, now, weather).0, hash)
  {
    hide Stands;
    assert Up(weather, 0) && Up(weather, 1) && Up(weather, 2) && Up(weather, 3) && Up(weather, 4);
    GrantThere(s, hash, row);
    InnerEnds(s, hash, row);
  }

  lemma {:induction false} UseEnds(lib: Library, s: State, token: string, pair: TokenPair, now: int,
                                   weather: seq<bool>, row: Token)
    requires Stands(s, lib.sha256(token), row) && row.kind == TokenKind.Refresh && now <= row.expiresAt
    requires forall i: nat :: Up(weather, i)
    ensures Dead(RefreshToken(lib, s, token, pair, now, weather).0, lib.sha256(token))
  {
    assert Up(weather, 0) && Up(weather, 1) && Up(weather, 2);
  }

  lemma {:induction false} GrantThere(s: State, hash: string, row: Token)
    requires Stands(s, hash, row)
    ensures row.grant in s.db.grants
  {
  }

  lemma {:induction false} ServerCompletes(w: World, e: Event, link: string)
    requires Fair(e) && e.op.Apply? && link in Orphans.RevokesMade(w, e)
    ensures Orphans.RevokesMade(w, e)[link] == 5
  {
    hide ToRevoke;
    FairCompletes(Weather(e.op.weathers, link));
  }

  lemma {:induction false} FairCompletes(weather: seq<bool>)
    requires forall i: nat :: Up(weather, i)
    ensures Completed(weather) == 5
  {
    assert Up(weather, 0) && Up(weather, 1) && Up(weather, 2) && Up(weather, 3) && Up(weather, 4);
  }

  lemma {:induction false} InnersEnd(lib: Library, w: World, e: Event, hash: string, row: Token)
    requires Stands(w.s, hash, row) && Ends(lib, w, e, row.grant, row.server) && Fair(e)
    requires e.op.Revoke? || e.op.RevokeGrant?
    ensures Dead(AfterOther(lib, w, e), hash)
  {
    hide Stands;
    assert Up(e.weather, 0) && Up(e.weather, 1) && Up(e.weather, 2) && Up(e.weather, 3);
    InnerEnds(w.s, hash, row);
  }

  lemma {:induction false} StepEnds(lib: Library, w: World, e: Event, hash: string, row: Token)
    requires Stands(w.s, hash, row) && w.s.db.grants[row.grant].server == row.server
    requires EndsToken(lib, w, e, hash, row) && Fair(e) && e.now <= row.expiresAt
    ensures Dead(After(lib, w, e), hash)
  {
    hide Stands, Dead, RefreshToken, RevokeServers, Access.RevokeAll, Applied, Orphans.RevokesMade, Reuses;

    if e.op.Refresh? {
      if Ends(lib, w, e, row.grant, row.server) {
        ReuseEnds(lib, w.s, e.op.token, e.op.pair, e.now, e.weather, hash, row);
      } else {
        UseEnds(lib, w.s, e.op.token, e.op.pair, e.now, e.weather, row);
      }
    } else if e.op.RevokeServer? {
      FairCompletes(e.weather);
      ServersEnd(w.s, map[e.op.server := Completed(e.weather)], hash, row);
    } else if e.op.Apply? {
      ServerCompletes(w, e, row.server);
      ServersEnd(w.s, Orphans.RevokesMade(w, e), hash, row);
      ApplyTables(lib, w, e, hash, row);
    } else if e.op.RevokeAll? {
      AllEnds(w.s, e.weather, hash, row);
    } else {
      InnersEnd(lib, w, e, hash, row);
    }
  }

  lemma {:induction false} StandsOnLink(lib: Library, w: World, hash: string, row: Token)
    requires Guarantees.Reachable(lib, w) && Stands(w.s, hash, row)
    ensures w.s.db.grants[row.grant].server == row.server
  {
    Orphans.ReachableOnOwnLink(lib, w);
  }

  /** Which operations end a token, be it a bearer or a refresh token: exactly those meant to, when
      every statement completes; and whatever fails, no others. */
  lemma {:induction false} TokenEndsExactly(lib: Library, w: World, e: Event, hash: string, row: Token)
    requires Guarantees.Reachable(lib, w) && Stands(w.s, hash, row) && e.now <= row.expiresAt
    ensures !EndsToken(lib, w, e, hash, row) ==> Stands(After(lib, w, e), hash, row)
    ensures Fair(e) ==> (Stands(After(lib, w, e), hash, row) <==> !EndsToken(lib, w, e, hash, row))
  {
    hide EndsToken, Guarantees.Reachable, Fair, After, Stands;
    StandsOnLink(lib, w, hash, row);

    if !EndsToken(lib, w, e, hash, row) {
      StepLeaves(lib, w, e, hash, row);
    } else if Fair(e) {
      StepEnds(lib, w, e, hash, row);
      DeadFalls(After(lib, w, e), hash, row);
    }
  }

  lemma {:induction false} DeadFalls(s: State, hash: string, row: Token)
    requires Dead(s, hash)
    ensures !Stands(s, hash, row)
  {
  }

  /** Which operations end access: exactly those meant to, when every statement completes. */
  lemma {:induction false} AccessEndsExactly(lib: Library, w: World, e: Event, hash: string, grant: string,
                                             link: string, expiry: int)
    requires Guarantees.Reachable(lib, w) && Live(w.s, hash, grant, link, expiry)
    requires e.now <= expiry && Fair(e)
    ensures Live(After(lib, w, e), hash, grant, link, expiry) <==> !Ends(lib, w, e, grant, link)
  {
    hide Ends, Guarantees.Reachable, Fair, After;
    var row := w.s.db.tokens[hash];
    StandsOnLink(lib, w, hash, row);

    if Ends(lib, w, e, grant, link) {
      StepEnds(lib, w, e, hash, row);
    } else {
      StepLeaves(lib, w, e, hash, row);
    }
  }

  /** Nothing in this run is meant to end the token, and it is over before the token expires. */
  ghost predicate Undisturbed(lib: Library, w: World, events: seq<Event>, hash: string, row: Token)
    decreases |events|
  {
    events == [] ||
    (&& !EndsToken(lib, w, events[0], hash, row) && events[0].now <= row.expiresAt
     && Undisturbed(lib, Step(lib, w, events[0]), events[1..], hash, row))
  }

  lemma {:induction false} RunLeaves(lib: Library, w: World, events: seq<Event>, hash: string, row: Token)
    requires Guarantees.Good(lib, w) && Stands(w.s, hash, row)
    requires AllEnabled(lib, w, events) && Undisturbed(lib, w, events, hash, row)
    ensures Stands(Run(lib, w, events).s, hash, row)
    decreases |events|
  {
    hide Stands, EndsToken, Guarantees.Good, Enabled, After, Record, PlansAfter;

    if events != [] {
      GoodOnLink(lib, w, hash, row);
      Guarantees.StepGood(lib, w, events[0]);
      StepLeaves(lib, w, events[0], hash, row);
      RunLeaves(lib, Step(lib, w, events[0]), events[1..], hash, row);
    }
  }

  lemma {:induction false} GoodOnLink(lib: Library, w: World, hash: string, row: Token)
    requires Guarantees.Good(lib, w) && Stands(w.s, hash, row)
    ensures row.grant in w.s.db.grants && w.s.db.grants[row.grant].server == row.server
  {
    hide Flow.Sound, Tokens.ChainsSound, Tokens.UsedKept;
  }

  /** A token accepted now is accepted until it expires, through any run of requests, exchanges,
      refreshes, sweeps, restarts, failures, other links' revocations and reloads that keep the
      link's members. */
  lemma {:induction false} AccessLasts(lib: Library, w: World, events: seq<Event>, bearer: string, grant: string,
                                       link: string, expiry: int, now: int)
    requires Guarantees.Reachable(lib, w) && Live(w.s, lib.sha256(bearer), grant, link, expiry)
    requires AllEnabled(lib, w, events)
    requires Undisturbed(lib, w, events, lib.sha256(bearer), w.s.db.tokens[lib.sha256(bearer)])
    ensures StillAllowed(lib, Run(lib, w, events).s, bearer, link, now, []) ==
            Done(if now < expiry then Some(grant) else None)
  {
    hide Guarantees.Reachable, Guarantees.Good, Run, AllEnabled, Undisturbed;
    Guarantees.ReachableGood(lib, w);
    RunLeaves(lib, w, events, lib.sha256(bearer), w.s.db.tokens[lib.sha256(bearer)]);
  }

  /** And a refresh token that can be used now can be used until it expires, unless it is used, or
      something is meant to end it. */
  lemma {:induction false} RefreshLasts(lib: Library, w: World, events: seq<Event>, token: string, now: int)
    requires Guarantees.Reachable(lib, w) && AllEnabled(lib, w, events)
    requires var hash := lib.sha256(token);
             Refreshable(w.s, hash, w.clock) && Undisturbed(lib, w, events, hash, w.s.db.tokens[hash])
    ensures Refreshable(Run(lib, w, events).s, lib.sha256(token), now) <==>
            now <= w.s.db.tokens[lib.sha256(token)].expiresAt
  {
    hide Guarantees.Reachable, Guarantees.Good, Run, AllEnabled, Undisturbed;
    Guarantees.ReachableGood(lib, w);
    RunLeaves(lib, w, events, lib.sha256(token), w.s.db.tokens[lib.sha256(token)]);
  }

  // ----- tokens that were handed out

  /** The operation answered with this bearer, good for this grant and link until `expiry`. */
  predicate Issues(lib: Library, w: World, e: Event, bearer: string, grant: string, link: string, expiry: int) {
    match e.op
    case ExchangeCode(code, verifier, resource, client, redirectUri, made, pair) =>
      (match Access.ExchangeCode(lib, w.s, code, verifier, resource, client, redirectUri, made, pair, e.now,
                                 e.weather).1
       case Done(answer) =>
         && bearer == answer.access && grant == made
         && code in w.s.codes && link == w.s.codes[code].server && expiry == e.now + ACCESS_TOKEN_TTL
       case _ => false)
    case Refresh(token, pair) =>
      (match RefreshToken(lib, w.s, token, pair, e.now, e.weather).1
       case Done(answer) =>
         && bearer == answer.access && Lookup(w.s.db.tokens, lib.sha256(token)).Some?
         && var used := w.s.db.tokens[lib.sha256(token)];
            link == used.server && grant == used.grant && expiry == e.now + ACCESS_TOKEN_TTL
       case _ => false)
    case CreateStaticToken(server, name, ttl, made, token) =>
      (match Access.CreateStaticToken(lib, w.s, server, name, ttl, made, token, e.now, e.weather).1
       case Done((id, answer)) => bearer == answer && grant == id && link == server && expiry == e.now + ttl
       case _ => false)
    case _ => false
  }

  lemma {:induction false} IssuedLive(lib: Library, w: World, e: Event, bearer: string, grant: string, link: string,
                                      expiry: int)
    requires Issues(lib, w, e, bearer, grant, link, expiry)
    ensures Live(Step(lib, w, e).s, lib.sha256(bearer), grant, link, expiry)
  {
  }

  /** Whatever bearer an exchange, a refresh or a static token's creation answers with, in any run,
      is accepted on its own link until it expires and not after, as long as nothing ends it. */
  lemma {:induction false} IssuedLasts(lib: Library, w: World, e: Event, events: seq<Event>, bearer: string,
                                       grant: string, link: string, expiry: int, now: int)
    requires Guarantees.Reachable(lib, w) && Enabled(lib, w, e) && Issues(lib, w, e, bearer, grant, link, expiry)
    requires var (next, hash) := (Step(lib, w, e), lib.sha256(bearer));
             && AllEnabled(lib, next, events)
             && hash in next.s.db.tokens && Undisturbed(lib, next, events, hash, next.s.db.tokens[hash])
    ensures var end := Run(lib, Step(lib, w, e), events);
            StillAllowed(lib, end.s, bearer, link, now, []) == Done(if now < expiry then Some(grant) else None)
  {
    hide Guarantees.Reachable, Guarantees.Good, Run, AllEnabled, Undisturbed, Enabled, Issues, Step;
    Guarantees.ReachableGood(lib, w);
    Guarantees.StepGood(lib, w, e);
    IssuedLive(lib, w, e, bearer, grant, link, expiry);
    var next := Step(lib, w, e);
    RunLeaves(lib, next, events, lib.sha256(bearer), next.s.db.tokens[lib.sha256(bearer)]);
  }

  /** Creating a static token works exactly with fresh values, and stores its grant and its token. */
  lemma {:induction false} StaticExactly(lib: Library, s: State, server: string, name: string, ttl: int, grant: string,
                                         token: string, now: int)
    ensures var (after, r) := Access.CreateStaticToken(lib, s, server, name, ttl, grant, token, now, []);
            && (r == Done((grant, token)) <==> grant !in s.db.grants && lib.sha256(token) !in s.db.tokens)
            && (r.Done? ==>
                  && Lookup(after.db.grants, grant) == Some(Grant("static:" + name, server, now, None))
                  && Live(after, lib.sha256(token), grant, server, now + ttl)
                  && after.db.tokens[lib.sha256(token)].kind == Static)
  {
  }

  // ----- what a reload ends

  /** The file names the link: as an MCP app, decoded or not, or in the links section. */
  predicate Named(loaded: Loaded, link: string) {
    && IsUsableName(link)
    && (link in loaded.mcpNames || exists i | 0 <= i < |loaded.settings.links| :: loaded.settings.links[i].0 == link)
  }

  lemma {:induction false} NamedLinks(loaded: Loaded, link: string)
    ensures link in LoadedLinks(loaded) <==> Named(loaded, link)
  {
  }

  /** A grant, a request or a remembered signature is for the link. */
  predicate Heard(db: Tables, link: string) {
    || (exists id | id in db.grants :: db.grants[id].server == link)
    || (exists id | id in db.pending :: db.pending[id].server == link)
    || link in db.signatures
  }

  /** A reload whose statements complete puts the file's plans in force and leaves grants and requests
      only on links that the file names, and codes too, but for a link that no table knows of. */
  lemma {:induction false} ReloadWorks(lib: Library, w: World, e: Event)
    requires e.op.Apply? && e.op.loaded.Some? && WellFormed(e.op.loaded.value) && Fair(e)
    ensures PlansAfter(w, e) == Plans(e.op.loaded.value)
    ensures var (loaded, after) := (e.op.loaded.value, After(lib, w, e));
            && (forall id :: id in after.db.grants ==> Named(loaded, after.db.grants[id].server))
            && (forall id :: id in after.db.pending ==> Named(loaded, after.db.pending[id].server))
            && forall code :: code in after.codes ==>
                 Named(loaded, after.codes[code].server) || !Heard(w.s.db, after.codes[code].server)
  {
    hide Plans, LoadedLinks, SignaturesOf, Named, RevokeServers, Heard;
    var loaded := e.op.loaded.value;
    var links, compiled := LoadedLinks(loaded), SignaturesOf(Plans(loaded));
    var servers := ToRevoke(w.s.db, links, compiled);
    assert Up(e.weather, 0) && Up(e.weather, 1) && Up(e.weather, 2) && Up(e.weather, 3);
    forall server | server in servers
      ensures RevokesCleanly(w.s.db.grants, server, Weather(e.op.weathers, server))
      ensures Completed(Weather(e.op.weathers, server)) == 5
    {
      FairCompletes(Weather(e.op.weathers, server));
      assert Up(Weather(e.op.weathers, server), 5);
    }
    forall link ensures link in links <==> Named(loaded, link) {
      NamedLinks(loaded, link);
    }
    UnnamedGone(w.s, links, compiled, Progress(servers, e.op.weathers));
  }

  lemma {:induction false} UnnamedGone(s: State, links: set<string>, compiled: map<string, string>,
                                       reached: map<string, nat>)
    requires reached.Keys == ToRevoke(s.db, links, compiled) && forall link :: link in reached ==> reached[link] == 5
    ensures var after := RevokeServers(s, reached);
            && (forall id :: id in after.db.grants ==> after.db.grants[id].server in links)
            && (forall id :: id in after.db.pending ==> after.db.pending[id].server in links)
            && forall code :: code in after.codes ==>
                 after.codes[code].server in links || !Heard(s.db, after.codes[code].server)
  {
    forall link | Heard(s.db, link) && link !in links ensures link in reached {
      assert link in Known(s.db);
    }
    var after := RevokeServers(s, reached);
    forall id | id in after.db.grants ensures after.db.grants[id].server in links {
      assert Heard(s.db, s.db.grants[id].server);
    }
    forall id | id in after.db.pending ensures after.db.pending[id].server in links {
      assert Heard(s.db, s.db.pending[id].server);
    }
  }

  /** After it each plan is remembered, other named links are remembered as before, and no others are. */
  lemma {:induction false} ReloadRemembers(lib: Library, w: World, e: Event, link: string)
    requires e.op.Apply? && e.op.loaded.Some? && WellFormed(e.op.loaded.value) && Fair(e)
    ensures var loaded := e.op.loaded.value;
            Lookup(After(lib, w, e).db.signatures, link) ==
            if !Named(loaded, link) then None
            else if FindPlan(Plans(loaded), link).Some? then Some(Signature(FindPlan(Plans(loaded), link).value))
            else Lookup(w.s.db.signatures, link)
  {
    hide Plans, LoadedLinks, SignaturesOf, Named, RevokeServers, Signature, ToRevoke;
    var loaded := e.op.loaded.value;
    assert Up(e.weather, 0) && Up(e.weather, 1) && Up(e.weather, 2) && Up(e.weather, 3);
    forall server ensures RevokesCleanly(w.s.db.grants, server, Weather(e.op.weathers, server)) {
      FairCompletes(Weather(e.op.weathers, server));
      assert Up(Weather(e.op.weathers, server), 5);
    }
    NamedLinks(loaded, link);
    PlansSound(loaded);
    SignaturesOfUnique(Plans(loaded));
    Membership.FindPlanIn(Plans(loaded), link);
  }

  /** A reload that fails leaves the plans and the remembered signatures as they were. */
  lemma {:induction false} ReloadFails(lib: Library, w: World, e: Event)
    requires e.op.Apply?
    requires || e.op.loaded.None? || (exists i :: 0 <= i < 4 && !Up(e.weather, i))
             || exists link :: link in Orphans.RevokesMade(w, e) && Orphans.RevokesMade(w, e)[link] < 5
    ensures PlansAfter(w, e) == w.plans && After(lib, w, e).db.signatures == w.s.db.signatures
  {
    hide Plans, LoadedLinks, SignaturesOf, ToRevoke;

    if !Orphans.ReadsFail(e) && Up(e.weather, 3) {
      var link :| link in Orphans.RevokesMade(w, e) && Orphans.RevokesMade(w, e)[link] < 5;
      assert !RevokesCleanly(w.s.db.grants, link, Weather(e.op.weathers, link));
    }
  }

  /** For a link with a plan in force, a new configuration revokes its access if and only if it no
      longer names the link, or gives it other members. A link that is named but no longer
      compiles keeps its access. */
  lemma {:induction false} ReloadRevokesExactly(lib: Library, w: World, loaded: Loaded, link: string)
    requires Guarantees.Reachable(lib, w) && WellFormed(loaded) && FindPlan(w.plans, link).Some?
    ensures link in ToRevoke(w.s.db, LoadedLinks(loaded), SignaturesOf(Plans(loaded))) <==>
            || !Named(loaded, link)
            || exists plan :: plan in Plans(loaded) && plan.name == link
                              && !SameMembership(FindPlan(w.plans, link).value, plan)
  {
    hide Guarantees.Reachable, LoadedLinks, Plans, Signature, SameMembership, SignaturesOf, WellFormed, Named;
    NamedLinks(loaded, link);
    var current := FindPlan(w.plans, link).value;
    var compiled := SignaturesOf(Plans(loaded));
    Remembers(lib, w, link);
    PlansSound(loaded);
    SignaturesOfUnique(Plans(loaded));
    forall plan | plan in Plans(loaded) && plan.name == link
      ensures link in compiled && (compiled[link] == w.s.db.signatures[link] <==> SameMembership(current, plan))
    {
      SignatureExact(current, plan);
    }
    assert link in Known(w.s.db);
  }

  lemma {:induction false} Remembers(lib: Library, w: World, link: string)
    requires Guarantees.Reachable(lib, w) && FindPlan(w.plans, link).Some?
    ensures Lookup(w.s.db.signatures, link) == Some(Signature(FindPlan(w.plans, link).value))
  {
    hide Flow.Sound, Tokens.Sound, Signature, Guarantees.Reachable;
    Guarantees.ReachableGood(lib, w);
    Membership.FindPlanIn(w.plans, link);
  }
}
