/** What each operation of src/auth.rs does to the tables and to the daemon's memory,
    as functions from the state before to the state after and the reply.
    The class in Auth.dfy is proved to compute exactly these functions. */
module Access {
  import opened Prelude
  import opened Store

  const MINUTE := 60_000
  const HOUR := 60 * MINUTE
  const DAY := 24 * HOUR
  const PENDING_TTL := 10 * MINUTE
  const AUTHORIZATION_CODE_TTL := MINUTE
  const ACCESS_TOKEN_TTL := HOUR
  const REFRESH_TOKEN_TTL := 30 * DAY
  const MAX_CODE_ATTEMPTS := 5
  const MAX_PENDING_REQUESTS := 20

  /** Library functions this model leaves uninterpreted. */
  datatype Library = Library(
    sha256: string -> string,
    pkceChallenge: string -> string,
    normalizeCode: string -> string,
    urlMatches: (string, string) -> bool)

  datatype Code = Code(client: string, server: string, redirectUri: string, challenge: string, expiresAt: int)

  /** `streams` lists the open streams of each grant; `cancelled` holds every stream
      whose cancellation token has fired. */
  datatype State = State(
    db: Tables,
    codes: map<string, Code>,
    approved: map<string, int>,
    streams: map<string, seq<nat>>,
    cancelled: set<nat>,
    nextStream: nat)

  datatype NewRequest = NewRequest(
    id: string, client: string, server: string, redirectUri: string, challenge: string, state: string)

  datatype Approval = Approval(code: string, redirectUri: string, state: string)

  datatype TokenPair = TokenPair(access: string, refresh: string)

  // ----- streams

  function StreamsOf(streams: map<string, seq<nat>>, grants: set<string>): set<nat> {
    set g, id | g in grants && g in streams && id in streams[g] :: id
  }

  function CloseGrantStreams(s: State, grants: set<string>): State {
    s.(streams := s.streams - grants, cancelled := s.cancelled + StreamsOf(s.streams, grants))
  }

  function OpenGrantStream(s: State, grant: string): (State, nat) {
    var active := if grant in s.streams then s.streams[grant] else [];
    (s.(streams := s.streams[grant := active + [s.nextStream]], nextStream := s.nextStream + 1), s.nextStream)
  }

  function Without(active: seq<nat>, id: nat): seq<nat> {
    if active == [] then []
    else if active[0] == id then Without(active[1..], id)
    else [active[0]] + Without(active[1..], id)
  }

  function DropGrantStream(s: State, grant: string, id: nat): State {
    if grant !in s.streams then s
    else
      var active := Without(s.streams[grant], id);
      if active == [] then s.(streams := s.streams - {grant}) else s.(streams := s.streams[grant := active])
  }

  /** A stream is registered for a grant. */
  predicate IsOpen(s: State, grant: string, id: nat) {
    grant in s.streams && id in s.streams[grant]
  }

  lemma {:induction false} WithoutExactly(active: seq<nat>, id: nat)
    ensures multiset(Without(active, id)) == multiset(active)[id := 0]
  {
    if active != [] {
      WithoutExactly(active[1..], id);
      assert active == [active[0]] + active[1..];
    }
  }

  /** Opening registers just this stream, under an id that none of the others has if it is new. */
  lemma {:induction false} OpenExactly(s: State, grant: string, other: string, id: nat)
    ensures var (after, number) := OpenGrantStream(s, grant);
            && (IsOpen(after, other, id) <==> IsOpen(s, other, id) || (other == grant && id == number))
            && after.nextStream == number + 1 > s.nextStream && after.cancelled == s.cancelled
  {
  }

  /** Dropping forgets just this stream, cancels none and leaves no empty entry for its grant. */
  lemma {:induction false} DropExactly(s: State, grant: string, dropped: nat, other: string, id: nat)
    ensures var after := DropGrantStream(s, grant, dropped);
            && (IsOpen(after, other, id) <==> IsOpen(s, other, id) && !(other == grant && id == dropped))
            && (grant in after.streams ==> after.streams[grant] != []) && after.cancelled == s.cancelled
  {
    if grant in s.streams {
      WithoutExactly(s.streams[grant], dropped);
      assert forall k :: k in Without(s.streams[grant], dropped) <==> k in multiset(Without(s.streams[grant], dropped));
      assert forall k :: k in s.streams[grant] <==> k in multiset(s.streams[grant]);
    }
  }

  /** Closing cancels every stream of these grants, and forgets them. */
  lemma {:induction false} CloseExactly(s: State, grants: set<string>, grant: string, id: nat)
    ensures var after := CloseGrantStreams(s, grants);
            && (IsOpen(after, grant, id) <==> IsOpen(s, grant, id) && grant !in grants)
            && (id in after.cancelled <==>
                  id in s.cancelled || exists closed :: closed in grants && IsOpen(s, closed, id))
  {
  }

  // ----- requests and codes

  function ActiveRequests(pending: map<string, Pending>, now: int): set<string> {
    set id | id in pending && pending[id].expiresAt > now
  }

  function NewPending(lib: Library, request: NewRequest, nonce: string, code: string, now: int): Pending {
    Pending(request.client, request.server, request.redirectUri, request.challenge,
            lib.sha256(nonce), request.state, code, 0, now + PENDING_TTL)
  }

  function Begin(lib: Library, s: State, request: NewRequest, nonce: string, code: string, now: int, weather: seq<bool>)
    : (State, Reply<string>)
  {
    if !Up(weather, 0) then (s, StoreFailed)
    else if |ActiveRequests(s.db.pending, now)| >= MAX_PENDING_REQUESTS then (s, Refused("Too many pending requests"))
    else if !Up(weather, 1) || request.id in s.db.pending then (s, StoreFailed)
    else
      var row := NewPending(lib, request, nonce, code, now);
      var after := s.(db := s.db.(pending := s.db.pending[request.id := row]));
      (after, if Up(weather, 2) then Done(nonce) else StoreFailed)
  }

  function FreshCodes(codes: map<string, Code>, now: int): map<string, Code> {
    map c | c in codes && codes[c].expiresAt >= now :: codes[c]
  }

  function RecentApprovals(approved: map<string, int>, now: int): map<string, int> {
    map id | id in approved && approved[id] >= now - PENDING_TTL :: approved[id]
  }

  /** Turns a request into an authorization code. */
  function Mint(s: State, id: string, request: Pending, code: string, now: int): State {
    s.(db := s.db.(pending := s.db.pending - {id}),
       approved := RecentApprovals(s.approved, now)[id := now],
       codes := FreshCodes(s.codes, now)[code :=
         Code(request.client, request.server, request.redirectUri, request.challenge, now + AUTHORIZATION_CODE_TTL)])
  }

  function Approve(lib: Library, s: State, id: string, cookie: Option<string>, code: string, now: int,
                   weather: seq<bool>)
    : (State, Reply<Approval>)
  {
    if !Up(weather, 0) then (s, StoreFailed)
    else if id !in s.db.pending || s.db.pending[id].expiresAt < now then (s, Refused("Request expired"))
    else
      var request := s.db.pending[id];
      if cookie.None? || lib.sha256(cookie.value) != request.nonceHash then (s, Refused("Cookie mismatch"))
      else if !Up(weather, 1) then (s, StoreFailed)
      else
        (Mint(s, id, request, code, now),
         if Up(weather, 2) then Done(Approval(code, request.redirectUri, request.state)) else StoreFailed)
  }

  function RemoveRequest(s: State, id: string): State {
    s.(db := s.db.(pending := s.db.pending - {id}))
  }

  function RecordAttempt(s: State, id: string): State {
    if id !in s.db.pending then s
    else s.(db := s.db.(pending := s.db.pending[id := s.db.pending[id].(attempts := s.db.pending[id].attempts + 1)]))
  }

  /** Whether this call gets as far as comparing the typed code. */
  predicate Compares(s: State, id: string, now: int, weather: seq<bool>) {
    && Up(weather, 0) && Up(weather, 1)
    && id in s.db.pending && s.db.pending[id].expiresAt >= now
    && s.db.pending[id].attempts < MAX_CODE_ATTEMPTS
  }

  function ApproveWithCode(lib: Library, s: State, id: string, typed: string, cookie: Option<string>,
                           code: string, now: int, weather: seq<bool>): (State, Reply<Approval>)
  {
    if !Up(weather, 0) then (s, StoreFailed)
    else if id !in s.db.pending || s.db.pending[id].expiresAt < now then (s, Refused("Code expired"))
    else
      var request := s.db.pending[id];
      if !Up(weather, 1) then (s, StoreFailed)
      else if request.attempts >= MAX_CODE_ATTEMPTS then (RemoveRequest(s, id), Refused("Too many attempts"))
      else
        var counted := RecordAttempt(s, id);
        if lib.normalizeCode(typed) == lib.normalizeCode(request.code) then
          Approve(lib, counted, id, cookie, code, now, if |weather| < 2 then [] else weather[2..])
        else if request.attempts + 1 < MAX_CODE_ATTEMPTS then (counted, Refused("Invalid code"))
        else if !Up(weather, 2) then (counted, StoreFailed)
        else (RemoveRequest(counted, id), if Up(weather, 3) then Refused("Invalid code") else StoreFailed)
  }

  // ----- tokens

  /** Inserts the access token and then the refresh token. */
  function IssueTokens(lib: Library, s: State, grant: string, server: string, pair: TokenPair, now: int,
                       up0: bool, up1: bool): (State, Reply<TokenPair>)
  {
    var access := lib.sha256(pair.access);
    var refresh := lib.sha256(pair.refresh);
    if !up0 || access in s.db.tokens then (s, StoreFailed)
    else
      var one := s.db.tokens[access := Token(Access, grant, server, now + ACCESS_TOKEN_TTL, false)];
      if !up1 || refresh in one then (s.(db := s.db.(tokens := one)), StoreFailed)
      else
        var two := one[refresh := Token(Refresh, grant, server, now + REFRESH_TOKEN_TTL, false)];
        (s.(db := s.db.(tokens := two)), Done(pair))
  }

  /** The code_verifier syntax of section 4.1 of RFC 7636. */
  predicate IsVerifier(verifier: string) {
    && 43 <= |verifier| <= 128
    && forall c | c in verifier :: 'a' <= c <= 'z' || 'A' <= c <= 'Z' || '0' <= c <= '9' || c in "-._~"
  }

  predicate ResourceMatches(lib: Library, resource: string, server: string) {
    resource == "" || lib.urlMatches(resource, server)
  }

  function ExchangeCode(lib: Library, s: State, code: string, verifier: string, resource: string, client: string,
                        redirectUri: string, grant: string, pair: TokenPair, now: int, weather: seq<bool>)
    : (State, Reply<TokenPair>)
  {
    if !IsVerifier(verifier) then (s, Refused("Invalid PKCE verifier"))
    else if code !in s.codes then (s, Refused("invalid_grant"))
    else
      var issued := s.codes[code];
      var used := s.(codes := s.codes - {code});
      if issued.expiresAt < now then (used, Refused("invalid_grant"))
      else if issued.client != client || issued.redirectUri != redirectUri then (used, Refused("invalid_grant"))
      else if lib.pkceChallenge(verifier) != issued.challenge then (used, Refused("PKCE verification failed"))
      else if !ResourceMatches(lib, resource, issued.server) then (used, Refused("Resource mismatch"))
      else if !Up(weather, 0) || grant in s.db.grants then (used, StoreFailed)
      else
        var row := Grant(issued.client, issued.server, now, None);
        var recorded := used.(db := used.db.(grants := used.db.grants[grant := row]));
        IssueTokens(lib, recorded, grant, issued.server, pair, now, Up(weather, 1), Up(weather, 2))
  }

  /** Revoke the tokens, remove the grant, close its streams; a failure stops it there. */
  function RevokeGrantInner(s: State, id: string, up0: bool, up1: bool): (State, Reply<bool>) {
    if !up0 then (s, StoreFailed)
    else
      var revoked := s.(db := s.db.(tokens := RevokedOfGrant(s.db.tokens, id)));
      if !up1 then (revoked, StoreFailed)
      else
        var removed := revoked.(db := revoked.db.(grants := revoked.db.grants - {id}));
        (CloseGrantStreams(removed, {id}), Done(id in s.db.grants))
  }

  function Claimed(s: State, hash: string): State
    requires hash in s.db.tokens
  {
    s.(db := s.db.(tokens := s.db.tokens[hash := s.db.tokens[hash].(revoked := true)]))
  }

  function RefreshToken(lib: Library, s: State, token: string, pair: TokenPair, now: int, weather: seq<bool>)
    : (State, Reply<TokenPair>)
  {
    var hash := lib.sha256(token);
    if !Up(weather, 0) then (s, StoreFailed)
    else if hash !in s.db.tokens || s.db.tokens[hash].kind != Refresh then (s, Refused("invalid_grant"))
    else
      var found := s.db.tokens[hash];
      if found.expiresAt < now then (s, Refused("Refresh token expired"))
      else if !Up(weather, 1) then (s, StoreFailed)
      else if found.grant !in s.db.grants then (s, Refused("invalid_grant"))
      else if !Up(weather, 2) then (s, StoreFailed)
      else if found.revoked then
        var (after, done) := RevokeGrantInner(s, found.grant, Up(weather, 3), Up(weather, 4));
        (after, if done.Done? && Up(weather, 5) then Refused("Refresh token reused; grant revoked") else StoreFailed)
      else
        IssueTokens(lib, Claimed(s, hash), found.grant, found.server, pair, now, Up(weather, 3), Up(weather, 4))
  }

  // ----- authorization

  /** The token row passes every check made before the grants table is read. */
  predicate Usable(s: State, hash: string, server: string, now: int) {
    && hash in s.db.tokens
    && s.db.tokens[hash].kind != Refresh
    && !s.db.tokens[hash].revoked
    && s.db.tokens[hash].expiresAt > now
    && s.db.tokens[hash].server == server
  }

  function StillAllowed(lib: Library, s: State, bearer: string, server: string, now: int, weather: seq<bool>)
    : Reply<Option<string>>
  {
    var hash := lib.sha256(bearer);
    if !Up(weather, 0) then StoreFailed
    else if !Usable(s, hash, server, now) then Done(None)
    else if !Up(weather, 1) then StoreFailed
    else if s.db.tokens[hash].grant in s.db.grants then Done(Some(s.db.tokens[hash].grant))
    else Done(None)
  }

  function Touched(s: State, grant: string, now: int): State {
    if grant !in s.db.grants then s
    else s.(db := s.db.(grants := s.db.grants[grant := s.db.grants[grant].(lastUsed := Some(now))]))
  }

  function Authorize(lib: Library, s: State, bearer: string, server: string, now: int, weather: seq<bool>)
    : (State, Reply<Option<string>>)
  {
    var allowed := StillAllowed(lib, s, bearer, server, now, weather);
    if allowed.IsFailure() || allowed.value.None? then (s, allowed)
    else if !Up(weather, 2) then (s, StoreFailed)
    else (Touched(s, allowed.value.value, now), allowed)
  }

  // ----- revocation

  function Revoke(lib: Library, s: State, token: string, weather: seq<bool>): (State, Reply<()>) {
    var hash := lib.sha256(token);
    if !Up(weather, 0) then (s, StoreFailed)
    else if hash !in s.db.tokens then (s, Done(()))
    else if !Up(weather, 1) then (s, StoreFailed)
    else
      var (after, done) := RevokeGrantInner(s, s.db.tokens[hash].grant, Up(weather, 2), Up(weather, 3));
      (after, if done.Done? && Up(weather, 4) then Done(()) else StoreFailed)
  }

  function RevokeGrant(s: State, id: string, weather: seq<bool>): (State, Reply<bool>) {
    var (after, done) := RevokeGrantInner(s, id, Up(weather, 0), Up(weather, 1));
    (after, if done == Done(true) && !Up(weather, 2) then StoreFailed else done)
  }

  function GrantsOn(grants: map<string, Grant>, servers: set<string>): set<string> {
    set g | g in grants && grants[g].server in servers
  }

  /** How many of its statements one `revoke_server` completes before the first failure. */
  function Completed(weather: seq<bool>): nat {
    if !Up(weather, 0) then 0
    else if !Up(weather, 1) then 1
    else if !Up(weather, 2) then 2
    else if !Up(weather, 3) then 3
    else if !Up(weather, 4) then 4
    else 5
  }

  /** Whether `revoke_server` got at least `n` statements far for this server. */
  predicate Reached(reached: map<string, nat>, server: string, n: nat) {
    server in reached && reached[server] >= n
  }

  function Finished(reached: map<string, nat>): set<string> {
    set server | server in reached && reached[server] >= 5
  }

  function KeptGrants(grants: map<string, Grant>, reached: map<string, nat>): map<string, Grant> {
    map g | g in grants && !Reached(reached, grants[g].server, 2) :: grants[g]
  }

  function KeptTokens(tokens: map<string, Token>, reached: map<string, nat>): map<string, Token> {
    map h | h in tokens ::
      if Reached(reached, tokens[h].server, 3) then tokens[h].(revoked := true) else tokens[h]
  }

  function KeptPending(pending: map<string, Pending>, reached: map<string, nat>): map<string, Pending> {
    map id | id in pending && !Reached(reached, pending[id].server, 5) :: pending[id]
  }

  function KeptCodes(codes: map<string, Code>, reached: map<string, nat>): map<string, Code> {
    map c | c in codes && !Reached(reached, codes[c].server, 5) :: codes[c]
  }

  /** The state after `revoke_server` ran for each key of `reached`, in any order, each
      completing the given number of statements. */
  function RevokeServers(s: State, reached: map<string, nat>): State {
    var closed := GrantsOn(s.db.grants, Finished(reached));
    State(
      s.db.(
        grants := KeptGrants(s.db.grants, reached),
        tokens := KeptTokens(s.db.tokens, reached),
        pending := KeptPending(s.db.pending, reached)),
      KeptCodes(s.codes, reached),
      s.approved,
      s.streams - closed,
      s.cancelled + StreamsOf(s.streams, closed),
      s.nextStream)
  }

  /** Whether `revoke_server` returns without an error. */
  predicate RevokesCleanly(grants: map<string, Grant>, server: string, weather: seq<bool>) {
    Completed(weather) == 5 && (GrantsOn(grants, {server}) != {} ==> Up(weather, 5))
  }

  function RevokeServer(s: State, server: string, weather: seq<bool>): (State, Reply<()>) {
    (RevokeServers(s, map[server := Completed(weather)]),
     if RevokesCleanly(s.db.grants, server, weather) then Done(()) else StoreFailed)
  }

  function CodesOff(codes: map<string, Code>, server: string): map<string, Code> {
    map c | c in codes && codes[c].server != server :: codes[c]
  }

  /** One server, statement by statement. */
  function RevokedUpTo(s: State, server: string, n: nat): State {
    var one := if n < 2 then s else s.(db := s.db.(grants := GrantsOff(s.db.grants, server)));
    var two := if n < 3 then one else one.(db := one.db.(tokens := RevokedOfServer(s.db.tokens, server)));
    if n < 5 then two
    else
      CloseGrantStreams(
        two.(db := two.db.(pending := PendingOff(s.db.pending, server)), codes := CodesOff(s.codes, server)),
        GrantsOn(s.db.grants, {server}))
  }

  lemma KeptGrantsAdd(grants: map<string, Grant>, reached: map<string, nat>, server: string, n: nat)
    requires server !in reached
    ensures KeptGrants(grants, reached[server := n]) ==
            if n < 2 then KeptGrants(grants, reached) else GrantsOff(KeptGrants(grants, reached), server)
  {
  }

  lemma KeptTokensAdd(tokens: map<string, Token>, reached: map<string, nat>, server: string, n: nat)
    requires server !in reached
    ensures KeptTokens(tokens, reached[server := n]) ==
            if n < 3 then KeptTokens(tokens, reached) else RevokedOfServer(KeptTokens(tokens, reached), server)
  {
  }

  lemma KeptPendingAdd(pending: map<string, Pending>, reached: map<string, nat>, server: string, n: nat)
    requires server !in reached
    ensures KeptPending(pending, reached[server := n]) ==
            if n < 5 then KeptPending(pending, reached) else PendingOff(KeptPending(pending, reached), server)
  {
  }

  lemma KeptCodesAdd(codes: map<string, Code>, reached: map<string, nat>, server: string, n: nat)
    requires server !in reached
    ensures KeptCodes(codes, reached[server := n]) ==
            if n < 5 then KeptCodes(codes, reached) else CodesOff(KeptCodes(codes, reached), server)
  {
  }

  lemma ClosedAdd(s: State, reached: map<string, nat>, server: string, n: nat)
    requires server !in reached
    ensures GrantsOn(s.db.grants, Finished(reached[server := n])) ==
            GrantsOn(s.db.grants, Finished(reached)) +
            (if n >= 5 then GrantsOn(RevokeServers(s, reached).db.grants, {server}) else {})
  {
    var more := reached[server := n];
    assert forall x :: x in Finished(more) <==> x in Finished(reached) || (x == server && n >= 5);
    assert GrantsOn(RevokeServers(s, reached).db.grants, {server}) == GrantsOn(s.db.grants, {server});
  }

  /** Revoking one more server after others is the same as revoking them together. */
  lemma RevokeServersAdd(s: State, reached: map<string, nat>, server: string, n: nat)
    requires server !in reached
    ensures RevokedUpTo(RevokeServers(s, reached), server, n) == RevokeServers(s, reached[server := n])
  {
    KeptGrantsAdd(s.db.grants, reached, server, n);
    KeptTokensAdd(s.db.tokens, reached, server, n);
    KeptPendingAdd(s.db.pending, reached, server, n);
    KeptCodesAdd(s.codes, reached, server, n);
    ClosedAdd(s, reached, server, n);
    StreamsOfUnion(s.streams, GrantsOn(s.db.grants, Finished(reached)),
                   GrantsOn(RevokeServers(s, reached).db.grants, {server}));
  }

  /** Closing two sets of grants one after the other closes their union. */
  lemma StreamsOfUnion(streams: map<string, seq<nat>>, one: set<string>, two: set<string>)
    ensures StreamsOf(streams, one) + StreamsOf(streams - one, two) == StreamsOf(streams, one + two)
    ensures streams - one - two == streams - (one + two)
  {
    forall id | id in StreamsOf(streams, one + two)
      ensures id in StreamsOf(streams, one) + StreamsOf(streams - one, two)
    {
      var g :| g in one + two && g in streams && id in streams[g];

      if g in one {
        assert id in StreamsOf(streams, one);
      } else {
        assert g in two && g in streams - one && id in (streams - one)[g];
      }
    }
  }

  lemma RevokeServersNone(s: State)
    ensures RevokeServers(s, map[]) == s
  {
    var all := RevokeServers(s, map[]);
    assert all.db.grants == s.db.grants && all.db.tokens == s.db.tokens && all.db.pending == s.db.pending;
    assert all.codes == s.codes && all.streams == s.streams && all.cancelled == s.cancelled;
  }

  lemma RevokeServersOne(s: State, server: string, n: nat)
    ensures RevokeServers(s, map[server := n]) == RevokedUpTo(s, server, n)
  {
    RevokeServersNone(s);
    RevokeServersAdd(s, map[], server, n);
  }

  function RevokeAll(s: State, weather: seq<bool>): (State, Reply<()>) {
    if !Up(weather, 0) || !Up(weather, 1) then (s, StoreFailed)
    else
      var revoked := s.(db := s.db.(tokens := AllRevoked(s.db.tokens)));
      if !Up(weather, 2) then (revoked, StoreFailed)
      else
        var cleared := revoked.(db := revoked.db.(grants := map[]), codes := map[]);
        (CloseGrantStreams(cleared, s.db.grants.Keys), if Up(weather, 3) then Done(()) else StoreFailed)
  }

  function CreateStaticToken(lib: Library, s: State, server: string, name: string, ttl: int, grant: string,
                             token: string, now: int, weather: seq<bool>): (State, Reply<(string, string)>)
  {
    var hash := lib.sha256(token);
    if !Up(weather, 0) || grant in s.db.grants then (s, StoreFailed)
    else
      var row := Grant("static:" + name, server, now, None);
      var recorded := s.(db := s.db.(grants := s.db.grants[grant := row]));
      if !Up(weather, 1) || hash in s.db.tokens then (recorded, StoreFailed)
      else
        var after := recorded.(db := recorded.db.(tokens :=
          recorded.db.tokens[hash := Token(Static, grant, server, now + ttl, false)]));
        (after, if Up(weather, 2) then Done((grant, token)) else StoreFailed)
  }

  // ----- the periodic sweep of src/serve.rs

  /** Statements 1 and 4 prune clients and the audit log, which this model has no table for. */
  function Sweep(s: State, now: int, weather: seq<bool>): State {
    var one := if Up(weather, 0) then s.db.(pending := PendingPruned(s.db.pending, now)) else s.db;
    var two := if Up(weather, 2) then one.(tokens := TokensPruned(one.tokens, now)) else one;
    var three :=
      if Up(weather, 3) then two.(grants := GrantsPruned(two.grants, Families(two.tokens), now - HOUR)) else two;
    s.(db := three)
  }
}
