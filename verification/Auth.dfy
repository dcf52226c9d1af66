/** The `Auth` object of src/auth.rs: the code and approval maps, the open streams, and
    the database it shares with the rest of the daemon. Every method is atomic here. There
    the code lock makes those atomic among themselves that approve, exchange, refresh or
    revoke; beginning, authorizing, creating a static token and sweeping take no lock, and
    are atomic by assumption. Clocks, random values and the outcome of every database
    statement (`weather`) come in as parameters. */
module Auth {
  import opened Prelude
  import opened Store
  import opened Access

  class Auth {
    const lib: Library
    const store: Database
    var codes: map<string, Code>
    var approved: map<string, int>
    var streams: map<string, seq<nat>>
    var cancelled: set<nat>
    var nextStream: nat

    constructor (lib: Library, store: Database)
      ensures this.lib == lib && this.store == store
      ensures View() == State(store.tables, map[], map[], map[], {}, 0)
    {
      this.lib := lib;
      this.store := store;
      codes, approved, streams := map[], map[], map[];
      cancelled, nextStream := {}, 0;
    }

    ghost function View(): State
      reads this, store
    {
      State(store.tables, codes, approved, streams, cancelled, nextStream)
    }

    method CloseStreams(grants: set<string>)
      modifies this
      ensures View() == CloseGrantStreams(old(View()), grants)
      ensures codes == old(codes)
    {
      cancelled := cancelled + StreamsOf(streams, grants);
      streams := streams - grants;
    }

    method OpenStream(grant: string) returns (id: nat)
      modifies this
      ensures (View(), id) == OpenGrantStream(old(View()), grant)
    {
      id := nextStream;
      nextStream := nextStream + 1;
      var active := if grant in streams then streams[grant] else [];
      streams := streams[grant := active + [id]];
    }

    /** `Drop` of a grant stream: `retain` keeps the other streams, in order. */
    method DropStream(grant: string, id: nat)
      modifies this
      ensures View() == DropGrantStream(old(View()), grant, id)
    {
      if grant !in streams {
        return;
      }

      var active := streams[grant];
      var kept: seq<nat> := [];
      var i := 0;

      while i < |active|
        invariant 0 <= i <= |active|
        invariant kept + Without(active[i..], id) == Without(active, id)
      {
        assert active[i..][1..] == active[i + 1..];

        if active[i] != id {
          kept := kept + [active[i]];
        }

        i := i + 1;
      }

      assert active[i..] == [] && kept == Without(active, id);
      streams := if kept == [] then streams - {grant} else streams[grant := kept];
    }

    method Begin(request: NewRequest, nonce: string, code: string, now: int, weather: seq<bool>)
      returns (r: Reply<string>)
      modifies store
      ensures (View(), r) == Access.Begin(lib, old(View()), request, nonce, code, now, weather)
    {
      var seen :- store.Read(Up(weather, 0));

      if |ActiveRequests(seen.pending, now)| >= MAX_PENDING_REQUESTS {
        return Refused("Too many pending requests");
      }

      var row := NewPending(lib, request, nonce, code, now);
      var _ :- store.WritePending(PendingCreate(request.id, row), Up(weather, 1));
      var _ :- store.WriteElsewhere(Up(weather, 2));
      return Done(nonce);
    }

    method Approve(id: string, cookie: Option<string>, code: string, now: int, weather: seq<bool>)
      returns (r: Reply<Approval>)
      modifies this, store
      ensures (View(), r) == Access.Approve(lib, old(View()), id, cookie, code, now, weather)
    {
      var seen :- store.Read(Up(weather, 0));

      if id !in seen.pending || seen.pending[id].expiresAt < now {
        return Refused("Request expired");
      }

      var request := seen.pending[id];

      if cookie.None? || lib.sha256(cookie.value) != request.nonceHash {
        return Refused("Cookie mismatch");
      }

      var _ :- store.WritePending(PendingRemove(id), Up(weather, 1));
      approved := RecentApprovals(approved, now)[id := now];
      codes := FreshCodes(codes, now)[code :=
        Code(request.client, request.server, request.redirectUri, request.challenge, now + AUTHORIZATION_CODE_TTL)];
      var _ :- store.WriteElsewhere(Up(weather, 2));
      return Done(Approval(code, request.redirectUri, request.state));
    }

    method ApproveWithCode(id: string, typed: string, cookie: Option<string>, code: string, now: int,
                           weather: seq<bool>)
      returns (r: Reply<Approval>)
      modifies this, store
      ensures (View(), r) == Access.ApproveWithCode(lib, old(View()), id, typed, cookie, code, now, weather)
    {
      var seen :- store.Read(Up(weather, 0));

      if id !in seen.pending || seen.pending[id].expiresAt < now {
        return Refused("Code expired");
      }

      var expected, attempts := seen.pending[id].code, seen.pending[id].attempts;

      if attempts >= MAX_CODE_ATTEMPTS {
        var _ :- store.WritePending(PendingRemove(id), Up(weather, 1));
        return Refused("Too many attempts");
      }

      var _ :- store.WritePending(PendingRecordAttempt(id), Up(weather, 1));

      if lib.normalizeCode(typed) != lib.normalizeCode(expected) {
        if attempts + 1 >= MAX_CODE_ATTEMPTS {
          var _ :- store.WritePending(PendingRemove(id), Up(weather, 2));
          var _ :- store.WriteElsewhere(Up(weather, 3));
        }

        return Refused("Invalid code");
      }

      r := Approve(id, cookie, code, now, if |weather| < 2 then [] else weather[2..]);
    }

    method Issue(grant: string, server: string, pair: TokenPair, now: int, up0: bool, up1: bool)
      returns (r: Reply<TokenPair>)
      modifies store
      ensures (View(), r) == IssueTokens(lib, old(View()), grant, server, pair, now, up0, up1)
    {
      var access := Token(TokenKind.Access, grant, server, now + ACCESS_TOKEN_TTL, false);
      var _ :- store.WriteTokens(TokenInsert(lib.sha256(pair.access), access), up0);
      var refresh := Token(TokenKind.Refresh, grant, server, now + REFRESH_TOKEN_TTL, false);
      var _ :- store.WriteTokens(TokenInsert(lib.sha256(pair.refresh), refresh), up1);
      return Done(pair);
    }

    method ExchangeCode(code: string, verifier: string, resource: string, client: string, redirectUri: string,
                        grant: string, pair: TokenPair, now: int, weather: seq<bool>)
      returns (r: Reply<TokenPair>)
      modifies this, store
      ensures (View(), r) == Access.ExchangeCode(
                lib, old(View()), code, verifier, resource, client, redirectUri, grant, pair, now, weather)
    {
      if !IsVerifier(verifier) {
        return Refused("Invalid PKCE verifier");
      }

      var issued := Lookup(codes, code);
      codes := codes - {code};

      if issued.None? || issued.value.expiresAt < now {
        assert issued.None? ==> codes == old(codes);
        return Refused("invalid_grant");
      }

      var Code(codeClient, server, uri, challenge, _) := issued.value;

      if codeClient != client || uri != redirectUri {
        return Refused("invalid_grant");
      }

      if lib.pkceChallenge(verifier) != challenge {
        return Refused("PKCE verification failed");
      }

      if !ResourceMatches(lib, resource, server) {
        return Refused("Resource mismatch");
      }

      var _ :- store.WriteGrants(GrantInsert(grant, Grant(codeClient, server, now, None)), Up(weather, 0));
      r := Issue(grant, server, pair, now, Up(weather, 1), Up(weather, 2));
    }

    method RevokeInner(id: string, up0: bool, up1: bool) returns (r: Reply<bool>)
      modifies this, store
      ensures (View(), r) == RevokeGrantInner(old(View()), id, up0, up1)
    {
      var removed := id in store.tables.grants;
      var _ :- store.WriteTokens(TokensRevokeGrant(id), up0);
      var _ :- store.WriteGrants(GrantRemove(id), up1);
      CloseStreams({id});
      return Done(removed);
    }

    method Refresh(token: string, pair: TokenPair, now: int, weather: seq<bool>) returns (r: Reply<TokenPair>)
      modifies this, store
      ensures (View(), r) == RefreshToken(lib, old(View()), token, pair, now, weather)
    {
      var hash := lib.sha256(token);
      var seen :- store.Read(Up(weather, 0));

      if hash !in seen.tokens || seen.tokens[hash].kind != TokenKind.Refresh {
        return Refused("invalid_grant");
      }

      var found := seen.tokens[hash];

      if found.expiresAt < now {
        return Refused("Refresh token expired");
      }

      var again :- store.Read(Up(weather, 1));

      if found.grant !in again.grants {
        return Refused("invalid_grant");
      }

      var claimed := !store.tables.tokens[hash].revoked;
      var _ :- store.WriteTokens(TokenClaim(hash), Up(weather, 2));

      if !claimed {
        assert store.tables == old(store.tables);
        var _ :- RevokeInner(found.grant, Up(weather, 3), Up(weather, 4));
        var _ :- store.WriteElsewhere(Up(weather, 5));
        return Refused("Refresh token reused; grant revoked");
      }

      r := Issue(found.grant, found.server, pair, now, Up(weather, 3), Up(weather, 4));
    }

    method StillAllowed(bearer: string, server: string, now: int, weather: seq<bool>)
      returns (r: Reply<Option<string>>)
      ensures r == Access.StillAllowed(lib, View(), bearer, server, now, weather)
    {
      var hash := lib.sha256(bearer);
      var seen :- store.Read(Up(weather, 0));

      if !Usable(State(seen, map[], map[], map[], {}, 0), hash, server, now) {
        return Done(None);
      }

      var again :- store.Read(Up(weather, 1));
      var grant := seen.tokens[hash].grant;
      return Done(if grant in again.grants then Some(grant) else None);
    }

    method Authorize(bearer: string, server: string, now: int, weather: seq<bool>)
      returns (r: Reply<Option<string>>)
      modifies store
      ensures (View(), r) == Access.Authorize(lib, old(View()), bearer, server, now, weather)
    {
      var grant :- StillAllowed(bearer, server, now, weather);

      if grant.Some? {
        var _ :- store.WriteGrants(GrantTouch(grant.value, now), Up(weather, 2));
      }

      return Done(grant);
    }

    method Revoke(token: string, weather: seq<bool>) returns (r: Reply<()>)
      modifies this, store
      ensures (View(), r) == Access.Revoke(lib, old(View()), token, weather)
    {
      var hash := lib.sha256(token);
      var seen :- store.Read(Up(weather, 0));

      if hash !in seen.tokens {
        return Done(());
      }

      var _ :- store.Read(Up(weather, 1));
      var _ :- RevokeInner(seen.tokens[hash].grant, Up(weather, 2), Up(weather, 3));
      var _ :- store.WriteElsewhere(Up(weather, 4));
      return Done(());
    }

    method RevokeGrant(id: string, weather: seq<bool>) returns (r: Reply<bool>)
      modifies this, store
      ensures (View(), r) == Access.RevokeGrant(old(View()), id, weather)
    {
      var removed :- RevokeInner(id, Up(weather, 0), Up(weather, 1));

      if removed {
        var _ :- store.WriteElsewhere(Up(weather, 2));
      }

      return Done(removed);
    }

    /** The statements of `revoke_server` up to the first one that fails. */
    method RevokeServerFully(server: string, weather: seq<bool>) returns (r: Reply<set<string>>)
      modifies this, store
      ensures View() == RevokedUpTo(old(View()), server, Completed(weather))
      ensures r == if Completed(weather) == 5 then Done(GrantsOn(old(View()).db.grants, {server})) else StoreFailed
    {
      ghost var was := View();
      var seen :- store.Read(Up(weather, 0));
      var grants := GrantsOn(seen.grants, {server});
      var _ :- store.WriteGrants(GrantsRemoveServer(server), Up(weather, 1));
      assert View() == RevokedUpTo(was, server, 2);
      var _ :- store.WriteTokens(TokensRevokeServer(server), Up(weather, 2));
      assert View() == RevokedUpTo(was, server, 3);
      var _ :- store.WriteElsewhere(Up(weather, 3));
      assert View() == RevokedUpTo(was, server, 4);
      var _ :- store.WritePending(PendingRemoveServer(server), Up(weather, 4));
      codes := CodesOff(codes, server);
      CloseStreams(grants);
      return Done(grants);
    }

    method RevokeServer(server: string, weather: seq<bool>) returns (r: Reply<()>)
      modifies this, store
      ensures (View(), r) == Access.RevokeServer(old(View()), server, weather)
    {
      RevokeServersOne(View(), server, Completed(weather));
      var grants :- RevokeServerFully(server, weather);

      if grants != {} {
        var _ :- store.WriteElsewhere(Up(weather, 5));
      }

      return Done(());
    }

    method RevokeAll(weather: seq<bool>) returns (r: Reply<()>)
      modifies this, store
      ensures (View(), r) == Access.RevokeAll(old(View()), weather)
    {
      var seen :- store.Read(Up(weather, 0));
      var _ :- store.WriteTokens(TokensRevokeAll, Up(weather, 1));
      var _ :- store.WriteGrants(GrantsRemoveAll, Up(weather, 2));
      codes := map[];
      CloseStreams(seen.grants.Keys);
      var _ :- store.WriteElsewhere(Up(weather, 3));
      return Done(());
    }

    method CreateStaticToken(server: string, name: string, ttl: int, grant: string, token: string,
                             now: int, weather: seq<bool>) returns (r: Reply<(string, string)>)
      modifies store
      ensures (View(), r) == Access.CreateStaticToken(
                lib, old(View()), server, name, ttl, grant, token, now, weather)
    {
      var _ :- store.WriteGrants(GrantInsert(grant, Grant("static:" + name, server, now, None)), Up(weather, 0));
      var row := Token(TokenKind.Static, grant, server, now + ttl, false);
      var _ :- store.WriteTokens(TokenInsert(lib.sha256(token), row), Up(weather, 1));
      var _ :- store.WriteElsewhere(Up(weather, 2));
      return Done((grant, token));
    }

    /** `sweep` of src/serve.rs; it goes on after a failed statement. */
    method Sweep(now: int, weather: seq<bool>)
      modifies store
      ensures View() == Access.Sweep(old(View()), now, weather)
    {
      var _ := store.WritePending(PendingPrune(now), Up(weather, 0));
      var _ := store.WriteElsewhere(Up(weather, 1));
      var _ := store.WriteTokens(TokensPrune(now), Up(weather, 2));
      var _ := store.WriteGrants(GrantsPrune(now - HOUR), Up(weather, 3));
      var _ := store.WriteElsewhere(Up(weather, 4));
    }
  }
}
