/** Requests become codes and codes become grants, each at most once: what every operation
    of a run keeps. */
module Flow {
  import opened Prelude
  import opened Store
  import opened Access
  import opened Effects
  import opened Links
  import opened Apps
  import opened Reload
  import opened Runs

  predicate SameRow(row: Pending, request: Request) {
    && row.client == request.client
    && row.server == request.server
    && row.redirectUri == request.redirectUri
    && row.challenge == request.challenge
    && row.state == request.state
  }

  predicate SameCode(code: Code, request: Request) {
    && code.client == request.client
    && code.server == request.server
    && code.redirectUri == request.redirectUri
    && code.challenge == request.challenge
  }

  ghost predicate RequestsSound(s: State, past: History) {
    && past.compared.Keys == past.requests.Keys
    && (forall id :: id in past.compared ==> past.compared[id] <= MAX_CODE_ATTEMPTS)
    && forall id :: id in s.db.pending ==>
         && id in past.requests && SameRow(s.db.pending[id], past.requests[id])
         && s.db.pending[id].attempts == past.compared[id]
         && forall c :: c in past.minted ==> past.minted[c] != id
  }

  ghost predicate CodesSound(s: State, past: History) {
    && (forall c :: c in past.minted ==> past.minted[c] in past.requests)
    && (forall c, d | c in past.minted && d in past.minted :: past.minted[c] == past.minted[d] ==> c == d)
    && forall c :: c in s.codes ==> c in past.minted && SameCode(s.codes[c], past.requests[past.minted[c]])
  }

  /** The grant was made from a code of this request, with the request's own redirect URI and
      a verifier of its challenge. */
  ghost predicate MadeFrom(lib: Library, s: State, past: History, grant: string) {
    && grant in past.exchanged && grant in past.births
    && var how := past.exchanged[grant];
       && how.code in past.minted && how.code !in s.codes && past.minted[how.code] in past.requests
       && var request := past.requests[past.minted[how.code]];
          && past.births[grant] == request.birth
          && how.client == request.client && how.redirectUri == request.redirectUri
          && lib.pkceChallenge(how.verifier) == request.challenge
          && (grant in s.db.grants ==>
                s.db.grants[grant].client == request.client && s.db.grants[grant].server == request.server)
  }

  ghost predicate GrantsSound(lib: Library, s: State, past: History) {
    && (forall g :: g in past.exchanged ==> MadeFrom(lib, s, past, g))
    && (forall g, k | g in past.exchanged && k in past.exchanged ::
          past.exchanged[g].code == past.exchanged[k].code ==> g == k)
    && forall g :: g in s.db.grants ==> g in past.births && (g in past.exchanged || g in past.statics)
  }

  ghost predicate Sound(lib: Library, s: State, past: History) {
    RequestsSound(s, past) && CodesSound(s, past) && GrantsSound(lib, s, past)
  }

  // ----- operations that only shrink

  /** The tables and codes only shrink, or change in fields the invariant does not mention. */
  ghost predicate Shrinks(s: State, after: State) {
    && (forall id :: id in after.db.pending ==> id in s.db.pending && after.db.pending[id] == s.db.pending[id])
    && (forall c :: c in after.codes ==> c in s.codes && after.codes[c] == s.codes[c])
    && forall g :: g in after.db.grants ==>
         && g in s.db.grants
         && after.db.grants[g].client == s.db.grants[g].client
         && after.db.grants[g].server == s.db.grants[g].server
  }

  lemma {:induction false} SoundShrinks(lib: Library, s: State, past: History, after: State, next: History)
    requires Sound(lib, s, past) && Shrinks(s, after)
    requires next == past.(chains := next.chains, used := next.used, hashes := next.hashes)
    ensures Sound(lib, after, next)
  {
  }

  lemma {:induction false} InnerShrinks(s: State, id: string, after: State)
    requires InnerEffect(s, id, after)
    ensures Shrinks(s, after)
    ensures after.db.signatures == s.db.signatures
  {
  }

  lemma {:induction false} ServersShrink(s: State, reached: map<string, nat>)
    ensures Shrinks(s, RevokeServers(s, reached))
    ensures RevokeServers(s, reached).db.signatures == s.db.signatures
  {
  }

  lemma {:induction false} AppliedShrinks(s: State, plans: seq<LinkPlan>, loaded: Option<Loaded>, weather: seq<bool>,
                       weathers: map<string, seq<bool>>)
    ensures Shrinks(s, Applied(s, plans, loaded, weather, weathers).0)
  {
    if loaded.Some? {
      var compiled := SignaturesOf(Plans(loaded.value));
      ServersShrink(s, Progress(ToRevoke(s.db, LoadedLinks(loaded.value), compiled), weathers));
    }
  }

  lemma {:induction false} RefreshShrinks(lib: Library, s: State, token: string, pair: TokenPair, now: int,
                                          after: State)
    requires RefreshEffect(lib, s, token, pair, now, after)
    ensures Shrinks(s, after)
    ensures after.db.signatures == s.db.signatures
  {
  }

  lemma {:induction false} AuthorizeShrinks(lib: Library, s: State, bearer: string, server: string, now: int,
                                            weather: seq<bool>)
    ensures Shrinks(s, Access.Authorize(lib, s, bearer, server, now, weather).0)
    ensures Access.Authorize(lib, s, bearer, server, now, weather).0.db.signatures == s.db.signatures
  {
  }

  lemma {:induction false} SweepShrinks(s: State, now: int, weather: seq<bool>)
    ensures Shrinks(s, Access.Sweep(s, now, weather))
    ensures Access.Sweep(s, now, weather).db.signatures == s.db.signatures
  {
  }

  lemma {:induction false} RevokeShrinks(lib: Library, s: State, token: string, weather: seq<bool>)
    ensures Shrinks(s, Access.Revoke(lib, s, token, weather).0)
    ensures Access.Revoke(lib, s, token, weather).0.db.signatures == s.db.signatures
  {
    var hash := lib.sha256(token);

    if hash in s.db.tokens {
      InnerSummary(s, s.db.tokens[hash].grant, Up(weather, 2), Up(weather, 3));
      InnerShrinks(s, s.db.tokens[hash].grant,
                   RevokeGrantInner(s, s.db.tokens[hash].grant, Up(weather, 2), Up(weather, 3)).0);
    }
  }

  lemma {:induction false} RevokeGrantShrinks(s: State, id: string, weather: seq<bool>)
    ensures Shrinks(s, Access.RevokeGrant(s, id, weather).0)
    ensures Access.RevokeGrant(s, id, weather).0.db.signatures == s.db.signatures
  {
    InnerSummary(s, id, Up(weather, 0), Up(weather, 1));
    InnerShrinks(s, id, RevokeGrantInner(s, id, Up(weather, 0), Up(weather, 1)).0);
  }

  lemma {:induction false} RevokeAllShrinks(s: State, weather: seq<bool>)
    ensures Shrinks(s, Access.RevokeAll(s, weather).0)
    ensures Access.RevokeAll(s, weather).0.db.signatures == s.db.signatures
  {
  }

  lemma {:induction false} StreamsShrink(s: State, grant: string, id: nat)
    ensures Shrinks(s, OpenGrantStream(s, grant).0) && Shrinks(s, DropGrantStream(s, grant, id))
    ensures OpenGrantStream(s, grant).0.db == s.db && DropGrantStream(s, grant, id).db == s.db
  {
  }

  lemma {:induction false} RestartShrinks(s: State)
    ensures Shrinks(s, State(s.db, map[], map[], map[], {}, 0))
  {
  }

  lemma {:induction false} OthersShrink(lib: Library, w: World, e: Event)
    requires !Adds(e.op)
    ensures Shrinks(w.s, AfterOther(lib, w, e))
    ensures !e.op.Apply? ==> AfterOther(lib, w, e).db.signatures == w.s.db.signatures
  {
    hide Shrinks, RefreshToken, Access.Authorize, OpenGrantStream, DropGrantStream, Access.Revoke,
         Access.RevokeGrant, Access.RevokeAll, RevokeServers, Access.Sweep, Applied;
    var s := w.s;

    match e.op {
      case Refresh(token, pair) =>
        RefreshSummary(lib, s, token, pair, e.now, e.weather);
        RefreshShrinks(lib, s, token, pair, e.now, RefreshToken(lib, s, token, pair, e.now, e.weather).0);
      case Authorize(bearer, server) => AuthorizeShrinks(lib, s, bearer, server, e.now, e.weather);
      case OpenStream(grant) => StreamsShrink(s, grant, 0);
      case DropStream(grant, stream) => StreamsShrink(s, grant, stream);
      case Revoke(token) => RevokeShrinks(lib, s, token, e.weather);
      case RevokeGrant(id) => RevokeGrantShrinks(s, id, e.weather);
      case RevokeServer(server) => ServersShrink(s, map[server := Completed(e.weather)]);
      case RevokeAll => RevokeAllShrinks(s, e.weather);
      case Sweep => SweepShrinks(s, e.now, e.weather);
      case Apply(loaded, weathers) => AppliedShrinks(s, w.plans, loaded, e.weather, weathers);
      case Restart => RestartShrinks(s);
    }
  }

  // ----- operations that add

  lemma {:induction false} BeginRequests(lib: Library, s: State, past: History, request: NewRequest, nonce: string,
                                         code: string, now: int, birth: Birth, after: State)
    requires RequestsSound(s, past) && CodesSound(s, past) && request.id !in past.requests
    requires BeginEffect(lib, s, request, nonce, code, now, after)
    ensures RequestsSound(after, RecordBegin(past, s, request, birth, after))
  {
  }

  lemma {:induction false} BeginSound(lib: Library, s: State, past: History, request: NewRequest, nonce: string,
                                      code: string, now: int, birth: Birth, after: State)
    requires Sound(lib, s, past) && request.id !in past.requests
    requires BeginEffect(lib, s, request, nonce, code, now, after)
    ensures Sound(lib, after, RecordBegin(past, s, request, birth, after))
  {
    BeginRequests(lib, s, past, request, nonce, code, now, birth, after);
  }

  lemma {:induction false} CountedRequests(s: State, past: History, id: string, next: History)
    requires RequestsSound(s, past) && id in s.db.pending && s.db.pending[id].attempts < MAX_CODE_ATTEMPTS
    requires next.requests == past.requests && next.minted == past.minted
    requires next.compared == past.compared[id := past.compared[id] + 1]
    ensures RequestsSound(RecordAttempt(s, id), next)
  {
  }

  lemma {:induction false} RemovedRequests(s: State, past: History, id: string, after: State, next: History)
    requires RequestsSound(s, past) && after.db.pending == s.db.pending - {id}
    requires next.requests == past.requests && next.compared == past.compared
    requires forall c :: c in next.minted ==>
               next.minted[c] == id || (c in past.minted && past.minted[c] == next.minted[c])
    ensures RequestsSound(after, next)
  {
  }

  lemma {:induction false} ApproveRequests(s: State, past: History, id: string, minted: string, now: int,
                                           compares: bool, after: State)
    requires RequestsSound(s, past) && CodesSound(s, past) && minted !in past.minted
    requires ApproveEffect(s, id, minted, now, compares, after)
    ensures RequestsSound(after, RecordApprove(past, id, minted, compares, after))
  {
    var next := RecordApprove(past, id, minted, compares, after);

    if compares {
      var counted := past.(compared := next.compared);
      CountedRequests(s, past, id, counted);

      if after != RecordAttempt(s, id) {
        RemovedRequests(RecordAttempt(s, id), counted, id, after, next);
      }
    } else if after != s {
      RemovedRequests(s, past, id, after, next);
    }
  }

  lemma {:induction false} MintCodes(s: State, past: History, id: string, request: Pending, minted: string, now: int,
                                     next: History)
    requires CodesSound(s, past) && minted !in past.minted
    requires id in past.requests && SameRow(request, past.requests[id])
    requires forall c :: c in past.minted ==> past.minted[c] != id
    requires next.requests == past.requests && next.minted == past.minted[minted := id]
    ensures CodesSound(Mint(s, id, request, minted, now), next)
  {
  }

  lemma {:induction false} ApproveCodes(s: State, past: History, id: string, minted: string, now: int, compares: bool,
                                        after: State)
    requires RequestsSound(s, past) && CodesSound(s, past) && minted !in past.minted
    requires ApproveEffect(s, id, minted, now, compares, after)
    ensures CodesSound(after, RecordApprove(past, id, minted, compares, after))
  {
    if minted in after.codes {
      var counted := RecordAttempt(s, id);
      MintCodes(counted, past, id, counted.db.pending[id], minted, now,
                RecordApprove(past, id, minted, compares, after));
    } else {
      assert after.codes == s.codes;
    }
  }

  lemma {:induction false} ApproveGrants(lib: Library, s: State, past: History, id: string, minted: string,
                                         now: int, compares: bool, after: State)
    requires CodesSound(s, past) && GrantsSound(lib, s, past) && minted !in past.minted
    requires ApproveEffect(s, id, minted, now, compares, after)
    ensures GrantsSound(lib, after, RecordApprove(past, id, minted, compares, after))
  {
    var next := RecordApprove(past, id, minted, compares, after);
    forall g | g in past.exchanged ensures MadeFrom(lib, after, next, g) {
      assert MadeFrom(lib, s, past, g);
    }
  }

  lemma {:induction false} GrantMadeCodes(lib: Library, s: State, past: History, code: string, verifier: string,
                                          client: string, redirectUri: string, grant: string, pair: TokenPair,
                                          now: int, after: State)
    requires RequestsSound(s, past) && CodesSound(s, past)
    requires GrantMade(lib, s, code, verifier, client, redirectUri, grant, pair, now, after)
    ensures var next := RecordExchange(lib, past, code, verifier, client, redirectUri, grant, pair, after);
            RequestsSound(after, next) && CodesSound(after, next)
  {
  }

  /** What an exchange that made a grant adds to the record. */
  lemma {:induction false} ExchangeRecord(lib: Library, s: State, past: History, code: string, verifier: string,
                                          client: string, redirectUri: string, grant: string, pair: TokenPair,
                                          now: int, after: State)
    requires GrantMade(lib, s, code, verifier, client, redirectUri, grant, pair, now, after)
    requires code in past.minted && past.minted[code] in past.requests
    ensures var next := RecordExchange(lib, past, code, verifier, client, redirectUri, grant, pair, after);
            next == past.(
              exchanged := past.exchanged[grant := Exchange(code, verifier, client, redirectUri)],
              births := past.births[grant := past.requests[past.minted[code]].birth],
              chains := next.chains, hashes := next.hashes)
  {
  }

  /** A grant is added for a code that leaves the map. */
  lemma {:induction false} GrantAdded(lib: Library, s: State, past: History, code: string, grant: string, how: Exchange,
                                      birth: Birth, after: State, next: History)
    requires GrantsSound(lib, s, past) && grant !in past.births
    requires forall g :: g in past.exchanged ==> past.exchanged[g].code != code
    requires how.code == code && after.codes == s.codes - {code}
    requires grant in after.db.grants && after.db.grants == s.db.grants[grant := after.db.grants[grant]]
    requires next == past.(exchanged := past.exchanged[grant := how], births := past.births[grant := birth],
                           chains := next.chains, hashes := next.hashes)
    requires MadeFrom(lib, after, next, grant)
    ensures GrantsSound(lib, after, next)
  {
    forall g | g in next.exchanged && g != grant ensures MadeFrom(lib, after, next, g) {
      assert MadeFrom(lib, s, past, g);
    }
  }

  lemma {:induction false} GrantMadeGrants(lib: Library, s: State, past: History, code: string, verifier: string,
                                           client: string, redirectUri: string, grant: string, pair: TokenPair,
                                           now: int, after: State)
    requires CodesSound(s, past) && GrantsSound(lib, s, past) && grant !in past.births
    requires GrantMade(lib, s, code, verifier, client, redirectUri, grant, pair, now, after)
    ensures GrantsSound(lib, after, RecordExchange(lib, past, code, verifier, client, redirectUri, grant, pair, after))
  {
    hide RecordExchange, StoresPair;
    var next := RecordExchange(lib, past, code, verifier, client, redirectUri, grant, pair, after);
    ExchangeRecord(lib, s, past, code, verifier, client, redirectUri, grant, pair, now, after);
    CodeUnused(lib, s, past, code);
    assert MadeFrom(lib, after, next, grant);
    GrantAdded(lib, s, past, code, grant, next.exchanged[grant], next.births[grant], after, next);
  }

  lemma {:induction false} CodeUnused(lib: Library, s: State, past: History, code: string)
    requires GrantsSound(lib, s, past) && code in s.codes
    ensures forall g :: g in past.exchanged ==> past.exchanged[g].code != code
  {
    forall g | g in past.exchanged ensures past.exchanged[g].code != code {
      assert MadeFrom(lib, s, past, g);
    }
  }

  lemma {:induction false} ExchangeSound(lib: Library, s: State, past: History, code: string, verifier: string,
                                         client: string, redirectUri: string, grant: string, pair: TokenPair,
                                         now: int, after: State)
    requires Sound(lib, s, past) && grant !in past.births
    requires ExchangeEffect(lib, s, code, verifier, client, redirectUri, grant, pair, now, after)
    ensures Sound(lib, after, RecordExchange(lib, past, code, verifier, client, redirectUri, grant, pair, after))
  {
    if GrantMade(lib, s, code, verifier, client, redirectUri, grant, pair, now, after) {
      GrantMadeCodes(lib, s, past, code, verifier, client, redirectUri, grant, pair, now, after);
      GrantMadeGrants(lib, s, past, code, verifier, client, redirectUri, grant, pair, now, after);
    } else {
      SoundShrinks(lib, s, past, after, past);
    }
  }

  lemma {:induction false} StaticGrants(lib: Library, s: State, past: History, server: string, name: string,
                                        ttl: int, grant: string, token: string, now: int, birth: Birth,
                                        after: State)
    requires GrantsSound(lib, s, past) && grant !in past.births
    requires StaticEffect(lib, s, server, name, ttl, grant, token, now, after)
    ensures GrantsSound(lib, after, RecordStatic(lib, past, s, grant, token, birth, after))
  {
    var next := RecordStatic(lib, past, s, grant, token, birth, after);
    forall g | g in past.exchanged ensures MadeFrom(lib, after, next, g) {
      assert MadeFrom(lib, s, past, g);
    }
  }

  lemma {:induction false} StaticSound(lib: Library, s: State, past: History, server: string, name: string,
                                       ttl: int, grant: string, token: string, now: int, birth: Birth, after: State)
    requires Sound(lib, s, past) && grant !in past.births
    requires StaticEffect(lib, s, server, name, ttl, grant, token, now, after)
    ensures Sound(lib, after, RecordStatic(lib, past, s, grant, token, birth, after))
  {
    hide GrantsSound;
    StaticGrants(lib, s, past, server, name, ttl, grant, token, now, birth, after);
  }

  lemma {:induction false} OthersRecord(lib: Library, w: World, e: Event)
    requires !Adds(e.op)
    ensures var next := Record(lib, w, e, AfterOther(lib, w, e));
            next == w.past.(chains := next.chains, used := next.used, hashes := next.hashes)
  {
    hide AfterOther;
  }

  /** Every operation keeps the invariant. */
  lemma {:induction false} StepSound(lib: Library, w: World, e: Event)
    requires Sound(lib, w.s, w.past) && Enabled(lib, w, e)
    ensures var next := Step(lib, w, e); Sound(lib, next.s, next.past)
  {
    hide Access.Begin, Access.ApproveWithCode, Access.ExchangeCode, Access.CreateStaticToken, AfterOther,
         GrantsSound, BeginEffect, ApproveEffect, ExchangeEffect, StaticEffect, Shrinks, RecordBegin, RecordApprove,
         RecordExchange, RecordStatic, RecordRefresh;
    var after := After(lib, w, e);

    match e.op {
      case Begin(request, nonce, code) =>
        BeginSummary(lib, w.s, request, nonce, code, e.now, e.weather);
        BeginSound(lib, w.s, w.past, request, nonce, code, e.now, BirthOn(w, request.server), after);
      case ApproveWithCode(id, typed, cookie, minted) =>
        var compares := Compares(w.s, id, e.now, e.weather);
        ApproveSummary(lib, w.s, id, typed, cookie, minted, e.now, e.weather);
        ApproveRequests(w.s, w.past, id, minted, e.now, compares, after);
        ApproveCodes(w.s, w.past, id, minted, e.now, compares, after);
        ApproveGrants(lib, w.s, w.past, id, minted, e.now, compares, after);
      case ExchangeCode(code, verifier, resource, client, redirectUri, grant, pair) =>
        ExchangeSummary(lib, w.s, code, verifier, resource, client, redirectUri, grant, pair, e.now, e.weather);
        ExchangeSound(lib, w.s, w.past, code, verifier, client, redirectUri, grant, pair, e.now, after);
      case CreateStaticToken(server, name, ttl, grant, token) =>
        StaticSummary(lib, w.s, server, name, ttl, grant, token, e.now, e.weather);
        StaticSound(lib, w.s, w.past, server, name, ttl, grant, token, e.now, BirthOn(w, server), after);
      case _ =>
        OthersShrink(lib, w, e);
        OthersRecord(lib, w, e);
        SoundShrinks(lib, w.s, w.past, after, Record(lib, w, e, after));
    }
  }
}
