/** How long requests, codes, approvals and grants last: what ends each of them, over any run, and
    what a sweep leaves. Journey.dfy says the same of tokens. */
module Lifetimes {
  import opened Prelude
  import opened Store
  import opened Access
  import opened Effects
  import opened Apps
  import opened Reload
  import opened Runs
  import Flow
  import Guarantees
  import Orphans
  import Journey

  // ----- the sweep

  /** A prune that completes deletes exactly the rows that are over, and changes no other: requests
      and tokens that expired, bearers that were revoked, and grants older than an hour that no
      token is left of. A prune that fails deletes nothing. */
  lemma {:induction false} SweepExactly(s: State, now: int, weather: seq<bool>)
    ensures var after := Access.Sweep(s, now, weather);
            && (forall id, row :: Lookup(after.db.pending, id) == Some(row) <==>
                  Lookup(s.db.pending, id) == Some(row) && (Up(weather, 0) ==> now <= row.expiresAt))
            && (forall hash, row :: Lookup(after.db.tokens, hash) == Some(row) <==>
                  && Lookup(s.db.tokens, hash) == Some(row)
                  && (Up(weather, 2) ==> now <= row.expiresAt && (row.kind == TokenKind.Refresh || !row.revoked)))
            && (forall id, row :: Lookup(after.db.grants, id) == Some(row) <==>
                  && Lookup(s.db.grants, id) == Some(row)
                  && (Up(weather, 3) ==>
                        || now - HOUR <= row.createdAt
                        || exists hash :: hash in after.db.tokens && after.db.tokens[hash].grant == id))
            && after == s.(db := s.db.(pending := after.db.pending, tokens := after.db.tokens,
                                       grants := after.db.grants))
  {
  }

  // ----- requests

  /** The request waits, its row as it was stored but for the attempts. */
  predicate Waits(s: State, id: string, row: Pending) {
    id in s.db.pending && s.db.pending[id].(attempts := row.attempts) == row
  }

  /** The typed code settles the request: it is right, in the right browser, or the last that may be
      wrong. */
  predicate Settles(lib: Library, row: Pending, attempts: nat, typed: string, cookie: Option<string>) {
    || attempts >= MAX_CODE_ATTEMPTS
    || (if lib.normalizeCode(typed) == lib.normalizeCode(row.code)
        then cookie.Some? && lib.sha256(cookie.value) == row.nonceHash
        else attempts + 1 >= MAX_CODE_ATTEMPTS)
  }

  /** The operation is meant to end the request. */
  predicate EndsRequest(lib: Library, w: World, e: Event, id: string, row: Pending)
    requires id in w.s.db.pending
  {
    match e.op
    case ApproveWithCode(other, typed, cookie, _) =>
      other == id && Settles(lib, row, w.s.db.pending[id].attempts, typed, cookie)
    case RevokeServer(server) => server == row.server
    case Apply(_, _) => row.server in Orphans.RevokesMade(w, e)
    case _ => false
  }

  lemma {:induction false} OtherWaits(lib: Library, s: State, other: string, typed: string, cookie: Option<string>,
                                      code: string, now: int, weather: seq<bool>, id: string, row: Pending)
    requires Waits(s, id, row) && other != id
    ensures Waits(Access.ApproveWithCode(lib, s, other, typed, cookie, code, now, weather).0, id, row)
  {
    var after := Access.ApproveWithCode(lib, s, other, typed, cookie, code, now, weather).0;
    ApproveSummary(lib, s, other, typed, cookie, code, now, weather);
    hide Access.ApproveWithCode;
    OtherLeft(s, other, code, now, Compares(s, other, now, weather), after, id);
  }

  lemma {:induction false} OtherLeft(s: State, other: string, code: string, now: int, compares: bool, after: State,
                                     id: string)
    requires ApproveEffect(s, other, code, now, compares, after) && other != id
    ensures Lookup(after.db.pending, id) == Lookup(s.db.pending, id)
  {
  }

  lemma {:induction false} Unsettled(lib: Library, s: State, typed: string, cookie: Option<string>, code: string,
                                     now: int, weather: seq<bool>, id: string, row: Pending)
    requires Waits(s, id, row) && !Settles(lib, row, s.db.pending[id].attempts, typed, cookie)
    ensures Waits(Access.ApproveWithCode(lib, s, id, typed, cookie, code, now, weather).0, id, row)
  {
  }

  lemma {:induction false} Settled(lib: Library, s: State, typed: string, cookie: Option<string>, code: string,
                                   now: int, weather: seq<bool>, id: string, row: Pending)
    requires Waits(s, id, row) && now <= row.expiresAt && forall i: nat :: Up(weather, i)
    requires Settles(lib, row, s.db.pending[id].attempts, typed, cookie)
    ensures id !in Access.ApproveWithCode(lib, s, id, typed, cookie, code, now, weather).0.db.pending
  {
    var after := if |weather| < 2 then [] else weather[2..];
    assert Up(weather, 0) && Up(weather, 1) && Up(weather, 2) && Up(weather, 3);
    assert Up(after, 0) && Up(after, 1);
  }

  lemma {:induction false} ApproveSettles(lib: Library, s: State, other: string, typed: string, cookie: Option<string>,
                                          code: string, now: int, weather: seq<bool>, id: string, row: Pending)
    requires Waits(s, id, row) && now <= row.expiresAt
    ensures var after := Access.ApproveWithCode(lib, s, other, typed, cookie, code, now, weather).0;
            var settles := other == id && Settles(lib, row, s.db.pending[id].attempts, typed, cookie);
            && (!settles ==> Waits(after, id, row))
            && (settles && (forall i: nat :: Up(weather, i)) ==> id !in after.db.pending)
  {
    hide Access.ApproveWithCode, Settles;

    if other != id {
      OtherWaits(lib, s, other, typed, cookie, code, now, weather, id, row);
    } else if !Settles(lib, row, s.db.pending[id].attempts, typed, cookie) {
      Unsettled(lib, s, typed, cookie, code, now, weather, id, row);
    } else if forall i: nat :: Up(weather, i) {
      Settled(lib, s, typed, cookie, code, now, weather, id, row);
    }
  }

  /** What a reload does to requests and codes is what its revocations do. */
  lemma {:induction false} ApplyRows(lib: Library, w: World, e: Event)
    requires e.op.Apply?
    ensures var (after, revoked) := (AfterOther(lib, w, e), RevokeServers(w.s, Orphans.RevokesMade(w, e)));
            after.db.pending == revoked.db.pending && after.codes == revoked.codes
            && after.db.grants == revoked.db.grants
  {
    hide RevokeServers, Applied, Orphans.RevokesMade;

    if Orphans.ReadsFail(e) {
      Journey.NothingRevoked(w, e);
    } else {
      Orphans.SameTables(w.s, w, e);
    }
  }

  lemma {:induction false} ServersEndRequest(s: State, reached: map<string, nat>, id: string, row: Pending)
    requires Waits(s, id, row)
    ensures row.server !in reached ==> Waits(RevokeServers(s, reached), id, row)
    ensures row.server in reached && reached[row.server] == 5 ==> id !in RevokeServers(s, reached).db.pending
  {
  }

  lemma {:induction false} RevokeRequest(lib: Library, w: World, e: Event, id: string, row: Pending)
    requires Waits(w.s, id, row) && (e.op.RevokeServer? || e.op.Apply?)
    ensures !EndsRequest(lib, w, e, id, row) ==> Waits(AfterOther(lib, w, e), id, row)
    ensures EndsRequest(lib, w, e, id, row) && Journey.Fair(e) ==> id !in AfterOther(lib, w, e).db.pending
  {
    hide RevokeServers, Applied, Orphans.RevokesMade;

    if e.op.RevokeServer? {
      ServersEndRequest(w.s, map[e.op.server := Completed(e.weather)], id, row);

      if Journey.Fair(e) {
        Journey.FairCompletes(e.weather);
      }
    } else {
      ApplyRows(lib, w, e);
      ServersEndRequest(w.s, Orphans.RevokesMade(w, e), id, row);

      if Journey.Fair(e) && row.server in Orphans.RevokesMade(w, e) {
        Journey.ServerCompletes(w, e, row.server);
      }
    }
  }

  /** Requests are left alone by everything that isn't about requests. */
  lemma {:induction false} SameRequests(lib: Library, w: World, e: Event)
    requires !e.op.Begin? && !e.op.ApproveWithCode? && !e.op.RevokeServer? && !e.op.Apply? && !e.op.Sweep?
    ensures After(lib, w, e).db.pending == w.s.db.pending
  {
    hide StoresPair;

    match e.op {
      case ExchangeCode(code, verifier, resource, client, redirectUri, grant, pair) =>
        ExchangeSummary(lib, w.s, code, verifier, resource, client, redirectUri, grant, pair, e.now, e.weather);
      case CreateStaticToken(server, name, ttl, grant, token) =>
        StaticSummary(lib, w.s, server, name, ttl, grant, token, e.now, e.weather);
      case Refresh(token, pair) => RefreshSummary(lib, w.s, token, pair, e.now, e.weather);
      case _ =>
    }
  }

  /** Which operations end a request that hasn't expired: exactly those meant to, when every
      statement completes; and whatever fails, no others. */
  lemma {:induction false} RequestEndsExactly(lib: Library, w: World, e: Event, id: string, row: Pending)
    requires Waits(w.s, id, row) && e.now <= row.expiresAt
    ensures !EndsRequest(lib, w, e, id, row) ==> Waits(After(lib, w, e), id, row)
    ensures EndsRequest(lib, w, e, id, row) && Journey.Fair(e) ==> id !in After(lib, w, e).db.pending
  {
    hide Settles, AfterOther, Access.Begin, Access.ApproveWithCode, Access.ExchangeCode, Access.CreateStaticToken,
         Orphans.RevokesMade;

    match e.op {
      case Begin(request, nonce, code) => BeginSummary(lib, w.s, request, nonce, code, e.now, e.weather);
      case ApproveWithCode(other, typed, cookie, minted) =>
        ApproveSettles(lib, w.s, other, typed, cookie, minted, e.now, e.weather, id, row);
      case RevokeServer(_) => RevokeRequest(lib, w, e, id, row);
      case Apply(_, _) => RevokeRequest(lib, w, e, id, row);
      case Sweep => SweepKeepsRequest(lib, w, e, id, row);
      case _ => SameRequests(lib, w, e);
    }
  }

  lemma {:induction false} SweepKeepsRequest(lib: Library, w: World, e: Event, id: string, row: Pending)
    requires Waits(w.s, id, row) && e.now <= row.expiresAt && e.op.Sweep?
    ensures Waits(AfterOther(lib, w, e), id, row)
  {
    hide Access.Sweep;
    SweepExactly(w.s, e.now, e.weather);
    assert Lookup(w.s.db.pending, id) == Some(w.s.db.pending[id]);
  }

  /** Nothing in this run is meant to end the request, and it is over before the request expires. */
  ghost predicate RequestLeft(lib: Library, w: World, events: seq<Event>, id: string, row: Pending)
    decreases |events|
  {
    events == [] ||
    (&& id in w.s.db.pending && !EndsRequest(lib, w, events[0], id, row) && events[0].now <= row.expiresAt
     && RequestLeft(lib, Step(lib, w, events[0]), events[1..], id, row))
  }

  lemma {:induction false} RequestStays(lib: Library, w: World, events: seq<Event>, id: string, row: Pending)
    requires Waits(w.s, id, row) && RequestLeft(lib, w, events, id, row)
    ensures Waits(Run(lib, w, events).s, id, row)
    decreases |events|
  {
    hide EndsRequest, Waits, After, Record, PlansAfter;

    if events != [] {
      WaitsThere(w.s, id, row);
      RequestEndsExactly(lib, w, events[0], id, row);
      RequestStays(lib, Step(lib, w, events[0]), events[1..], id, row);
    }
  }

  lemma {:induction false} WaitsThere(s: State, id: string, row: Pending)
    requires Waits(s, id, row)
    ensures id in s.db.pending
  {
  }

  /** A request waits through any run in which nothing is meant to end it, sweeps, failures and
      restarts included: at its end the right code in the right browser is approved until the
      request expires and not after, as long as fewer than MAX_CODE_ATTEMPTS codes were tried. */
  lemma {:induction false} RequestLasts(lib: Library, w: World, events: seq<Event>, id: string, row: Pending,
                                        typed: string, cookie: Option<string>, minted: string, now: int)
    requires Waits(w.s, id, row) && RequestLeft(lib, w, events, id, row)
    ensures var end := Run(lib, w, events).s;
            && Waits(end, id, row)
            && (Access.ApproveWithCode(lib, end, id, typed, cookie, minted, now, []).1.Done? <==>
                  && now <= row.expiresAt && end.db.pending[id].attempts < MAX_CODE_ATTEMPTS
                  && lib.normalizeCode(typed) == lib.normalizeCode(row.code)
                  && cookie.Some? && lib.sha256(cookie.value) == row.nonceHash)
  {
    hide RequestLeft, Run, Access.ApproveWithCode;
    RequestStays(lib, w, events, id, row);
    Journey.ApproveExactly(lib, Run(lib, w, events).s, id, typed, cookie, minted, now);
  }

  // ----- codes

  /** The operation is meant to end the code, or uses it up. */
  predicate EndsCode(lib: Library, w: World, e: Event, code: string, row: Code) {
    match e.op
    case ExchangeCode(other, verifier, _, _, _, _, _) => other == code && IsVerifier(verifier)
    case RevokeServer(server) => server == row.server
    case RevokeAll => true
    case Apply(_, _) => row.server in Orphans.RevokesMade(w, e)
    case Restart => true
    case _ => false
  }

  lemma {:induction false} ServersEndCode(s: State, reached: map<string, nat>, code: string, row: Code)
    requires Lookup(s.codes, code) == Some(row)
    ensures row.server !in reached ==> Lookup(RevokeServers(s, reached).codes, code) == Some(row)
    ensures row.server in reached && reached[row.server] == 5 ==> code !in RevokeServers(s, reached).codes
  {
  }

  lemma {:induction false} RevokeCode(lib: Library, w: World, e: Event, code: string, row: Code)
    requires Lookup(w.s.codes, code) == Some(row) && (e.op.RevokeServer? || e.op.Apply?)
    ensures !EndsCode(lib, w, e, code, row) ==> Lookup(AfterOther(lib, w, e).codes, code) == Some(row)
    ensures EndsCode(lib, w, e, code, row) && Journey.Fair(e) ==> code !in AfterOther(lib, w, e).codes
  {
    hide RevokeServers, Applied, Orphans.RevokesMade;

    if e.op.RevokeServer? {
      ServersEndCode(w.s, map[e.op.server := Completed(e.weather)], code, row);

      if Journey.Fair(e) {
        Journey.FairCompletes(e.weather);
      }
    } else {
      ApplyRows(lib, w, e);
      ServersEndCode(w.s, Orphans.RevokesMade(w, e), code, row);

      if Journey.Fair(e) && row.server in Orphans.RevokesMade(w, e) {
        Journey.ServerCompletes(w, e, row.server);
      }
    }
  }

  lemma {:induction false} ApproveLeavesCode(lib: Library, s: State, id: string, typed: string, cookie: Option<string>,
                                             minted: string, now: int, weather: seq<bool>, code: string, row: Code)
    requires Lookup(s.codes, code) == Some(row) && now <= row.expiresAt && minted != code
    ensures Lookup(Access.ApproveWithCode(lib, s, id, typed, cookie, minted, now, weather).0.codes, code) == Some(row)
  {
  }

  lemma {:induction false} ExchangeLeavesCode(lib: Library, w: World, e: Event, code: string, row: Code)
    requires Lookup(w.s.codes, code) == Some(row) && e.op.ExchangeCode?
    ensures if EndsCode(lib, w, e, code, row) then code !in AfterAdding(lib, w.s, e).codes
            else Lookup(AfterAdding(lib, w.s, e).codes, code) == Some(row)
  {
    hide IsVerifier;
  }

  /** Codes are left alone by everything that isn't about codes. */
  lemma {:induction false} SameCodes(lib: Library, w: World, e: Event)
    requires !e.op.ApproveWithCode? && !e.op.ExchangeCode? && !e.op.RevokeServer? && !e.op.RevokeAll?
    requires !e.op.Apply? && !e.op.Restart?
    ensures After(lib, w, e).codes == w.s.codes
  {
    hide StoresPair;

    match e.op {
      case Begin(request, nonce, code) => BeginSummary(lib, w.s, request, nonce, code, e.now, e.weather);
      case CreateStaticToken(server, name, ttl, grant, token) =>
        StaticSummary(lib, w.s, server, name, ttl, grant, token, e.now, e.weather);
      case Refresh(token, pair) => RefreshSummary(lib, w.s, token, pair, e.now, e.weather);
      case _ =>
    }
  }

  /** Which operations end a code that hasn't expired: exactly those meant to, when every statement
      completes; and whatever fails, no others. */
  lemma {:induction false} CodeEndsExactly(lib: Library, w: World, e: Event, code: string, row: Code)
    requires Flow.CodesSound(w.s, w.past) && Enabled(lib, w, e)
    requires Lookup(w.s.codes, code) == Some(row) && e.now <= row.expiresAt
    ensures !EndsCode(lib, w, e, code, row) ==> Lookup(After(lib, w, e).codes, code) == Some(row)
    ensures EndsCode(lib, w, e, code, row) && Journey.Fair(e) ==> code !in After(lib, w, e).codes
  {
    hide AfterOther, Access.Begin, Access.ApproveWithCode, Access.ExchangeCode, Access.CreateStaticToken,
         Orphans.RevokesMade, IsVerifier;

    match e.op {
      case ApproveWithCode(id, typed, cookie, minted) =>
        ApproveLeavesCode(lib, w.s, id, typed, cookie, minted, e.now, e.weather, code, row);
      case ExchangeCode(_, _, _, _, _, _, _) => ExchangeLeavesCode(lib, w, e, code, row);
      case RevokeServer(_) => RevokeCode(lib, w, e, code, row);
      case Apply(_, _) => RevokeCode(lib, w, e, code, row);
      case RevokeAll => AllCodesGone(lib, w, e);
      case Restart => AllCodesGone(lib, w, e);
      case _ => SameCodes(lib, w, e);
    }
  }

  lemma {:induction false} AllCodesGone(lib: Library, w: World, e: Event)
    requires e.op.Restart? || e.op.RevokeAll?
    ensures Journey.Fair(e) ==> AfterOther(lib, w, e).codes == map[]
  {
    if Journey.Fair(e) {
      assert Up(e.weather, 0) && Up(e.weather, 1) && Up(e.weather, 2);
    }
  }

  ghost predicate CodeLeft(lib: Library, w: World, events: seq<Event>, code: string, row: Code)
    decreases |events|
  {
    events == [] ||
    (&& !EndsCode(lib, w, events[0], code, row) && events[0].now <= row.expiresAt
     && CodeLeft(lib, Step(lib, w, events[0]), events[1..], code, row))
  }

  lemma {:induction false} CodeStays(lib: Library, w: World, events: seq<Event>, code: string, row: Code)
    requires Flow.Sound(lib, w.s, w.past) && AllEnabled(lib, w, events)
    requires Lookup(w.s.codes, code) == Some(row) && CodeLeft(lib, w, events, code, row)
    ensures Lookup(Run(lib, w, events).s.codes, code) == Some(row)
    decreases |events|
  {
    hide EndsCode, After, Record, PlansAfter, Enabled, Flow.RequestsSound, Flow.CodesSound, Flow.GrantsSound;

    if events != [] {
      Flow.StepSound(lib, w, events[0]);
      CodeEndsExactly(lib, w, events[0], code, row);
      CodeStays(lib, Step(lib, w, events[0]), events[1..], code, row);
    }
  }

  /** A code lasts through any run in which nothing is meant to end it, other approvals, sweeps and
      failures included: at its end the right client's exchange works until the code expires and not
      after. */
  lemma {:induction false} CodeLasts(
    lib: Library, w: World, events: seq<Event>, code: string, row: Code, verifier: string, resource: string,
    client: string, redirectUri: string, grant: string, pair: TokenPair, now: int)
    requires Guarantees.Reachable(lib, w) && AllEnabled(lib, w, events)
    requires Lookup(w.s.codes, code) == Some(row) && CodeLeft(lib, w, events, code, row)
    requires var end := Run(lib, w, events).s;
             && grant !in end.db.grants && lib.sha256(pair.access) != lib.sha256(pair.refresh)
             && lib.sha256(pair.access) !in end.db.tokens && lib.sha256(pair.refresh) !in end.db.tokens
    ensures var end := Run(lib, w, events).s;
            && Lookup(end.codes, code) == Some(row)
            && (Access.ExchangeCode(lib, end, code, verifier, resource, client, redirectUri, grant, pair, now, []).1
                  == Done(pair) <==>
                  && IsVerifier(verifier) && now <= row.expiresAt
                  && row.client == client && row.redirectUri == redirectUri
                  && row.challenge == lib.pkceChallenge(verifier)
                  && (resource == "" || lib.urlMatches(resource, row.server)))
  {
    hide CodeLeft, Run, Access.ExchangeCode, Guarantees.Reachable, AllEnabled, IsVerifier, Flow.Sound;
    SoundNow(lib, w);
    CodeStays(lib, w, events, code, row);
    Journey.ExchangeExactly(lib, Run(lib, w, events).s, code, verifier, resource, client, redirectUri, grant, pair,
                            now);
  }

  lemma {:induction false} SoundNow(lib: Library, w: World)
    requires Guarantees.Reachable(lib, w)
    ensures Flow.Sound(lib, w.s, w.past)
  {
    hide Guarantees.Reachable, Flow.Sound;
    Guarantees.ReachableGood(lib, w);
  }

  // ----- grants

  /** The grant exists, its row as it was stored but for the time of its last use. */
  predicate Holds(s: State, id: string, row: Grant) {
    id in s.db.grants && s.db.grants[id].(lastUsed := row.lastUsed) == row
  }

  /** Some token of the grant is worth keeping. */
  predicate HasToken(s: State, id: string, now: int) {
    exists hash | hash in s.db.tokens ::
      && s.db.tokens[hash].grant == id && now <= s.db.tokens[hash].expiresAt
      && (s.db.tokens[hash].kind == TokenKind.Refresh || !s.db.tokens[hash].revoked)
  }

  /** The operation is meant to end the grant; or it sweeps, and the grant is an hour old and no token
      of it is left. */
  predicate EndsGrant(lib: Library, w: World, e: Event, id: string, row: Grant) {
    || Journey.Ends(lib, w, e, id, row.server)
    || (e.op.Sweep? && row.createdAt < e.now - HOUR && !HasToken(w.s, id, e.now))
  }

  lemma {:induction false} InnerEndsGrant(s: State, other: string, up0: bool, up1: bool, id: string, row: Grant)
    requires Holds(s, id, row)
    ensures var after := RevokeGrantInner(s, other, up0, up1).0;
            && (other != id ==> Holds(after, id, row))
            && (other == id && up0 && up1 ==> id !in after.db.grants)
  {
  }

  lemma {:induction false} RefreshGrant(lib: Library, w: World, e: Event, id: string, row: Grant)
    requires Holds(w.s, id, row) && e.op.Refresh?
    ensures !Journey.Ends(lib, w, e, id, row.server) ==> Holds(AfterOther(lib, w, e), id, row)
    ensures Journey.Ends(lib, w, e, id, row.server) && Journey.Fair(e) ==> id !in AfterOther(lib, w, e).db.grants
  {
    hide Holds, RevokeGrantInner, IssueTokens;
    var hash := lib.sha256(e.op.token);

    if hash in w.s.db.tokens {
      var found := w.s.db.tokens[hash];
      InnerEndsGrant(w.s, found.grant, Up(e.weather, 3), Up(e.weather, 4), id, row);
      IssueSummary(lib, Claimed(w.s, hash), found.grant, found.server, e.op.pair, e.now, Up(e.weather, 3),
                   Up(e.weather, 4));
      SameGrants(w.s, Claimed(w.s, hash), id, row);
      SameGrants(w.s, IssueTokens(lib, Claimed(w.s, hash), found.grant, found.server, e.op.pair, e.now,
                                  Up(e.weather, 3), Up(e.weather, 4)).0, id, row);
    }

    if Journey.Fair(e) {
      assert Up(e.weather, 0) && Up(e.weather, 1) && Up(e.weather, 2) && Up(e.weather, 3) && Up(e.weather, 4);
      HoldsThere(w.s, id, row);
    }
  }

  lemma {:induction false} HoldsThere(s: State, id: string, row: Grant)
    requires Holds(s, id, row)
    ensures id in s.db.grants
  {
  }

  lemma {:induction false} SameGrants(s: State, after: State, id: string, row: Grant)
    requires Holds(s, id, row) && after.db.grants == s.db.grants
    ensures Holds(after, id, row)
  {
  }

  lemma {:induction false} ServersEndGrant(s: State, reached: map<string, nat>, id: string, row: Grant)
    requires Holds(s, id, row)
    ensures row.server !in reached ==> Holds(RevokeServers(s, reached), id, row)
    ensures row.server in reached && reached[row.server] == 5 ==> id !in RevokeServers(s, reached).db.grants
  {
  }

  lemma {:induction false} RevokeGrants(lib: Library, w: World, e: Event, id: string, row: Grant)
    requires Holds(w.s, id, row)
    requires e.op.Revoke? || e.op.RevokeGrant? || e.op.RevokeServer? || e.op.RevokeAll? || e.op.Apply?
    ensures !Journey.Ends(lib, w, e, id, row.server) ==> Holds(AfterOther(lib, w, e), id, row)
    ensures Journey.Ends(lib, w, e, id, row.server) && Journey.Fair(e) ==> id !in AfterOther(lib, w, e).db.grants
  {
    hide RevokeServers, Applied, Orphans.RevokesMade, RevokeGrantInner, Holds;

    if Journey.Fair(e) {
      assert Up(e.weather, 0) && Up(e.weather, 1) && Up(e.weather, 2) && Up(e.weather, 3);
    }

    match e.op {
      case Revoke(token) =>
        if lib.sha256(token) in w.s.db.tokens {
          InnerEndsGrant(w.s, w.s.db.tokens[lib.sha256(token)].grant, Up(e.weather, 2), Up(e.weather, 3), id, row);
        }
      case RevokeGrant(other) => InnerEndsGrant(w.s, other, Up(e.weather, 0), Up(e.weather, 1), id, row);
      case RevokeServer(server) =>
        ServersEndGrant(w.s, map[server := Completed(e.weather)], id, row);
        if Journey.Fair(e) {
          Journey.FairCompletes(e.weather);
        }
      case Apply(_, _) =>
        ApplyRows(lib, w, e);
        ServersEndGrant(w.s, Orphans.RevokesMade(w, e), id, row);
        if row.server !in Orphans.RevokesMade(w, e) {
          SameGrants(RevokeServers(w.s, Orphans.RevokesMade(w, e)), AfterOther(lib, w, e), id, row);
        } else if Journey.Fair(e) {
          Journey.ServerCompletes(w, e, row.server);
        }
      case RevokeAll =>
    }
  }

  lemma {:induction false} SweepGrant(s: State, now: int, weather: seq<bool>, id: string, row: Grant)
    requires Holds(s, id, row)
    ensures var after := Access.Sweep(s, now, weather);
            var over := row.createdAt < now - HOUR && !HasToken(s, id, now);
            && (!over ==> Holds(after, id, row))
            && (over && (forall i: nat :: Up(weather, i)) ==> id !in after.db.grants)
  {
    hide Access.Sweep;
    SweepExactly(s, now, weather);
    var after := Access.Sweep(s, now, weather);
    assert Lookup(s.db.grants, id) == Some(s.db.grants[id]);

    if HasToken(s, id, now) {
      var hash :| hash in s.db.tokens && s.db.tokens[hash].grant == id && now <= s.db.tokens[hash].expiresAt
                  && (s.db.tokens[hash].kind == TokenKind.Refresh || !s.db.tokens[hash].revoked);
      assert Lookup(s.db.tokens, hash) == Some(s.db.tokens[hash]);
      assert Lookup(after.db.tokens, hash) == Some(s.db.tokens[hash]);
      assert hash in after.db.tokens;
    } else if forall i: nat :: Up(weather, i) {
      assert Up(weather, 2) && Up(weather, 3);
      forall hash | hash in after.db.tokens ensures after.db.tokens[hash].grant != id {
        assert Lookup(after.db.tokens, hash) == Some(after.db.tokens[hash]);
        assert Lookup(s.db.tokens, hash) == Some(after.db.tokens[hash]);
        assert hash in s.db.tokens && s.db.tokens[hash] == after.db.tokens[hash];
      }

      if id in after.db.grants {
        assert Lookup(after.db.grants, id) == Some(after.db.grants[id]);
      }
    }
  }

  /** Grants are left alone, but for the time of their last use, by everything that isn't about them. */
  lemma {:induction false} OtherGrants(lib: Library, w: World, e: Event, id: string, row: Grant)
    requires Holds(w.s, id, row)
    requires Adds(e.op) || e.op.Authorize? || e.op.OpenStream? || e.op.DropStream? || e.op.Restart?
    ensures Holds(After(lib, w, e), id, row)
  {
    hide StoresPair;

    match e.op {
      case Begin(request, nonce, code) => BeginSummary(lib, w.s, request, nonce, code, e.now, e.weather);
      case ApproveWithCode(request, typed, cookie, minted) =>
        ApproveSummary(lib, w.s, request, typed, cookie, minted, e.now, e.weather);
        Journey.SameRows(w.s, After(lib, w, e), request, minted, e.now, Compares(w.s, request, e.now, e.weather));
      case ExchangeCode(code, verifier, resource, client, redirectUri, grant, pair) =>
        ExchangeSummary(lib, w.s, code, verifier, resource, client, redirectUri, grant, pair, e.now, e.weather);
      case CreateStaticToken(server, name, ttl, grant, token) =>
        StaticSummary(lib, w.s, server, name, ttl, grant, token, e.now, e.weather);
      case _ =>
    }
  }

  /** Which operations end a grant: exactly those meant to, when every statement completes; and
      whatever fails, no others. */
  lemma {:induction false} GrantEndsExactly(lib: Library, w: World, e: Event, id: string, row: Grant)
    requires Holds(w.s, id, row)
    ensures !EndsGrant(lib, w, e, id, row) ==> Holds(After(lib, w, e), id, row)
    ensures EndsGrant(lib, w, e, id, row) && Journey.Fair(e) ==> id !in After(lib, w, e).db.grants
  {
    hide Journey.Ends, AfterAdding, AfterOther, Holds, HasToken;

    if Adds(e.op) || e.op.Authorize? || e.op.OpenStream? || e.op.DropStream? || e.op.Restart? {
      OtherGrants(lib, w, e, id, row);
      NotMeant(lib, w, e, id, row);
    } else if e.op.Refresh? {
      RefreshGrant(lib, w, e, id, row);
    } else if e.op.Sweep? {
      SweptGrant(lib, w, e, id, row);
    } else {
      RevokeGrants(lib, w, e, id, row);
    }
  }

  lemma {:induction false} NotMeant(lib: Library, w: World, e: Event, id: string, row: Grant)
    requires Adds(e.op) || e.op.Authorize? || e.op.OpenStream? || e.op.DropStream? || e.op.Restart?
    ensures !EndsGrant(lib, w, e, id, row)
  {
  }

  lemma {:induction false} SweptGrant(lib: Library, w: World, e: Event, id: string, row: Grant)
    requires Holds(w.s, id, row) && e.op.Sweep?
    ensures !EndsGrant(lib, w, e, id, row) ==> Holds(AfterOther(lib, w, e), id, row)
    ensures EndsGrant(lib, w, e, id, row) && Journey.Fair(e) ==> id !in AfterOther(lib, w, e).db.grants
  {
    hide Access.Sweep, HasToken;
    SweepGrant(w.s, e.now, e.weather, id, row);
  }

  ghost predicate GrantLeft(lib: Library, w: World, events: seq<Event>, id: string, row: Grant)
    decreases |events|
  {
    events == [] ||
    (&& !EndsGrant(lib, w, events[0], id, row)
     && GrantLeft(lib, Step(lib, w, events[0]), events[1..], id, row))
  }

  /** A grant stays through any run in which nothing is meant to end it and no sweep finds it an hour
      old without a token. */
  lemma {:induction false} GrantLasts(lib: Library, w: World, events: seq<Event>, id: string, row: Grant)
    requires Holds(w.s, id, row) && GrantLeft(lib, w, events, id, row)
    ensures Holds(Run(lib, w, events).s, id, row)
    decreases |events|
  {
    hide EndsGrant, Holds, After, Record, PlansAfter;

    if events != [] {
      GrantEndsExactly(lib, w, events[0], id, row);
      GrantLasts(lib, Step(lib, w, events[0]), events[1..], id, row);
    }
  }

  // ----- at most twenty requests

  ghost predicate Capped(s: State, clock: int) {
    forall now :: now >= clock ==> |Unexpired(s, now)| <= MAX_PENDING_REQUESTS
  }

  /** The requests that are still waiting at this time. */
  function Unexpired(s: State, now: int): set<string> {
    set id | id in s.db.pending && now < s.db.pending[id].expiresAt
  }

  /** `begin` works exactly while fewer than twenty requests are waiting. */
  lemma {:induction false} BeginExactly(lib: Library, s: State, request: NewRequest, nonce: string, code: string,
                                        now: int)
    ensures Access.Begin(lib, s, request, nonce, code, now, []).1 == Done(nonce) <==>
            |Unexpired(s, now)| < MAX_PENDING_REQUESTS && request.id !in s.db.pending
  {
    assert ActiveRequests(s.db.pending, now) == Unexpired(s, now);
  }

  /** No request appears, and none lives longer. */
  lemma {:induction false} FewerCapped(s: State, after: State, clock: int, now: int)
    requires Capped(s, clock) && clock <= now
    requires forall id :: id in after.db.pending ==>
               id in s.db.pending && after.db.pending[id].expiresAt == s.db.pending[id].expiresAt
    ensures Capped(after, now)
  {
    forall later | later >= now ensures |Unexpired(after, later)| <= MAX_PENDING_REQUESTS {
      assert Unexpired(after, later) <= Unexpired(s, later);
      Smaller(Unexpired(after, later), Unexpired(s, later));
    }
  }

  lemma {:induction false} Smaller<T>(some: set<T>, all: set<T>)
    requires some <= all
    ensures |some| <= |all|
  {
    assert all == some + (all - some);
  }

  lemma {:induction false} BeginCapped(lib: Library, s: State, request: NewRequest, nonce: string, code: string,
                                       clock: int, now: int, weather: seq<bool>)
    requires Capped(s, clock) && clock <= now
    ensures Capped(Access.Begin(lib, s, request, nonce, code, now, weather).0, now)
  {
    var after := Access.Begin(lib, s, request, nonce, code, now, weather).0;
    assert ActiveRequests(s.db.pending, now) == Unexpired(s, now);

    if after == s {
      FewerCapped(s, after, clock, now);
    } else {
      forall later | later >= now ensures |Unexpired(after, later)| <= MAX_PENDING_REQUESTS {
        assert Unexpired(after, later) <= Unexpired(s, now) + {request.id};
        Smaller(Unexpired(after, later), Unexpired(s, now) + {request.id});
      }
    }
  }

  lemma {:induction false} StepCapped(lib: Library, w: World, e: Event)
    requires Capped(w.s, w.clock) && Enabled(lib, w, e)
    ensures Capped(After(lib, w, e), e.now)
  {
    hide Capped, Access.Begin, Access.ApproveWithCode, Access.ExchangeCode, Access.CreateStaticToken, AfterOther;
    var after := After(lib, w, e);

    match e.op {
      case Begin(request, nonce, code) =>
        BeginCapped(lib, w.s, request, nonce, code, w.clock, e.now, e.weather);
      case ApproveWithCode(id, typed, cookie, minted) =>
        ApproveSummary(lib, w.s, id, typed, cookie, minted, e.now, e.weather);
        ApproveFewer(w.s, id, minted, e.now, Compares(w.s, id, e.now, e.weather), after);
        FewerCapped(w.s, after, w.clock, e.now);
      case ExchangeCode(_, _, _, _, _, _, _) =>
        SameRequests(lib, w, e);
        FewerCapped(w.s, after, w.clock, e.now);
      case CreateStaticToken(_, _, _, _, _) =>
        SameRequests(lib, w, e);
        FewerCapped(w.s, after, w.clock, e.now);
      case _ =>
        Flow.OthersShrink(lib, w, e);
        FewerCapped(w.s, after, w.clock, e.now);
    }
  }

  lemma {:induction false} ApproveFewer(s: State, id: string, minted: string, now: int, compares: bool, after: State)
    requires ApproveEffect(s, id, minted, now, compares, after)
    ensures forall other :: other in after.db.pending ==>
              other in s.db.pending && after.db.pending[other].expiresAt == s.db.pending[other].expiresAt
  {
  }

  lemma {:induction false} RunCapped(lib: Library, w: World, events: seq<Event>)
    requires Capped(w.s, w.clock) && AllEnabled(lib, w, events)
    ensures Capped(Run(lib, w, events).s, Run(lib, w, events).clock)
    decreases |events|
  {
    hide Capped, After, Record, PlansAfter;

    if events != [] {
      StepCapped(lib, w, events[0]);
      RunCapped(lib, Step(lib, w, events[0]), events[1..]);
    }
  }

  /** In every run at most twenty requests are waiting at any time. */
  lemma {:induction false} NeverMoreThanTwenty(lib: Library, w: World, now: int)
    requires Guarantees.Reachable(lib, w) && now >= w.clock
    ensures |set id | id in w.s.db.pending && now < w.s.db.pending[id].expiresAt| <= 20
  {
    hide Run, AllEnabled;
    var start: int, events: seq<Event> :| AllEnabled(lib, Start(start), events) && w == Run(lib, Start(start), events);
    NothingWaits(start);
    RunCapped(lib, Start(start), events);
    assert Unexpired(w.s, now) == set id | id in w.s.db.pending && now < w.s.db.pending[id].expiresAt;
  }

  lemma {:induction false} NothingWaits(now: int)
    ensures Capped(Start(now).s, Start(now).clock)
  {
    assert forall later :: Unexpired(Start(now).s, later) == {};
  }

  // ----- what the waiting page is told

  ghost predicate ApprovedSound(s: State, past: History) {
    forall id :: id in s.approved ==> exists code :: code in past.minted && past.minted[code] == id
  }

  /** The operation may make the daemon forget this approval. */
  predicate EndsApproval(e: Event, at: int) {
    e.op.Restart? || (e.op.ApproveWithCode? && at + PENDING_TTL < e.now)
  }

  lemma {:induction false} ApproveApproved(s: State, other: string, code: string, now: int, compares: bool,
                                           after: State, id: string, at: int)
    requires ApproveEffect(s, other, code, now, compares, after)
    requires Lookup(s.approved, id) == Some(at) && id !in s.db.pending && now <= at + PENDING_TTL
    ensures Lookup(after.approved, id) == Some(at)
  {
  }

  lemma {:induction false} SameApproved(lib: Library, w: World, e: Event)
    requires !e.op.ApproveWithCode? && !e.op.Restart?
    ensures After(lib, w, e).approved == w.s.approved
  {
    hide StoresPair;

    match e.op {
      case Begin(request, nonce, code) => BeginSummary(lib, w.s, request, nonce, code, e.now, e.weather);
      case ExchangeCode(code, verifier, resource, client, redirectUri, grant, pair) =>
        ExchangeSummary(lib, w.s, code, verifier, resource, client, redirectUri, grant, pair, e.now, e.weather);
      case CreateStaticToken(server, name, ttl, grant, token) =>
        StaticSummary(lib, w.s, server, name, ttl, grant, token, e.now, e.weather);
      case Refresh(token, pair) => RefreshSummary(lib, w.s, token, pair, e.now, e.weather);
      case _ =>
    }
  }

  lemma {:induction false} StepApproved(lib: Library, w: World, e: Event, id: string, at: int)
    requires Flow.Sound(lib, w.s, w.past) && ApprovedSound(w.s, w.past)
    requires Lookup(w.s.approved, id) == Some(at) && !EndsApproval(e, at)
    ensures Lookup(After(lib, w, e).approved, id) == Some(at)
  {
    hide AfterAdding, AfterOther, Flow.GrantsSound, Flow.CodesSound;

    if e.op.ApproveWithCode? {
      assert id !in w.s.db.pending by {
        var code :| code in w.past.minted && w.past.minted[code] == id;
      }
      ApprovesLater(lib, w, e, id, at);
    } else {
      SameApproved(lib, w, e);
    }
  }

  lemma {:induction false} ApprovesLater(lib: Library, w: World, e: Event, id: string, at: int)
    requires e.op.ApproveWithCode? && e.now <= at + PENDING_TTL
    requires Lookup(w.s.approved, id) == Some(at) && id !in w.s.db.pending
    ensures Lookup(AfterAdding(lib, w.s, e).approved, id) == Some(at)
  {
    hide Access.ApproveWithCode;
    ApproveSummary(lib, w.s, e.op.id, e.op.typed, e.op.cookie, e.op.minted, e.now, e.weather);
    ApproveApproved(w.s, e.op.id, e.op.minted, e.now, Compares(w.s, e.op.id, e.now, e.weather),
                    AfterAdding(lib, w.s, e), id, at);
  }

  lemma {:induction false} ApproveSound(s: State, past: History, id: string, minted: string, now: int, compares: bool,
                                        after: State)
    requires ApproveEffect(s, id, minted, now, compares, after) && minted !in s.codes && minted !in past.minted
    requires ApprovedSound(s, past)
    ensures ApprovedSound(after, RecordApprove(past, id, minted, compares, after))
  {
    var next := RecordApprove(past, id, minted, compares, after);
    forall other | other in after.approved ensures exists code :: code in next.minted && next.minted[code] == other {
      if other in s.approved && (other != id || minted !in after.codes) {
        var code :| code in past.minted && past.minted[code] == other;
        assert code in next.minted && next.minted[code] == other;
      } else {
        assert minted in next.minted && next.minted[minted] == other;
      }
    }
  }

  lemma {:induction false} StepApprovedSound(lib: Library, w: World, e: Event)
    requires Flow.Sound(lib, w.s, w.past) && Enabled(lib, w, e) && ApprovedSound(w.s, w.past)
    ensures var next := Step(lib, w, e); ApprovedSound(next.s, next.past)
  {
    hide Access.Begin, Access.ApproveWithCode, Access.ExchangeCode, Access.CreateStaticToken, AfterOther,
         Flow.GrantsSound, ApprovedSound, RecordRefresh, RecordExchange, RecordStatic, RecordBegin;

    if e.op.ApproveWithCode? {
      ApproveSummary(lib, w.s, e.op.id, e.op.typed, e.op.cookie, e.op.minted, e.now, e.weather);
      ApproveSound(w.s, w.past, e.op.id, e.op.minted, e.now, Compares(w.s, e.op.id, e.now, e.weather),
                   After(lib, w, e));
    } else if e.op.Restart? {
      NobodyApproved(lib, w, e);
    } else {
      SameApproved(lib, w, e);
      SameMinted(lib, w, e);
      SameSound(w.s, w.past, After(lib, w, e), Step(lib, w, e).past);
    }
  }

  lemma {:induction false} SameMinted(lib: Library, w: World, e: Event)
    requires !e.op.ApproveWithCode?
    ensures Record(lib, w, e, After(lib, w, e)).minted == w.past.minted
  {
    hide After, RecordBegin, RecordExchange, RecordRefresh, RecordStatic;
    var after := After(lib, w, e);

    match e.op {
      case Begin(request, _, _) => BeginMinted(w.past, w.s, request, BirthOn(w, request.server), after);
      case ExchangeCode(code, verifier, _, client, redirectUri, grant, pair) =>
        ExchangeMinted(lib, w.past, code, verifier, client, redirectUri, grant, pair, after);
      case Refresh(token, pair) => RefreshMinted(lib, w.past, w.s, token, pair, after);
      case CreateStaticToken(server, _, _, grant, token) =>
        StaticMinted(lib, w.past, w.s, grant, token, BirthOn(w, server), after);
      case _ =>
    }
  }

  lemma {:induction false} BeginMinted(past: History, s: State, request: NewRequest, birth: Birth, after: State)
    ensures RecordBegin(past, s, request, birth, after).minted == past.minted
  {
  }

  lemma {:induction false} ExchangeMinted(lib: Library, past: History, code: string, verifier: string, client: string,
                                          redirectUri: string, grant: string, pair: TokenPair, after: State)
    ensures RecordExchange(lib, past, code, verifier, client, redirectUri, grant, pair, after).minted == past.minted
  {
  }

  lemma {:induction false} RefreshMinted(lib: Library, past: History, s: State, token: string, pair: TokenPair,
                                         after: State)
    ensures RecordRefresh(lib, past, s, token, pair, after).minted == past.minted
  {
  }

  lemma {:induction false} StaticMinted(lib: Library, past: History, s: State, grant: string, token: string,
                                        birth: Birth, after: State)
    ensures RecordStatic(lib, past, s, grant, token, birth, after).minted == past.minted
  {
  }

  lemma {:induction false} NobodyApproved(lib: Library, w: World, e: Event)
    requires e.op.Restart?
    ensures ApprovedSound(After(lib, w, e), Step(lib, w, e).past)
  {
  }

  lemma {:induction false} SameSound(s: State, past: History, after: State, next: History)
    requires ApprovedSound(s, past) && after.approved == s.approved && next.minted == past.minted
    ensures ApprovedSound(after, next)
  {
  }

  ghost predicate ApprovalLeft(events: seq<Event>, at: int) {
    forall i :: 0 <= i < |events| ==> !EndsApproval(events[i], at)
  }

  lemma {:induction false} ApprovalStays(lib: Library, w: World, events: seq<Event>, id: string, at: int)
    requires Flow.Sound(lib, w.s, w.past) && ApprovedSound(w.s, w.past) && AllEnabled(lib, w, events)
    requires Lookup(w.s.approved, id) == Some(at) && ApprovalLeft(events, at)
    ensures Lookup(Run(lib, w, events).s.approved, id) == Some(at)
    decreases |events|
  {
    hide EndsApproval, After, Record, PlansAfter, Enabled, Flow.Sound, ApprovedSound;

    if events != [] {
      Flow.StepSound(lib, w, events[0]);
      StepApproved(lib, w, events[0], id, at);
      StepApprovedSound(lib, w, events[0]);
      ApprovalStays(lib, Step(lib, w, events[0]), events[1..], id, at);
    }
  }

  lemma {:induction false} RunApproved(lib: Library, w: World, events: seq<Event>)
    requires Flow.Sound(lib, w.s, w.past) && ApprovedSound(w.s, w.past) && AllEnabled(lib, w, events)
    ensures var end := Run(lib, w, events);
            Flow.Sound(lib, end.s, end.past) && ApprovedSound(end.s, end.past)
    decreases |events|
  {
    hide After, Record, PlansAfter, Enabled, Flow.Sound, ApprovedSound;

    if events != [] {
      Flow.StepSound(lib, w, events[0]);
      StepApprovedSound(lib, w, events[0]);
      RunApproved(lib, Step(lib, w, events[0]), events[1..]);
    }
  }

  /** In every run the page of a request is told of an approval only when a code was minted for the
      request; and once told, it is told again until the daemon restarts, at least as long as the
      request would have waited. */
  lemma {:induction false} ApprovalLasts(lib: Library, w: World, events: seq<Event>, id: string)
    requires Guarantees.Reachable(lib, w) && AllEnabled(lib, w, events) && id in w.s.approved
    requires ApprovalLeft(events, w.s.approved[id])
    ensures exists code :: code in w.past.minted && w.past.minted[code] == id
    ensures id in Run(lib, w, events).s.approved
  {
    hide Run, AllEnabled, Start, ApprovalLeft, Flow.Sound;
    var start: int, before: seq<Event> :| AllEnabled(lib, Start(start), before) && w == Run(lib, Start(start), before);
    NoneApproved(lib, start);
    RunApproved(lib, Start(start), before);
    ApprovalStays(lib, w, events, id, w.s.approved[id]);
  }

  lemma {:induction false} NoneApproved(lib: Library, now: int)
    ensures Flow.Sound(lib, Start(now).s, Start(now).past) && ApprovedSound(Start(now).s, Start(now).past)
  {
  }
}
