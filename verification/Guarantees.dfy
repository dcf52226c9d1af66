/** What holds at every point of every run. */
module Guarantees {
  import opened Prelude
  import opened Store
  import opened Access
  import opened Effects
  import opened Links
  import opened Runs
  import Flow
  import Tokens
  import Membership

  ghost predicate Good(lib: Library, w: World) {
    && Flow.Sound(lib, w.s, w.past)
    && Tokens.Sound(w.s, w.past, w.clock)
    && Membership.Sound(w.s, w.plans, w.past)
  }

  lemma {:induction false} StepGood(lib: Library, w: World, e: Event)
    requires Good(lib, w) && Enabled(lib, w, e)
    ensures Good(lib, Step(lib, w, e))
  {
    Flow.StepSound(lib, w, e);
    Tokens.StepKeeps(lib, w, e);
    Membership.StepKeeps(lib, w, e);
  }

  lemma {:induction false} RunGood(lib: Library, w: World, events: seq<Event>)
    requires Good(lib, w) && AllEnabled(lib, w, events)
    ensures Good(lib, Run(lib, w, events))
    decreases |events|
  {
    if events != [] {
      StepGood(lib, w, events[0]);
      RunGood(lib, Step(lib, w, events[0]), events[1..]);
    }
  }

  /** A world some run leads to. */
  ghost predicate Reachable(lib: Library, w: World) {
    exists now: int, events: seq<Event> :: AllEnabled(lib, Start(now), events) && w == Run(lib, Start(now), events)
  }

  lemma {:induction false} StartGood(lib: Library, now: int)
    ensures Good(lib, Start(now))
  {
  }

  lemma {:induction false} ReachableGood(lib: Library, w: World)
    requires Reachable(lib, w)
    ensures Good(lib, w)
  {
    hide Good, Run, AllEnabled, Start;
    var now: int, events: seq<Event> :| AllEnabled(lib, Start(now), events) && w == Run(lib, Start(now), events);
    StartGood(lib, now);
    RunGood(lib, Start(now), events);
  }

  /** A bearer accepted on a link is used for the members that link had when the grant's
      request was begun, or when its static token was created. */
  lemma {:induction false} AcceptedForItsMembers(lib: Library, w: World, bearer: string, link: string, now: int,
                                                 weather: seq<bool>, grant: string, plan: LinkPlan)
    requires Reachable(lib, w)
    requires Access.Authorize(lib, w.s, bearer, link, now, weather).1 == Done(Some(grant))
    requires FindPlan(w.plans, link) == Some(plan)
    ensures grant in w.past.births
    ensures w.past.births[grant].signed == Some(Signature(plan))
    ensures w.past.births[grant].plan.Some? ==> Members(w.past.births[grant].plan.value) == Members(plan)
    ensures grant in w.past.exchanged || grant in w.past.statics
    ensures grant in w.past.exchanged ==>
              Flow.MadeFrom(lib, w.s, w.past, grant) &&
              w.past.births[grant] == w.past.requests[w.past.minted[w.past.exchanged[grant].code]].birth
  {
    ReachableGood(lib, w);
    AcceptedOnItsLink(lib, w, bearer, link, now, weather, grant);
    Membership.FindPlanIn(w.plans, link);
    var birth := w.past.births[grant];
    assert Membership.BirthSound(birth);

    if birth.plan.Some? {
      SameSignatureSameMembers(birth.plan.value, plan);
    }
  }

  /** `authorize` only returns grants on the link that was asked for. */
  lemma {:induction false} AcceptedOnItsLink(lib: Library, w: World, bearer: string, link: string, now: int,
                                             weather: seq<bool>, grant: string)
    requires Good(lib, w)
    requires Access.Authorize(lib, w.s, bearer, link, now, weather).1 == Done(Some(grant))
    ensures grant in w.s.db.grants && w.s.db.grants[grant].server == link
  {
    assert StillAllowed(lib, w.s, bearer, link, now, weather) == Done(Some(grant));
  }

  // ----- refresh tokens

  /** At any time at most one refresh token of a grant can still be used. */
  lemma {:induction false} OneLiveRefreshToken(lib: Library, w: World, h: string, k: string)
    requires Reachable(lib, w)
    requires h in w.s.db.tokens && w.s.db.tokens[h].kind.Refresh? && !w.s.db.tokens[h].revoked
    requires k in w.s.db.tokens && w.s.db.tokens[k].kind.Refresh? && !w.s.db.tokens[k].revoked
    requires w.s.db.tokens[h].grant == w.s.db.tokens[k].grant
    ensures h == k
  {
    ReachableGood(lib, w);
    var grant := w.s.db.tokens[h].grant;
    var chain := w.past.chains[grant];
    assert Tokens.ChainSound(w.s, chain, grant);
    var i :| 0 <= i < |chain| && chain[i] == h;
    var j :| 0 <= j < |chain| && chain[j] == k;
  }

  /** Presenting a used refresh token before it expires never yields tokens, and ends the
      grant and its streams when the database answers, whatever sweeps ran since. */
  lemma {:induction false} ReuseEndsGrant(lib: Library, w: World, token: string, pair: TokenPair, now: int,
                                          weather: seq<bool>)
    requires Reachable(lib, w) && now >= w.clock
    requires lib.sha256(token) in w.past.used && now <= w.past.used[lib.sha256(token)].expiresAt
    ensures var used := w.past.used[lib.sha256(token)];
            var (after, r) := RefreshToken(lib, w.s, token, pair, now, weather);
            && !r.Done?
            && (used.grant in w.s.db.grants && (forall i :: 0 <= i < 5 ==> Up(weather, i)) ==>
                  && used.grant !in after.db.grants
                  && used.grant !in after.streams
                  && (forall h :: h in after.db.tokens && after.db.tokens[h].grant == used.grant ==>
                        after.db.tokens[h].revoked)
                  && (used.grant in w.s.streams ==>
                        forall id :: id in w.s.streams[used.grant] ==> id in after.cancelled))
  {
    ReachableGood(lib, w);
    assert Tokens.UsedKept(w.s, w.past, w.clock);
  }

  // ----- requests, codes and grants

  /** One request mints at most one code, one code makes at most one grant, the grant carries
      the request's client and link and was exchanged with its redirect URI and challenge, and
      at most MAX_CODE_ATTEMPTS codes were ever compared for a request. */
  lemma {:induction false} OneGrantPerRequest(lib: Library, w: World)
    requires Reachable(lib, w)
    ensures forall c, d | c in w.past.minted && d in w.past.minted :: w.past.minted[c] == w.past.minted[d] ==> c == d
    ensures forall g, k | g in w.past.exchanged && k in w.past.exchanged ::
              w.past.exchanged[g].code == w.past.exchanged[k].code ==> g == k
    ensures forall g :: g in w.past.exchanged ==> Flow.MadeFrom(lib, w.s, w.past, g)
    ensures forall id :: id in w.past.compared ==> w.past.compared[id] <= MAX_CODE_ATTEMPTS
    ensures forall g :: g in w.s.db.grants ==> g in w.past.exchanged || g in w.past.statics
  {
    ReachableGood(lib, w);
  }

  /** The record misses nothing: an approval is recorded as a mint of that request's code, and
      an exchange that answers with tokens as a grant made from a recorded code. */
  lemma {:induction false} ExchangeRecorded(lib: Library, w: World, e: Event)
    requires Reachable(lib, w) && Enabled(lib, w, e) && e.op.ExchangeCode?
    requires Access.ExchangeCode(lib, w.s, e.op.code, e.op.verifier, e.op.resource, e.op.client, e.op.redirectUri,
                                 e.op.grant, e.op.pair, e.now, e.weather).1.Done?
    ensures var next := Step(lib, w, e);
            && e.op.grant in next.s.db.grants
            && Flow.MadeFrom(lib, next.s, next.past, e.op.grant)
            && next.past.exchanged[e.op.grant] == Exchange(e.op.code, e.op.verifier, e.op.client, e.op.redirectUri)
  {
    ReachableGood(lib, w);
    Flow.StepSound(lib, w, e);
    ExchangeDone(lib, w.s, e.op.code, e.op.verifier, e.op.resource, e.op.client, e.op.redirectUri, e.op.grant,
                 e.op.pair, e.now, e.weather);
    MadeRecorded(lib, w.s, w.past, e.op.code, e.op.verifier, e.op.client, e.op.redirectUri, e.op.grant, e.op.pair,
                 e.now, After(lib, w, e));
  }

  lemma {:induction false} MadeRecorded(
    lib: Library, s: State, past: History, code: string, verifier: string, client: string, redirectUri: string,
    grant: string, pair: TokenPair, now: int, after: State)
    requires Flow.CodesSound(s, past)
    requires GrantMade(lib, s, code, verifier, client, redirectUri, grant, pair, now, after)
    ensures Lookup(RecordExchange(lib, past, code, verifier, client, redirectUri, grant, pair, after).exchanged, grant)
            == Some(Exchange(code, verifier, client, redirectUri))
  {
  }

  /** An approval tells the browser the code that was minted for this request, and the redirect URI
      and state that the request was begun with. */
  lemma {:induction false} ApprovalRecorded(lib: Library, w: World, e: Event)
    requires Reachable(lib, w) && Enabled(lib, w, e) && e.op.ApproveWithCode?
    requires Access.ApproveWithCode(lib, w.s, e.op.id, e.op.typed, e.op.cookie, e.op.minted, e.now, e.weather).1.Done?
    ensures var next := Step(lib, w, e);
            var told := Access.ApproveWithCode(lib, w.s, e.op.id, e.op.typed, e.op.cookie, e.op.minted, e.now,
                                               e.weather).1.value;
            && told.code == e.op.minted && Lookup(next.past.minted, told.code) == Some(e.op.id)
            && told.code in next.s.codes
            && e.op.id in w.past.requests
            && Flow.SameCode(next.s.codes[told.code], w.past.requests[e.op.id])
            && next.s.codes[told.code].expiresAt == e.now + AUTHORIZATION_CODE_TTL
            && told.redirectUri == w.past.requests[e.op.id].redirectUri
            && told.state == w.past.requests[e.op.id].state
            && e.op.id !in next.s.db.pending && Lookup(next.s.approved, e.op.id) == Some(e.now)
            && e.op.id in w.past.compared && next.past.compared[e.op.id] == w.past.compared[e.op.id] + 1
  {
    ReachableGood(lib, w);
    ApproveDone(lib, w.s, e.op.id, e.op.typed, e.op.cookie, e.op.minted, e.now, e.weather);
  }

  // ----- after a link is revoked

  /** Nothing in the tables or in memory can lead to access on this link. */
  ghost predicate Quiet(s: State, server: string) {
    && (forall id :: id in s.db.pending ==> s.db.pending[id].server != server)
    && (forall c :: c in s.codes ==> s.codes[c].server != server)
    && forall g :: g in s.db.grants ==> s.db.grants[g].server != server
  }

  predicate AsksFor(op: Op, server: string) {
    || (op.Begin? && op.request.server == server)
    || (op.CreateStaticToken? && op.server == server)
  }

  lemma {:induction false} RevokedIsQuiet(s: State, server: string, weather: seq<bool>)
    requires Access.RevokeServer(s, server, weather).1.Done?
    ensures Quiet(Access.RevokeServer(s, server, weather).0, server)
  {
  }

  lemma {:induction false} QuietStep(lib: Library, w: World, e: Event, server: string)
    requires Quiet(w.s, server) && !AsksFor(e.op, server)
    ensures Quiet(After(lib, w, e), server)
  {
    var after := After(lib, w, e);

    match e.op {
      case Begin(request, nonce, code) => BeginSummary(lib, w.s, request, nonce, code, e.now, e.weather);
      case ApproveWithCode(id, typed, cookie, minted) =>
        ApproveSummary(lib, w.s, id, typed, cookie, minted, e.now, e.weather);
        QuietApprove(w.s, id, minted, e.now, Compares(w.s, id, e.now, e.weather), after, server);
      case ExchangeCode(code, verifier, resource, client, redirectUri, grant, pair) =>
        ExchangeSummary(lib, w.s, code, verifier, resource, client, redirectUri, grant, pair, e.now, e.weather);
        QuietExchange(lib, w.s, code, verifier, client, redirectUri, grant, pair, e.now, after, server);
      case CreateStaticToken(other, name, ttl, grant, token) =>
        StaticSummary(lib, w.s, other, name, ttl, grant, token, e.now, e.weather);
      case _ => Flow.OthersShrink(lib, w, e);
    }
  }

  lemma {:induction false} QuietApprove(s: State, id: string, minted: string, now: int, compares: bool,
                                        after: State, server: string)
    requires Quiet(s, server) && ApproveEffect(s, id, minted, now, compares, after)
    ensures Quiet(after, server)
  {
  }

  lemma {:induction false} QuietExchange(lib: Library, s: State, code: string, verifier: string, client: string,
                                         redirectUri: string, grant: string, pair: TokenPair, now: int,
                                         after: State, server: string)
    requires Quiet(s, server)
    requires ExchangeEffect(lib, s, code, verifier, client, redirectUri, grant, pair, now, after)
    ensures Quiet(after, server)
  {
  }

  lemma {:induction false} QuietRun(lib: Library, w: World, events: seq<Event>, server: string)
    requires Quiet(w.s, server) && forall i :: 0 <= i < |events| ==> !AsksFor(events[i].op, server)
    ensures Quiet(Run(lib, w, events).s, server)
    decreases |events|
  {
    if events != [] {
      QuietStep(lib, w, events[0], server);
      QuietRun(lib, Step(lib, w, events[0]), events[1..], server);
    }
  }

  lemma {:induction false} RevokeStepQuiet(lib: Library, w: World, e: Event)
    requires e.op.RevokeServer? && Access.RevokeServer(w.s, e.op.server, e.weather).1.Done?
    ensures Quiet(Step(lib, w, e).s, e.op.server)
  {
    RevokedIsQuiet(w.s, e.op.server, e.weather);
  }

  /** After `revoke_server` succeeds, no bearer is accepted on the link until access to it is
      asked for again, however the run goes on. */
  lemma {:induction false} RevokedStaysRevoked(lib: Library, w: World, e: Event, events: seq<Event>, bearer: string,
                                               now: int, weather: seq<bool>)
    requires Reachable(lib, w) && Enabled(lib, w, e) && e.op.RevokeServer?
    requires Access.RevokeServer(w.s, e.op.server, e.weather).1.Done?
    requires AllEnabled(lib, Step(lib, w, e), events)
    requires forall i :: 0 <= i < |events| ==> !AsksFor(events[i].op, e.op.server)
    ensures var end := Run(lib, Step(lib, w, e), events);
            forall grant :: StillAllowed(lib, end.s, bearer, e.op.server, now, weather) != Done(Some(grant))
  {
    var revoked := Step(lib, w, e);
    ReachableGood(lib, w);
    StepGood(lib, w, e);
    RevokeStepQuiet(lib, w, e);
    RunGood(lib, revoked, events);
    QuietRun(lib, revoked, events, e.op.server);
    NobodyAccepted(lib, Run(lib, revoked, events), e.op.server, bearer, now, weather);
  }

  lemma {:induction false} NobodyAccepted(lib: Library, w: World, server: string, bearer: string, now: int,
                                          weather: seq<bool>)
    requires Good(lib, w) && Quiet(w.s, server)
    ensures forall grant :: StillAllowed(lib, w.s, bearer, server, now, weather) != Done(Some(grant))
  {
  }
}
