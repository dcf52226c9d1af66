/** A grant is only ever good for the members its link had when it was asked for. */
module Membership {
  import opened Prelude
  import opened Store
  import opened Access
  import opened Effects
  import opened Links
  import opened Apps
  import opened Reload
  import opened Runs
  import Flow

  /** Signed with the plan that was in force, if one was. */
  predicate BirthSound(birth: Birth) {
    birth.plan.Some? ==> birth.signed == Some(Signature(birth.plan.value))
  }

  ghost predicate BirthsSound(past: History) {
    && (forall id :: id in past.requests ==> BirthSound(past.requests[id].birth))
    && forall g :: g in past.births ==> BirthSound(past.births[g])
  }

  /** The signature remembered for a link is still the one each request, code and grant began under. */
  ghost predicate Current(s: State, past: History) {
    && (forall id :: id in s.db.pending ==>
          id in past.requests && past.requests[id].birth.signed == Lookup(s.db.signatures, s.db.pending[id].server))
    && (forall c :: c in s.codes ==>
          && c in past.minted && past.minted[c] in past.requests
          && past.requests[past.minted[c]].birth.signed == Lookup(s.db.signatures, s.codes[c].server))
    && forall g :: g in s.db.grants ==>
         g in past.births && past.births[g].signed == Lookup(s.db.signatures, s.db.grants[g].server)
  }

  /** Every plan in force is the remembered one. */
  ghost predicate PlansCurrent(signatures: map<string, string>, plans: seq<LinkPlan>) {
    forall plan :: plan in plans ==> Lookup(signatures, plan.name) == Some(Signature(plan))
  }

  ghost predicate Sound(s: State, plans: seq<LinkPlan>, past: History) {
    BirthsSound(past) && Current(s, past) && PlansCurrent(s.db.signatures, plans)
  }

  lemma {:induction false} FindPlanIn(plans: seq<LinkPlan>, name: string)
    ensures FindPlan(plans, name).Some? ==> FindPlan(plans, name).value in plans
    ensures FindPlan(plans, name).Some? ==> FindPlan(plans, name).value.name == name
    ensures FindPlan(plans, name).None? ==> forall plan :: plan in plans ==> plan.name != name
  {
    if plans != [] && plans[0].name != name {
      FindPlanIn(plans[1..], name);
      assert plans == [plans[0]] + plans[1..];
    }
  }

  lemma {:induction false} BirthOnSound(w: World, server: string)
    requires Sound(w.s, w.plans, w.past)
    ensures BirthSound(BirthOn(w, server))
  {
    FindPlanIn(w.plans, server);
  }

  // ----- operations that keep the remembered signatures

  lemma {:induction false} ShrinkKeeps(s: State, plans: seq<LinkPlan>, past: History, after: State, next: History)
    requires Sound(s, plans, past) && Flow.Shrinks(s, after) && after.db.signatures == s.db.signatures
    requires next.requests == past.requests && next.minted == past.minted && next.births == past.births
    ensures Sound(after, plans, next)
  {
  }

  lemma {:induction false} BeginKeeps(lib: Library, s: State, plans: seq<LinkPlan>, past: History,
                                      request: NewRequest, nonce: string, code: string, now: int, birth: Birth,
                                      after: State)
    requires Sound(s, plans, past) && request.id !in past.requests && BirthSound(birth)
    requires birth.signed == Lookup(s.db.signatures, request.server)
    requires BeginEffect(lib, s, request, nonce, code, now, after)
    ensures Sound(after, plans, RecordBegin(past, s, request, birth, after))
  {
  }

  lemma {:induction false} MintKeeps(s: State, plans: seq<LinkPlan>, past: History, id: string, request: Pending,
                                     minted: string, now: int, next: History)
    requires Sound(s, plans, past) && minted !in past.minted && id in past.requests
    requires past.requests[id].birth.signed == Lookup(s.db.signatures, request.server)
    requires next.requests == past.requests && next.minted == past.minted[minted := id] && next.births == past.births
    ensures Sound(Mint(s, id, request, minted, now), plans, next)
  {
  }

  lemma {:induction false} ApproveKeeps(s: State, plans: seq<LinkPlan>, past: History, id: string, minted: string,
                                        now: int, compares: bool, after: State)
    requires Sound(s, plans, past) && minted !in past.minted
    requires ApproveEffect(s, id, minted, now, compares, after)
    ensures Sound(after, plans, RecordApprove(past, id, minted, compares, after))
  {
    var next := RecordApprove(past, id, minted, compares, after);
    assert minted !in s.codes;

    if minted in after.codes {
      var counted := RecordAttempt(s, id);
      CountedKeeps(s, plans, past, id);
      MintKeeps(counted, plans, past, id, counted.db.pending[id], minted, now, next);
    } else {
      CountedKeeps(s, plans, past, id);
      UnmintedKeeps(s, plans, past, id, after, next);
    }
  }

  lemma {:induction false} CountedKeeps(s: State, plans: seq<LinkPlan>, past: History, id: string)
    requires Sound(s, plans, past)
    ensures Sound(RecordAttempt(s, id), plans, past)
  {
  }

  lemma {:induction false} UnmintedKeeps(s: State, plans: seq<LinkPlan>, past: History, id: string, after: State,
                                         next: History)
    requires Sound(s, plans, past) && Sound(RecordAttempt(s, id), plans, past)
    requires after in {s, RecordAttempt(s, id), RemoveRequest(s, id), RemoveRequest(RecordAttempt(s, id), id)}
    requires next.requests == past.requests && next.minted == past.minted && next.births == past.births
    ensures Sound(after, plans, next)
  {
  }

  lemma {:induction false} SameRecord(lib: Library, s: State, past: History, code: string, verifier: string,
                                      client: string, redirectUri: string, grant: string, pair: TokenPair,
                                      after: State)
    requires after == s || after == s.(codes := s.codes - {code})
    requires grant !in s.db.grants
    ensures RecordExchange(lib, past, code, verifier, client, redirectUri, grant, pair, after) == past
  {
  }

  /** A code becomes a grant that was born with the code's request. */
  lemma {:induction false} GrantBorn(s: State, plans: seq<LinkPlan>, past: History, code: string, grant: string,
                                     row: Grant, after: State, next: History)
    requires Sound(s, plans, past) && grant !in past.births && code in s.codes && row.server == s.codes[code].server
    requires after.codes == s.codes - {code} && after.db.grants == s.db.grants[grant := row]
    requires after.db.pending == s.db.pending && after.db.signatures == s.db.signatures
    requires next.requests == past.requests && next.minted == past.minted
    requires code in past.minted && past.minted[code] in past.requests
    requires next.births == past.births[grant := past.requests[past.minted[code]].birth]
    ensures Sound(after, plans, next)
  {
  }

  lemma {:induction false} ExchangeKeeps(lib: Library, s: State, plans: seq<LinkPlan>, past: History, code: string,
                                         verifier: string, client: string, redirectUri: string, grant: string,
                                         pair: TokenPair, now: int, after: State)
    requires Sound(s, plans, past) && grant !in past.births
    requires ExchangeEffect(lib, s, code, verifier, client, redirectUri, grant, pair, now, after)
    ensures Sound(after, plans, RecordExchange(lib, past, code, verifier, client, redirectUri, grant, pair, after))
  {
    hide StoresPair, RecordExchange, PlansCurrent, BirthsSound;

    if GrantMade(lib, s, code, verifier, client, redirectUri, grant, pair, now, after) {
      Flow.ExchangeRecord(lib, s, past, code, verifier, client, redirectUri, grant, pair, now, after);
      var next := RecordExchange(lib, past, code, verifier, client, redirectUri, grant, pair, after);
      GrantBorn(s, plans, past, code, grant, after.db.grants[grant], after, next);
    } else {
      SameRecord(lib, s, past, code, verifier, client, redirectUri, grant, pair, after);
      ShrinkKeeps(s, plans, past, after, past);
    }
  }

  lemma {:induction false} StaticKeeps(lib: Library, s: State, plans: seq<LinkPlan>, past: History, server: string,
                                       name: string, ttl: int, grant: string, token: string, now: int, birth: Birth,
                                       after: State)
    requires Sound(s, plans, past) && grant !in past.births && BirthSound(birth)
    requires birth.signed == Lookup(s.db.signatures, server)
    requires StaticEffect(lib, s, server, name, ttl, grant, token, now, after)
    ensures Sound(after, plans, RecordStatic(lib, past, s, grant, token, birth, after))
  {
  }

  // ----- applying a configuration

  /** A link that `apply` does not revoke is remembered with the signature it had. */
  lemma {:induction false} KeptSignature(db: Tables, links: set<string>, compiled: map<string, string>, server: string)
    requires compiled.Keys <= links && server !in ToRevoke(db, links, compiled)
    ensures Lookup(Remembered(links, compiled, db.signatures), server) == Lookup(db.signatures, server)
  {
  }

  lemma {:induction false} ApplySucceeds(s: State, past: History, loaded: Loaded, servers: set<string>,
                                         weathers: map<string, seq<bool>>, after: State)
    requires WellFormed(loaded) && BirthsSound(past) && Current(s, past)
    requires var compiled := SignaturesOf(Plans(loaded));
             && servers == ToRevoke(s.db, LoadedLinks(loaded), compiled)
             && after.db.signatures == Remembered(LoadedLinks(loaded), compiled, s.db.signatures)
    requires forall server :: server in servers ==> Completed(Weather(weathers, server)) == 5
    requires var revoked := RevokeServers(s, Progress(servers, weathers));
             after == revoked.(db := revoked.db.(signatures := after.db.signatures))
    ensures Sound(after, Plans(loaded), past)
  {
    var links := LoadedLinks(loaded);
    var compiled := SignaturesOf(Plans(loaded));
    var revoked := RevokeServers(s, Progress(servers, weathers));
    PlansSound(loaded);
    SignaturesOfUnique(Plans(loaded));
    RevokedGone(s, servers, weathers);
    Flow.ServersShrink(s, Progress(servers, weathers));
    forall server | server !in servers
      ensures Lookup(after.db.signatures, server) == Lookup(s.db.signatures, server)
    {
      KeptSignature(s.db, links, compiled, server);
    }
    CurrentKept(s, past, revoked, servers, after);
  }

  lemma {:induction false} RevokedGone(s: State, servers: set<string>, weathers: map<string, seq<bool>>)
    requires forall server :: server in servers ==> Completed(Weather(weathers, server)) == 5
    ensures Gone(RevokeServers(s, Progress(servers, weathers)), servers)
  {
  }

  ghost predicate Gone(s: State, servers: set<string>) {
    && (forall id :: id in s.db.pending ==> s.db.pending[id].server !in servers)
    && (forall c :: c in s.codes ==> s.codes[c].server !in servers)
    && forall g :: g in s.db.grants ==> s.db.grants[g].server !in servers
  }

  lemma {:induction false} CurrentKept(s: State, past: History, revoked: State, servers: set<string>, after: State)
    requires Current(s, past) && Flow.Shrinks(s, revoked) && Gone(revoked, servers)
    requires after == revoked.(db := revoked.db.(signatures := after.db.signatures))
    requires forall server :: server !in servers ==>
               Lookup(after.db.signatures, server) == Lookup(s.db.signatures, server)
    ensures Current(after, past)
  {
  }

  lemma {:induction false} ApplyKeeps(s: State, plans: seq<LinkPlan>, past: History, loaded: Option<Loaded>,
                                      weather: seq<bool>, weathers: map<string, seq<bool>>)
    requires Sound(s, plans, past) && (loaded.Some? ==> WellFormed(loaded.value))
    ensures var (after, next, _) := Applied(s, plans, loaded, weather, weathers); Sound(after, next, past)
  {
    var (after, next, ok) := Applied(s, plans, loaded, weather, weathers);

    if ok {
      var servers := ToRevoke(s.db, LoadedLinks(loaded.value), SignaturesOf(Plans(loaded.value)));
      forall server | server in servers ensures Completed(Weather(weathers, server)) == 5 {
        assert RevokesCleanly(s.db.grants, server, Weather(weathers, server));
      }
      ApplySucceeds(s, past, loaded.value, servers, weathers, after);
    } else {
      Flow.AppliedShrinks(s, plans, loaded, weather, weathers);
      ShrinkKeeps(s, plans, past, after, past);
    }
  }

  lemma {:induction false} ApplyStep(lib: Library, w: World, e: Event)
    requires Sound(w.s, w.plans, w.past) && Enabled(lib, w, e) && e.op.Apply?
    ensures var next := Step(lib, w, e); Sound(next.s, next.plans, next.past)
  {
    hide Sound, Applied;
    ApplyKeeps(w.s, w.plans, w.past, e.op.loaded, e.weather, e.op.weathers);
  }

  lemma {:induction false} OtherStep(lib: Library, w: World, e: Event)
    requires Sound(w.s, w.plans, w.past) && !Adds(e.op) && !e.op.Apply?
    ensures var next := Step(lib, w, e); Sound(next.s, next.plans, next.past)
  {
    hide AfterOther, Flow.Shrinks, BirthsSound, Current, RecordRefresh;
    var after := AfterOther(lib, w, e);
    Flow.OthersShrink(lib, w, e);
    Flow.OthersRecord(lib, w, e);
    ShrinkKeeps(w.s, w.plans, w.past, after, Record(lib, w, e, after));
  }

  /** Every operation keeps the invariant. */
  lemma {:induction false} StepKeeps(lib: Library, w: World, e: Event)
    requires Sound(w.s, w.plans, w.past) && Enabled(lib, w, e)
    ensures var next := Step(lib, w, e); Sound(next.s, next.plans, next.past)
  {
    hide Access.Begin, Access.ApproveWithCode, Access.ExchangeCode, Access.CreateStaticToken, AfterOther, Sound,
         BeginEffect, ApproveEffect, ExchangeEffect, StaticEffect, Flow.Shrinks, RecordBegin, RecordApprove,
         RecordExchange, RecordStatic;
    var after := After(lib, w, e);

    match e.op {
      case Begin(request, nonce, code) =>
        BeginSummary(lib, w.s, request, nonce, code, e.now, e.weather);
        BirthOnSound(w, request.server);
        BeginKeeps(lib, w.s, w.plans, w.past, request, nonce, code, e.now, BirthOn(w, request.server), after);
      case ApproveWithCode(id, typed, cookie, minted) =>
        ApproveSummary(lib, w.s, id, typed, cookie, minted, e.now, e.weather);
        ApproveKeeps(w.s, w.plans, w.past, id, minted, e.now, Compares(w.s, id, e.now, e.weather), after);
      case ExchangeCode(code, verifier, resource, client, redirectUri, grant, pair) =>
        ExchangeSummary(lib, w.s, code, verifier, resource, client, redirectUri, grant, pair, e.now, e.weather);
        ExchangeKeeps(lib, w.s, w.plans, w.past, code, verifier, client, redirectUri, grant, pair, e.now, after);
      case CreateStaticToken(server, name, ttl, grant, token) =>
        StaticSummary(lib, w.s, server, name, ttl, grant, token, e.now, e.weather);
        BirthOnSound(w, server);
        StaticKeeps(lib, w.s, w.plans, w.past, server, name, ttl, grant, token, e.now, BirthOn(w, server), after);
      case Apply(loaded, weathers) => ApplyStep(lib, w, e);
      case _ => OtherStep(lib, w, e);
    }
  }
}
