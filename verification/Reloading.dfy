/** Reloading step by step. `Reload` applies a configuration in one step; here other operations
    run between its statements: between reading the tables, each `revoke_server`, remembering the
    signatures, and putting the new plans in force (src/serve.rs). */
module Reloading {
  import opened Prelude
  import opened Store
  import opened Access
  import opened Effects
  import opened Links
  import opened Apps
  import opened Names
  import opened Reload
  import opened Runs
  import Flow
  import Tokens
  import Membership
  import Guarantees
  import Journey

  function Remember(w: World, loaded: Loaded, before: map<string, string>): World {
    w.(s := w.s.(db := w.s.db.(signatures := Remembered(LoadedLinks(loaded), SignaturesOf(Plans(loaded)), before))))
  }

  function Sync(w: World, loaded: Loaded): World {
    w.(plans := Plans(loaded))
  }

  /** The tables were read in `w`; `first` runs until the signatures are remembered, the reload's
      own `revoke_server` calls among it, and `second` until the new plans are in force. */
  function Ended(lib: Library, w: World, loaded: Loaded, first: seq<Event>, second: seq<Event>): World {
    Sync(BeforeSync(lib, w, loaded, first, second), loaded)
  }

  /** The world just before the new plans are put in force. */
  function BeforeSync(lib: Library, w: World, loaded: Loaded, first: seq<Event>, second: seq<Event>): World {
    Run(lib, Remember(Run(lib, w, first), loaded, w.s.db.signatures), second)
  }

  ghost predicate Enabled(lib: Library, w: World, loaded: Loaded, first: seq<Event>, second: seq<Event>) {
    && AllEnabled(lib, w, first)
    && AllEnabled(lib, Remember(Run(lib, w, first), loaded, w.s.db.signatures), second)
  }

  /** Anything but another reload, which waits for its lock, or a restart. */
  predicate Between(events: seq<Event>) {
    forall i :: 0 <= i < |events| ==> !events[i].op.Apply? && !events[i].op.Restart?
  }

  // ----- without anything in between

  function Calls(order: seq<string>, now: int, weathers: map<string, seq<bool>>): seq<Event> {
    if order == [] then []
    else Calls(order[..|order| - 1], now, weathers) +
         [Event(RevokeServer(order[|order| - 1]), now, Weather(weathers, order[|order| - 1]))]
  }

  function Elements(order: seq<string>): set<string> {
    set server | server in order
  }

  lemma {:induction false} RunConcat(lib: Library, w: World, events: seq<Event>, more: seq<Event>)
    ensures Run(lib, w, events + more) == Run(lib, Run(lib, w, events), more)
    ensures AllEnabled(lib, w, events + more) <==>
              AllEnabled(lib, w, events) && AllEnabled(lib, Run(lib, w, events), more)
    decreases |events|
  {
    hide Step, Runs.Enabled;

    if events == [] {
      assert events + more == more;
    } else {
      assert (events + more)[1..] == events[1..] + more;
      RunConcat(lib, Step(lib, w, events[0]), events[1..], more);
    }
  }

  lemma {:induction false} RunOne(lib: Library, w: World, e: Event)
    ensures Run(lib, w, [e]) == Step(lib, w, e)
  {
    assert [e][1..] == [];
  }

  lemma {:induction false} CallStep(lib: Library, w: World, e: Event, server: string)
    requires e.op == RevokeServer(server)
    ensures Step(lib, w, e).s == RevokeServers(w.s, map[server := Completed(e.weather)])
            && Step(lib, w, e).plans == w.plans
  {
    hide RevokeServers, Completed;
  }

  lemma {:induction false} CallsRevoke(lib: Library, w: World, order: seq<string>, now: int,
                                       weathers: map<string, seq<bool>>)
    requires Distinct(order)
    ensures Run(lib, w, Calls(order, now, weathers)).s == RevokeServers(w.s, Progress(Elements(order), weathers))
    ensures Run(lib, w, Calls(order, now, weathers)).plans == w.plans
  {
    hide RevokeServers, Progress, Step, Completed, AllEnabled;

    if order == [] {
      NothingToCall(w.s, weathers);
    } else {
      var rest, server := order[..|order| - 1], order[|order| - 1];
      var e := Event(RevokeServer(server), now, Weather(weathers, server));
      CallsRevoke(lib, w, rest, now, weathers);
      RunConcat(lib, w, Calls(rest, now, weathers), [e]);
      RunOne(lib, Run(lib, w, Calls(rest, now, weathers)), e);
      CallStep(lib, Run(lib, w, Calls(rest, now, weathers)), e, server);
      RevokeNext(w.s, Elements(rest), server, weathers);
      assert order == rest + [server];
      assert Elements(order) == Elements(rest) + {server};
    }
  }

  lemma {:induction false} NothingToCall(s: State, weathers: map<string, seq<bool>>)
    ensures RevokeServers(s, Progress({}, weathers)) == s && Elements([]) == {}
  {
    RevokeServersNone(s);
    assert Progress({}, weathers) == map[];
  }

  /** With nothing in between, the steps of a reload that works are the one step `Applied`. */
  lemma {:induction false} ReloadAlone(lib: Library, w: World, loaded: Loaded, order: seq<string>, now: int,
                                       weathers: map<string, seq<bool>>)
    requires Distinct(order)
    requires Elements(order) == ToRevoke(w.s.db, LoadedLinks(loaded), SignaturesOf(Plans(loaded)))
    requires forall server :: server in order ==> RevokesCleanly(w.s.db.grants, server, Weather(weathers, server))
    ensures var end := Ended(lib, w, loaded, Calls(order, now, weathers), []);
            (end.s, end.plans, true) == Applied(w.s, w.plans, Some(loaded), [], weathers)
  {
    hide RevokeServers, Progress, Remembered, RevokesCleanly, SignaturesOf, Plans, LoadedLinks, ToRevoke;
    CallsRevoke(lib, w, order, now, weathers);
  }

  // ----- under which plan everything on a link was begun

  datatype Demand = SameAs(plan: LinkPlan) | Exactly(plan: LinkPlan) | OneOf(births: iset<Birth>)

  ghost predicate Meets(birth: Birth, demand: Demand) {
    match demand
    case OneOf(births) => birth in births
    case SameAs(plan) => birth.plan.Some? ==> SameMembership(birth.plan.value, plan)
    case Exactly(plan) => birth.plan == Some(plan)
  }

  /** Every request, code and grant on this link was begun under such a plan. */
  ghost predicate Born(s: State, past: History, link: string, demand: Demand) {
    && (forall id :: id in s.db.pending && s.db.pending[id].server == link ==>
          id in past.requests && Meets(past.requests[id].birth, demand))
    && (forall c :: c in s.codes && s.codes[c].server == link ==>
          && c in past.minted && past.minted[c] in past.requests
          && Meets(past.requests[past.minted[c]].birth, demand))
    && forall g :: g in s.db.grants && s.db.grants[g].server == link ==>
         g in past.births && Meets(past.births[g], demand)
  }

  lemma {:induction false} ShrinkBorn(s: State, past: History, link: string, demand: Demand, after: State,
                                      next: History)
    requires Born(s, past, link, demand) && Flow.Shrinks(s, after)
    requires next.requests == past.requests && next.minted == past.minted && next.births == past.births
    ensures Born(after, next, link, demand)
  {
  }

  lemma {:induction false} BeginBorn(lib: Library, s: State, past: History, link: string, demand: Demand,
                                     request: NewRequest, nonce: string, code: string, now: int, birth: Birth,
                                     after: State)
    requires Born(s, past, link, demand) && request.id !in past.requests
    requires request.server == link ==> Meets(birth, demand)
    requires forall c :: c in past.minted ==> past.minted[c] in past.requests
    requires BeginEffect(lib, s, request, nonce, code, now, after)
    ensures Born(after, RecordBegin(past, s, request, birth, after), link, demand)
  {
  }

  lemma {:induction false} ApproveBorn(s: State, past: History, link: string, demand: Demand, id: string,
                                       minted: string, now: int, compares: bool, after: State)
    requires Born(s, past, link, demand) && minted !in past.minted && minted !in s.codes
    requires ApproveEffect(s, id, minted, now, compares, after)
    requires id in s.db.pending ==> id in past.requests
    ensures Born(after, RecordApprove(past, id, minted, compares, after), link, demand)
  {
    var next := RecordApprove(past, id, minted, compares, after);

    if minted in after.codes {
      var counted := RecordAttempt(s, id);
      MintBorn(counted, past, link, demand, id, counted.db.pending[id], minted, now, next);
    } else {
      KeptBorn(s, past, link, demand, id, after, next);
    }
  }

  lemma {:induction false} MintBorn(s: State, past: History, link: string, demand: Demand, id: string,
                                    request: Pending, minted: string, now: int, next: History)
    requires Born(s, past, link, demand) && minted !in past.minted && id in past.requests
    requires id in s.db.pending && s.db.pending[id] == request
    requires next.requests == past.requests && next.minted == past.minted[minted := id] && next.births == past.births
    ensures Born(Mint(s, id, request, minted, now), next, link, demand)
  {
  }

  lemma {:induction false} KeptBorn(s: State, past: History, link: string, demand: Demand, id: string, after: State,
                                    next: History)
    requires Born(s, past, link, demand)
    requires after in {s, RecordAttempt(s, id), RemoveRequest(s, id), RemoveRequest(RecordAttempt(s, id), id)}
    requires next.requests == past.requests && next.minted == past.minted && next.births == past.births
    ensures Born(after, next, link, demand)
  {
  }

  lemma {:induction false} GrantBorn(s: State, past: History, link: string, demand: Demand, code: string,
                                     grant: string, row: Grant, after: State, next: History)
    requires Born(s, past, link, demand) && code in s.codes && row.server == s.codes[code].server
             && grant !in past.births
    requires after.codes == s.codes - {code} && after.db.grants == s.db.grants[grant := row]
             && after.db.pending == s.db.pending
    requires next.requests == past.requests && next.minted == past.minted
    requires code in past.minted && past.minted[code] in past.requests
    requires next.births == past.births[grant := past.requests[past.minted[code]].birth]
    ensures Born(after, next, link, demand)
  {
  }

  lemma {:induction false} ExchangeBorn(lib: Library, s: State, past: History, link: string, demand: Demand,
                                        code: string, verifier: string, client: string, redirectUri: string,
                                        grant: string, pair: TokenPair, now: int, after: State)
    requires Born(s, past, link, demand) && Flow.CodesSound(s, past) && grant !in past.births && grant !in s.db.grants
    requires ExchangeEffect(lib, s, code, verifier, client, redirectUri, grant, pair, now, after)
    ensures Born(after, RecordExchange(lib, past, code, verifier, client, redirectUri, grant, pair, after), link,
                 demand)
  {
    hide StoresPair, RecordExchange, Meets;

    if GrantMade(lib, s, code, verifier, client, redirectUri, grant, pair, now, after) {
      Flow.ExchangeRecord(lib, s, past, code, verifier, client, redirectUri, grant, pair, now, after);
      var next := RecordExchange(lib, past, code, verifier, client, redirectUri, grant, pair, after);
      GrantBorn(s, past, link, demand, code, grant, after.db.grants[grant], after, next);
    } else {
      Membership.SameRecord(lib, s, past, code, verifier, client, redirectUri, grant, pair, after);
    }
  }

  lemma {:induction false} StaticBorn(lib: Library, s: State, past: History, link: string, demand: Demand,
                                      server: string, name: string, ttl: int, grant: string, token: string,
                                      now: int, birth: Birth, after: State)
    requires Born(s, past, link, demand) && grant !in past.births
    requires server == link ==> Meets(birth, demand)
    requires StaticEffect(lib, s, server, name, ttl, grant, token, now, after)
    ensures Born(after, RecordStatic(lib, past, s, grant, token, birth, after), link, demand)
  {
  }

  lemma {:induction false} StepBorn(lib: Library, w: World, e: Event, link: string, demand: Demand)
    requires Flow.Sound(lib, w.s, w.past) && Born(w.s, w.past, link, demand) && Runs.Enabled(lib, w, e)
    requires Guarantees.AsksFor(e.op, link) ==> Meets(BirthOn(w, link), demand)
    ensures var next := Step(lib, w, e); Born(next.s, next.past, link, demand)
  {
    hide Access.Begin, Access.ApproveWithCode, Access.ExchangeCode, Access.CreateStaticToken, AfterOther, Born,
         BeginEffect, ApproveEffect, ExchangeEffect, StaticEffect, Flow.Shrinks, RecordBegin, RecordApprove,
         RecordExchange, RecordStatic, RecordRefresh;
    var after := After(lib, w, e);

    match e.op {
      case Begin(request, nonce, code) =>
        BeginSummary(lib, w.s, request, nonce, code, e.now, e.weather);
        BeginBorn(lib, w.s, w.past, link, demand, request, nonce, code, e.now, BirthOn(w, request.server), after);
      case ApproveWithCode(id, typed, cookie, minted) =>
        ApproveSummary(lib, w.s, id, typed, cookie, minted, e.now, e.weather);
        ApproveBorn(w.s, w.past, link, demand, id, minted, e.now, Compares(w.s, id, e.now, e.weather), after);
      case ExchangeCode(code, verifier, resource, client, redirectUri, grant, pair) =>
        ExchangeSummary(lib, w.s, code, verifier, resource, client, redirectUri, grant, pair, e.now, e.weather);
        ExchangeBorn(lib, w.s, w.past, link, demand, code, verifier, client, redirectUri, grant, pair, e.now, after);
      case CreateStaticToken(server, name, ttl, grant, token) =>
        StaticSummary(lib, w.s, server, name, ttl, grant, token, e.now, e.weather);
        StaticBorn(lib, w.s, w.past, link, demand, server, name, ttl, grant, token, e.now, BirthOn(w, server), after);
      case _ =>
        Flow.OthersShrink(lib, w, e);
        Flow.OthersRecord(lib, w, e);
        ShrinkBorn(w.s, w.past, link, demand, after, Record(lib, w, e, after));
    }
  }

  /** While the plan in force stays the same, whatever is begun is begun under it. */
  lemma {:induction false} RunBorn(lib: Library, w: World, events: seq<Event>, link: string, demand: Demand)
    requires Flow.Sound(lib, w.s, w.past) && AllEnabled(lib, w, events) && Between(events)
    requires Born(w.s, w.past, link, demand) && Meets(BirthOn(w, link), demand) && !demand.OneOf?
    ensures var end := Run(lib, w, events);
            Flow.Sound(lib, end.s, end.past) && Born(end.s, end.past, link, demand) && end.plans == w.plans
    decreases |events|
  {
    hide Flow.Sound, Born, After, Record, Runs.Enabled;

    if events != [] {
      Flow.StepSound(lib, w, events[0]);
      StepBorn(lib, w, events[0], link, demand);
      RunBorn(lib, Step(lib, w, events[0]), events[1..], link, demand);
    }
  }

  /** The two stretches of a reload, with the signatures remembered between them. */
  lemma {:induction false} StretchesBorn(lib: Library, w: World, loaded: Loaded, before: map<string, string>,
                                         first: seq<Event>, second: seq<Event>, link: string, demand: Demand)
    requires Flow.Sound(lib, w.s, w.past) && Born(w.s, w.past, link, demand) && Meets(BirthOn(w, link), demand)
    requires !demand.OneOf?
    requires Between(first) && Between(second) && AllEnabled(lib, w, first)
    requires AllEnabled(lib, Remember(Run(lib, w, first), loaded, before), second)
    ensures var end := Run(lib, Remember(Run(lib, w, first), loaded, before), second);
            Flow.Sound(lib, end.s, end.past) && Born(end.s, end.past, link, demand) && end.plans == w.plans
  {
    hide Run, AllEnabled, Remembered;
    RunBorn(lib, w, first, link, demand);
    SignaturesAside(lib, Run(lib, w, first), loaded, before, link, demand);
    RunBorn(lib, Remember(Run(lib, w, first), loaded, before), second, link, demand);
  }

  lemma {:induction false} SignaturesAside(lib: Library, w: World, loaded: Loaded, before: map<string, string>,
                                           link: string, demand: Demand)
    requires Flow.Sound(lib, w.s, w.past) && Born(w.s, w.past, link, demand) && Meets(BirthOn(w, link), demand)
    requires !demand.OneOf?
    ensures var next := Remember(w, loaded, before);
            Flow.Sound(lib, next.s, next.past) && Born(next.s, next.past, link, demand) &&
            Meets(BirthOn(next, link), demand)
  {
    hide Remembered;
    Flow.SoundShrinks(lib, w.s, w.past, Remember(w, loaded, before).s, w.past);
  }

  // ----- links that keep their members

  lemma {:induction false} AtRead(lib: Library, w: World, link: string, next: LinkPlan)
    requires Guarantees.Reachable(lib, w) && FindPlan(w.plans, link).Some?
    requires SameMembership(FindPlan(w.plans, link).value, next)
    ensures Flow.Sound(lib, w.s, w.past) && Born(w.s, w.past, link, SameAs(next))
    ensures Meets(BirthOn(w, link), SameAs(next))
  {
    hide Guarantees.Reachable, Flow.Sound, Tokens.Sound, Signature, SameMembership;
    var plan := FindPlan(w.plans, link).value;
    Guarantees.ReachableGood(lib, w);
    Membership.FindPlanIn(w.plans, link);
    SignatureExact(plan, next);
    forall birth: Birth | Membership.BirthSound(birth) && birth.signed == Some(Signature(plan))
      ensures Meets(birth, SameAs(next))
    {
      if birth.plan.Some? {
        SignatureExact(birth.plan.value, next);
      }
    }
  }

  /** For a link that keeps its members, nothing that runs in between can do harm: at the end
      everything on it was begun under the members it has. */
  lemma {:induction false} KeptStaysInLine(lib: Library, w: World, loaded: Loaded, first: seq<Event>,
                                           second: seq<Event>, link: string, next: LinkPlan)
    requires Guarantees.Reachable(lib, w) && FindPlan(w.plans, link).Some?
    requires SameMembership(FindPlan(w.plans, link).value, next)
    requires Between(first) && Between(second) && Enabled(lib, w, loaded, first, second)
    ensures var end := Ended(lib, w, loaded, first, second); Born(end.s, end.past, link, SameAs(next))
  {
    hide Guarantees.Reachable, Run, AllEnabled, Born, Flow.Sound, SameMembership, Remember;
    AtRead(lib, w, link, next);
    StretchesBorn(lib, w, loaded, w.s.db.signatures, first, second, link, SameAs(next));
  }

  // ----- links whose members change

  /** The run up to the link's own `revoke_server` call, that call, and what follows it until the
      signatures are remembered. */
  function Around(before: seq<Event>, call: Event, later: seq<Event>): seq<Event> {
    before + ([call] + later)
  }

  lemma {:induction false} FlowReaches(lib: Library, w: World, events: seq<Event>)
    requires Flow.Sound(lib, w.s, w.past) && AllEnabled(lib, w, events) && Between(events)
    ensures var end := Run(lib, w, events); Flow.Sound(lib, end.s, end.past) && end.plans == w.plans
    decreases |events|
  {
    hide Flow.Sound, After, Record, Runs.Enabled;

    if events != [] {
      Flow.StepSound(lib, w, events[0]);
      FlowReaches(lib, Step(lib, w, events[0]), events[1..]);
    }
  }

  lemma {:induction false} QuietBorn(s: State, past: History, link: string, demand: Demand)
    requires Guarantees.Quiet(s, link)
    ensures Born(s, past, link, demand)
  {
  }

  lemma {:induction false} BornQuiet(s: State, past: History, link: string, plan: LinkPlan, next: LinkPlan)
    requires Born(s, past, link, Exactly(plan)) && !SameMembership(plan, next)
    ensures Born(s, past, link, SameAs(next)) <==> Guarantees.Quiet(s, link)
  {
    hide SameMembership;
  }

  /** The world after the link's call. */
  lemma {:induction false} AfterCall(lib: Library, w: World, before: seq<Event>, call: Event, later: seq<Event>,
                                     link: string)
    requires Flow.Sound(lib, w.s, w.past) && AllEnabled(lib, w, Around(before, call, later))
             && Between(Around(before, call, later))
    requires call.op == RevokeServer(link)
    requires Access.RevokeServer(Run(lib, w, before).s, link, call.weather).1.Done?
    ensures var called := Step(lib, Run(lib, w, before), call);
            && Run(lib, w, Around(before, call, later)) == Run(lib, called, later)
            && AllEnabled(lib, called, later) && Between(later)
            && Flow.Sound(lib, called.s, called.past) && called.plans == w.plans
            && Guarantees.Quiet(called.s, link)
  {
    hide Flow.Sound, Guarantees.Quiet, Record, Access.RevokeServer, Runs.Enabled;
    var reached := Run(lib, w, before);
    var called := Step(lib, reached, call);
    var all := Around(before, call, later);
    RunConcat(lib, w, before, [call] + later);
    RunConcat(lib, reached, [call], later);
    RunOne(lib, reached, call);
    assert forall i :: 0 <= i < |before| ==> before[i] == all[i];
    assert forall i :: 0 <= i < |later| ==> later[i] == all[|before| + 1 + i];
    FlowReaches(lib, w, before);
    assert ([call] + later)[0] == call;
    Flow.StepSound(lib, reached, call);
    Guarantees.RevokeStepQuiet(lib, reached, call);
  }

  /** For a link that gets other members, once its own `revoke_server` call succeeded: everything
      on it at the end was begun under the members it has if and only if there was nothing on it
      just before the new plans took effect. Whatever was begun after the call was begun under the
      plan that was then still in force. */
  lemma {:induction false} ChangedInLineExactly(
    lib: Library, w: World, loaded: Loaded, before: seq<Event>, call: Event, later: seq<Event>, second: seq<Event>,
    link: string, next: LinkPlan)
    requires Guarantees.Reachable(lib, w) && FindPlan(w.plans, link).Some?
    requires !SameMembership(FindPlan(w.plans, link).value, next)
    requires Between(Around(before, call, later)) && Between(second)
    requires Enabled(lib, w, loaded, Around(before, call, later), second)
    requires call.op == RevokeServer(link)
    requires Access.RevokeServer(Run(lib, w, before).s, link, call.weather).1.Done?
    ensures var end := Ended(lib, w, loaded, Around(before, call, later), second);
            Born(end.s, end.past, link, SameAs(next)) <==>
            Guarantees.Quiet(BeforeSync(lib, w, loaded, Around(before, call, later), second).s, link)
  {
    hide Guarantees.Reachable, Run, AllEnabled, Born, Flow.Sound, Tokens.Sound, Membership.Sound, SameMembership,
         Remember, Guarantees.Quiet, Access.RevokeServer, Around, Between, After, Record;
    var plan := FindPlan(w.plans, link).value;
    var called := Step(lib, Run(lib, w, before), call);
    Guarantees.ReachableGood(lib, w);
    AfterCall(lib, w, before, call, later, link);
    QuietBorn(called.s, called.past, link, Exactly(plan));
    StretchesBorn(lib, called, loaded, w.s.db.signatures, later, second, link, Exactly(plan));
    var end := Ended(lib, w, loaded, Around(before, call, later), second);
    BornQuiet(end.s, end.past, link, plan, next);
  }

  predicate NobodyAsks(events: seq<Event>, link: string) {
    forall i :: 0 <= i < |events| ==> !Guarantees.AsksFor(events[i].op, link)
  }

  /** So a reload is safe for it when no request or static token for the link is stored between
      its `revoke_server` call and the new plan. */
  lemma {:induction false} ChangedInLine(
    lib: Library, w: World, loaded: Loaded, before: seq<Event>, call: Event, later: seq<Event>, second: seq<Event>,
    link: string, next: LinkPlan)
    requires Guarantees.Reachable(lib, w)
    requires Between(Around(before, call, later)) && Enabled(lib, w, loaded, Around(before, call, later), second)
    requires call.op == RevokeServer(link)
    requires Access.RevokeServer(Run(lib, w, before).s, link, call.weather).1.Done?
    requires NobodyAsks(later, link) && NobodyAsks(second, link)
    ensures var end := Ended(lib, w, loaded, Around(before, call, later), second);
            Guarantees.Quiet(end.s, link) && Born(end.s, end.past, link, SameAs(next))
  {
    hide Guarantees.Reachable, Run, AllEnabled, Born, Flow.Sound, Tokens.Sound, Membership.Sound,
         Access.RevokeServer, Around, Between, After, Record, Remembered;
    var called := Step(lib, Run(lib, w, before), call);
    Guarantees.ReachableGood(lib, w);
    AfterCall(lib, w, before, call, later, link);
    Guarantees.QuietRun(lib, called, later, link);
    var middle := Remember(Run(lib, called, later), loaded, w.s.db.signatures);
    Guarantees.QuietRun(lib, middle, second, link);
    var end := Ended(lib, w, loaded, Around(before, call, later), second);
    QuietBorn(end.s, end.past, link, SameAs(next));
  }

  // ----- and not otherwise

  /** The operation answered, and so stored a request or a static token. */
  predicate Stored(lib: Library, s: State, e: Event) {
    match e.op
    case Begin(request, nonce, code) => Access.Begin(lib, s, request, nonce, code, e.now, e.weather).1.Done?
    case CreateStaticToken(server, name, ttl, grant, token) =>
      Access.CreateStaticToken(lib, s, server, name, ttl, grant, token, e.now, e.weather).1.Done?
    case _ => false
  }

  lemma {:induction false} StoredNotQuiet(lib: Library, w: World, ask: Event, link: string)
    requires Guarantees.AsksFor(ask.op, link) && Stored(lib, w.s, ask)
    ensures !Guarantees.Quiet(Step(lib, w, ask).s, link)
  {
    var after := Step(lib, w, ask).s;

    if ask.op.Begin? {
      assert ask.op.request.id in after.db.pending && after.db.pending[ask.op.request.id].server == link;
    } else {
      assert ask.op.grant in after.db.grants && after.db.grants[ask.op.grant].server == link;
    }
  }

  /** What is stored for the link after the signatures are remembered and before the new plans take
      effect is out of line: it was begun under other members than the link now has. */
  lemma {:induction false} LateAskOutOfLine(
    lib: Library, w: World, loaded: Loaded, before: seq<Event>, call: Event, later: seq<Event>, ask: Event,
    link: string, next: LinkPlan)
    requires Guarantees.Reachable(lib, w) && FindPlan(w.plans, link).Some?
    requires !SameMembership(FindPlan(w.plans, link).value, next)
    requires Between(Around(before, call, later)) && Enabled(lib, w, loaded, Around(before, call, later), [ask])
    requires call.op == RevokeServer(link)
    requires Access.RevokeServer(Run(lib, w, before).s, link, call.weather).1.Done?
    requires var middle := Remember(Run(lib, w, Around(before, call, later)), loaded, w.s.db.signatures);
             Guarantees.AsksFor(ask.op, link) && Stored(lib, middle.s, ask)
    ensures var end := Ended(lib, w, loaded, Around(before, call, later), [ask]);
            !Born(end.s, end.past, link, SameAs(next))
  {
    hide Guarantees.Reachable, AllEnabled, Born, SameMembership, Remember, Guarantees.Quiet, Access.RevokeServer,
         Around, After, Record, Stored, Run;
    var middle := Remember(Run(lib, w, Around(before, call, later)), loaded, w.s.db.signatures);
    RunOne(lib, middle, ask);
    StoredNotQuiet(lib, middle, ask, link);
    ChangedInLineExactly(lib, w, loaded, before, call, later, [ask], link, next);
  }

  /** A static token created there is accepted for the new members until its time is over. */
  lemma {:induction false} LateTokenAccepted(
    lib: Library, w: World, loaded: Loaded, before: seq<Event>, call: Event, later: seq<Event>, ask: Event,
    next: LinkPlan, now: int)
    requires ask.op.CreateStaticToken? && now < ask.now + ask.op.ttl
    requires var link := ask.op.server;
             && Guarantees.Reachable(lib, w) && FindPlan(w.plans, link).Some?
             && !SameMembership(FindPlan(w.plans, link).value, next)
             && Between(Around(before, call, later)) && Enabled(lib, w, loaded, Around(before, call, later), [ask])
             && call.op == RevokeServer(link)
             && Access.RevokeServer(Run(lib, w, before).s, link, call.weather).1.Done?
             && var middle := Remember(Run(lib, w, Around(before, call, later)), loaded, w.s.db.signatures);
                Stored(lib, middle.s, ask)
    ensures var end := Ended(lib, w, loaded, Around(before, call, later), [ask]);
            && StillAllowed(lib, end.s, ask.op.token, ask.op.server, now, []) == Done(Some(ask.op.grant))
            && !Born(end.s, end.past, ask.op.server, SameAs(next))
  {
    hide Guarantees.Reachable, AllEnabled, Born, SameMembership, Remember, Guarantees.Quiet, Access.RevokeServer,
         Around, Record, Run, FindPlan, Between;
    LateAskOutOfLine(lib, w, loaded, before, call, later, ask, ask.op.server, next);
    var middle := Remember(Run(lib, w, Around(before, call, later)), loaded, w.s.db.signatures);
    RunOne(lib, middle, ask);
    CreatedAccepted(lib, middle.s, ask, now);
  }

  lemma {:induction false} CreatedAccepted(lib: Library, s: State, ask: Event, now: int)
    requires ask.op.CreateStaticToken? && now < ask.now + ask.op.ttl && Stored(lib, s, ask)
    ensures StillAllowed(lib, AfterAdding(lib, s, ask), ask.op.token, ask.op.server, now, []) ==
            Done(Some(ask.op.grant))
  {
  }

  /** A request begun there leads, when it is approved and exchanged in good faith, to a token that
      is accepted for the new members. */
  lemma {:induction false} LateRequestAccepted(
    lib: Library, w: World, loaded: Loaded, before: seq<Event>, call: Event, later: seq<Event>, v: Journey.Visit,
    next: LinkPlan, now: int)
    requires var link := v.request.server;
             && Guarantees.Reachable(lib, w) && FindPlan(w.plans, link).Some?
             && !SameMembership(FindPlan(w.plans, link).value, next)
             && Between(Around(before, call, later))
             && Enabled(lib, w, loaded, Around(before, call, later),
                        [Event(Begin(v.request, v.nonce, v.shown), v.begun, [])])
             && call.op == RevokeServer(link)
             && Access.RevokeServer(Run(lib, w, before).s, link, call.weather).1.Done?
             && var middle := Remember(Run(lib, w, Around(before, call, later)), loaded, w.s.db.signatures);
                Journey.HasRoomFor(lib, middle.s, v)
    requires Journey.ApprovesRightly(lib, v) && Journey.ExchangesRightly(lib, v) && now < v.exchanged + ACCESS_TOKEN_TTL
    ensures var ask := Event(Begin(v.request, v.nonce, v.shown), v.begun, []);
            var end := Ended(lib, w, loaded, Around(before, call, later), [ask]);
            var after := Journey.Concluded(lib, end.s, v).0;
            && !Born(end.s, end.past, v.request.server, SameAs(next))
            && StillAllowed(lib, after, v.pair.access, v.request.server, now, []) == Done(Some(v.grant))
  {
    hide Guarantees.Reachable, AllEnabled, Born, SameMembership, Remember, Guarantees.Quiet, Access.RevokeServer,
         Around, Record, Run, FindPlan, Between, Journey.HasRoomFor, Journey.ApprovesRightly,
         Journey.ExchangesRightly, StillAllowed, Access.Begin, Access.ApproveWithCode, Access.ExchangeCode;
    var ask := Event(Begin(v.request, v.nonce, v.shown), v.begun, []);
    var middle := Remember(Run(lib, w, Around(before, call, later)), loaded, w.s.db.signatures);
    RunOne(lib, middle, ask);
    Journey.BeginWorks(lib, middle.s, v);
    LateAskOutOfLine(lib, w, loaded, before, call, later, ask, v.request.server, next);
    Journey.FlowExactly(lib, middle.s, v, v.request.server, now);
  }

  // ----- one such run

  /** A file with one link of one chosen member. */
  function Choosing(member: string): Loaded {
    Loaded(Settings([], [], [("desk", Chosen([member]))], []), {}, ["a", "b"])
  }

  lemma {:induction false} ChoosingPlans(member: string)
    ensures WellFormed(Choosing(member))
    ensures Plans(Choosing(member)) == [Commands("desk", [], [member])]
    ensures LoadedLinks(Choosing(member)) == {"desk"}
    ensures SignaturesOf(Plans(Choosing(member))) == map["desk" := Signature(Commands("desk", [], [member]))]
  {
    var loaded := Choosing(member);
    var links := loaded.settings.links;
    assert Entries(loaded.settings) == [] && Specs(loaded.settings) == [];
    assert Dedup([member]) == [member] by { assert [member][..0] == []; }
    assert Among([member], {}) == [] by { assert [member][1..] == []; }
    assert IsUsableName("desk") by { assert "desk"[1..] == "esk"; }
    assert NamesWhere([], true) == {} && NamesWhere([], false) == {};
    var plan := Commands("desk", [], [member]);
    assert LinkPlansUpTo(links, [], loaded.commandNames, 0) == [];
    assert LinkPlansUpTo(links, [], loaded.commandNames, 1) == [] + [plan];
    assert DirectPlans([]) + ([] + [plan]) == [plan];
    assert Keys(links) == {"desk"};
    assert SignaturesOf([plan][..0]) == map[];
  }

  lemma {:induction false} ChoosingDiffers()
    ensures !SameMembership(Commands("desk", [], ["a"]), Commands("desk", [], ["b"]))
  {
    assert multiset(["a"])["a"] == 1 && multiset(["b"])["a"] == 0;
  }

  /** The daemon with the first of the two files applied. */
  function WithFirst(lib: Library): World {
    Step(lib, Start(0), Event(Apply(Some(Choosing("a")), map[]), 0, []))
  }

  lemma {:induction false} RevokedEmpty(s: State, reached: map<string, nat>)
    requires s.db == Tables(map[], map[], map[], map[]) && s.codes == map[]
    ensures RevokeServers(s, reached).db == s.db && RevokeServers(s, reached).codes == map[]
  {
  }

  lemma {:induction false} AppliedEmpty(s: State, plans: seq<LinkPlan>, loaded: Loaded, name: string, signature: string)
    requires s.db == Tables(map[], map[], map[], map[]) && s.codes == map[] && LoadedLinks(loaded) == {name}
    requires SignaturesOf(Plans(loaded)) == map[name := signature]
    ensures var (after, next, ok) := Applied(s, plans, Some(loaded), [], map[]);
            && ok && next == Plans(loaded) && after.codes == map[]
            && after.db == Tables(map[], map[], map[], map[name := signature])
  {
    hide RevokeServers, Completed, Plans, LoadedLinks, SignaturesOf;
    var compiled := SignaturesOf(Plans(loaded));
    var servers := ToRevoke(s.db, {name}, compiled);
    CleanCall(s.db.grants);
    RevokedEmpty(s, Progress(servers, map[]));
    assert Remembered({name}, compiled, map[]) == compiled;
  }

  lemma {:induction false} CleanCall(grants: map<string, Grant>)
    ensures Completed([]) == 5 && forall server :: RevokesCleanly(grants, server, [])
  {
  }

  lemma {:induction false} OneReachable(lib: Library, e: Event)
    requires Runs.Enabled(lib, Start(0), e)
    ensures Guarantees.Reachable(lib, Step(lib, Start(0), e))
  {
    hide Step, Runs.Enabled, Start;
    RunOne(lib, Start(0), e);
    assert [e][1..] == [];
    assert AllEnabled(lib, Start(0), [e]);
  }

  lemma {:induction false} FirstApplied(lib: Library)
    ensures Guarantees.Reachable(lib, WithFirst(lib))
    ensures WithFirst(lib).plans == [Commands("desk", [], ["a"])] && WithFirst(lib).clock == 0
    ensures WithFirst(lib).s.db == Tables(map[], map[], map[], map["desk" := Signature(Commands("desk", [], ["a"]))])
    ensures WithFirst(lib).past == Start(0).past && WithFirst(lib).s.codes == map[]
  {
    hide Signature, Applied, Choosing, WellFormed;
    var apply := Event(Apply(Some(Choosing("a")), map[]), 0, []);
    ChoosingPlans("a");
    OneReachable(lib, apply);
    AppliedEmpty(Start(0).s, [], Choosing("a"), "desk", Signature(Commands("desk", [], ["a"])));
  }

  /** The second file is applied while a static token is created: the token, created for member
      "a", is accepted when the link has member "b". */
  lemma {:induction false} LateTokenExample(lib: Library)
    ensures var w := WithFirst(lib);
            var end := Ended(lib, w, Choosing("b"), Around([], CallDesk(), []), [CreateOnDesk()]);
            && Guarantees.Reachable(lib, w)
            && Enabled(lib, w, Choosing("b"), Around([], CallDesk(), []), [CreateOnDesk()])
            && end.plans == [Commands("desk", [], ["b"])]
            && StillAllowed(lib, end.s, "t", "desk", 0, []) == Done(Some("g"))
            && !Born(end.s, end.past, "desk", SameAs(end.plans[0]))
  {
    hide Signature, SameMembership, Born, Remembered, Choosing, Plans, SignaturesOf, LoadedLinks, WithFirst, Stored,
         Access.RevokeServer, Step, StillAllowed, Guarantees.Reachable;
    var w := WithFirst(lib);
    FirstApplied(lib);
    ChoosingPlans("b");
    ChoosingDiffers();
    assert Around([], CallDesk(), []) == [CallDesk()];
    RunOne(lib, w, CallDesk());
    CallQuiet(lib, w);
    var middle := Remember(Step(lib, w, CallDesk()), Choosing("b"), w.s.db.signatures);
    CreateWorks(lib, middle);
    assert [CallDesk()][1..] == [] && [CreateOnDesk()][1..] == [];
    assert AllEnabled(lib, w, [CallDesk()]) && AllEnabled(lib, middle, [CreateOnDesk()]);
    LateTokenAccepted(lib, w, Choosing("b"), [], CallDesk(), [], CreateOnDesk(), Commands("desk", [], ["b"]), 0);
  }

  function CallDesk(): Event {
    Event(RevokeServer("desk"), 0, [])
  }

  function CreateOnDesk(): Event {
    Event(CreateStaticToken("desk", "ci", 1, "g", "t"), 0, [])
  }

  predicate Unused(w: World) {
    && w.s.db.pending == map[] && w.s.db.grants == map[] && w.s.db.tokens == map[] && w.s.codes == map[]
    && w.past == Start(0).past && w.clock == 0
  }

  lemma {:induction false} CallQuiet(lib: Library, w: World)
    requires Unused(w)
    ensures Access.RevokeServer(w.s, "desk", []).1.Done? && Unused(Step(lib, w, CallDesk()))
  {
    assert Completed([]) == 5 && GrantsOn(w.s.db.grants, {"desk"}) == {};
  }

  lemma {:induction false} CreateWorks(lib: Library, w: World)
    requires Unused(w)
    ensures Stored(lib, w.s, CreateOnDesk()) && Runs.Enabled(lib, w, CreateOnDesk())
  {
  }

  /** The same with any visit to the link that begins then and goes on in good faith. */
  lemma {:induction false} LateRequestExample(lib: Library, v: Journey.Visit, now: int)
    requires v.request.server == "desk" && v.begun >= 0 && lib.sha256(v.pair.access) != lib.sha256(v.pair.refresh)
    requires Journey.ApprovesRightly(lib, v) && Journey.ExchangesRightly(lib, v) && now < v.exchanged + ACCESS_TOKEN_TTL
    ensures var w := WithFirst(lib);
            var ask := Event(Begin(v.request, v.nonce, v.shown), v.begun, []);
            var end := Ended(lib, w, Choosing("b"), Around([], CallDesk(), []), [ask]);
            var after := Journey.Concluded(lib, end.s, v).0;
            && Guarantees.Reachable(lib, w)
            && Enabled(lib, w, Choosing("b"), Around([], CallDesk(), []), [ask])
            && end.plans == [Commands("desk", [], ["b"])]
            && !Born(end.s, end.past, "desk", SameAs(end.plans[0]))
            && StillAllowed(lib, after, v.pair.access, "desk", now, []) == Done(Some(v.grant))
  {
    hide Signature, SameMembership, Born, Remembered, Choosing, Plans, SignaturesOf, LoadedLinks, WithFirst, Stored,
         Access.RevokeServer, Step, StillAllowed, Guarantees.Reachable, Journey.ApprovesRightly,
         Journey.ExchangesRightly, Journey.HasRoomFor, Journey.Concluded;
    var w := WithFirst(lib);
    var ask := Event(Begin(v.request, v.nonce, v.shown), v.begun, []);
    FirstApplied(lib);
    ChoosingPlans("b");
    ChoosingDiffers();
    assert Around([], CallDesk(), []) == [CallDesk()];
    RunOne(lib, w, CallDesk());
    CallQuiet(lib, w);
    var middle := Remember(Step(lib, w, CallDesk()), Choosing("b"), w.s.db.signatures);
    BeginFits(lib, middle, v);
    assert [CallDesk()][1..] == [] && [ask][1..] == [];
    assert AllEnabled(lib, w, [CallDesk()]) && AllEnabled(lib, middle, [ask]);
    LateRequestAccepted(lib, w, Choosing("b"), [], CallDesk(), [], v, Commands("desk", [], ["b"]), now);
  }

  lemma {:induction false} BeginFits(lib: Library, w: World, v: Journey.Visit)
    requires Unused(w) && v.begun >= 0 && lib.sha256(v.pair.access) != lib.sha256(v.pair.refresh)
    ensures Journey.HasRoomFor(lib, w.s, v)
    ensures Runs.Enabled(lib, w, Event(Begin(v.request, v.nonce, v.shown), v.begun, []))
  {
    assert ActiveRequests(w.s.db.pending, v.begun) == {};
  }
}
