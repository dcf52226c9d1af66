/** Runs whose reloads go step by step, with any other operations between the steps, and with
    restarts anywhere (src/serve.rs). */
module Overlaps {
  import opened Prelude
  import opened Store
  import opened Access
  import opened Effects
  import opened Links
  import opened Apps
  import opened Reload
  import opened Runs
  import opened Reloading
  import Flow
  import Tokens
  import Membership
  import Guarantees
  import Journey

  /** How far the reload in progress is. `servers` are the links it has to revoke, `left` those it
      has not called for yet, `called` the turn after each call that succeeded, and `read` the
      signatures it read. */
  datatype Phase =
    | Idle
    | Revoking(loaded: Loaded, servers: set<string>, left: set<string>, called: map<string, nat>, clean: bool,
               read: map<string, string>)
    | Syncing(loaded: Loaded, called: map<string, nat>)

  /** The turns from a link's revocation until the new plans, in a reload that remembered its
      signatures. */
  datatype Window = Window(link: string, from: nat, to: nat)

  datatype Moment = Moment(w: World, phase: Phase, windows: set<Window>)

  datatype Turn = Does(e: Event) | Reads(loaded: Loaded) | Calls(e: Event) | Remembers(up: bool) | Syncs

  function Called(m: Moment): map<string, nat> {
    if m.phase.Idle? then map[] else m.phase.called
  }

  /** The windows that end now. */
  function Ending(m: Moment): set<Window> {
    if m.phase.Syncing? then set link | link in m.phase.called :: Window(link, m.phase.called[link], m.w.turn) else {}
  }

  ghost predicate Possible(lib: Library, m: Moment, turn: Turn) {
    match turn
    case Does(e) => Runs.Enabled(lib, m.w, e) && !e.op.Apply?
    case Reads(loaded) => m.phase.Idle? && WellFormed(loaded)
    case Calls(e) =>
      m.phase.Revoking? && e.op.RevokeServer? && e.op.server in m.phase.left && Runs.Enabled(lib, m.w, e)
    case Remembers(_) => m.phase.Revoking? && m.phase.left == {}
    case Syncs => m.phase.Syncing?
  }

  function CallDone(m: Moment, e: Event): bool
    requires e.op.RevokeServer?
  {
    Access.RevokeServer(m.w.s, e.op.server, e.weather).1.Done?
  }

  function After(lib: Library, m: Moment, turn: Turn): Moment
    requires Possible(lib, m, turn)
  {
    match turn
    case Does(e) =>
      // A restart ends the reload where it is.
      if e.op.Restart? then Moment(Step(lib, m.w, e), Idle, m.windows + Ending(m)) else m.(w := Step(lib, m.w, e))
    case Reads(loaded) =>
      var servers := ToRevoke(m.w.s.db, LoadedLinks(loaded), SignaturesOf(Plans(loaded)));
      m.(phase := Revoking(loaded, servers, servers, map[], true, m.w.s.db.signatures))
    case Calls(e) => Call(lib, m, e)
    case Remembers(up) =>
      if m.phase.clean && up
      then m.(w := Remember(m.w, m.phase.loaded, m.phase.read), phase := Syncing(m.phase.loaded, m.phase.called))
      else m.(phase := Idle)
    case Syncs => Moment(Sync(m.w, m.phase.loaded), Idle, m.windows + Ending(m))
  }

  function Call(lib: Library, m: Moment, e: Event): Moment
    requires m.phase.Revoking? && e.op.RevokeServer?
  {
    var next := Step(lib, m.w, e);
    var called := if CallDone(m, e) then m.phase.called[e.op.server := next.turn] else m.phase.called;
    m.(w := next, phase := m.phase.(left := m.phase.left - {e.op.server}, called := called,
                                    clean := m.phase.clean && CallDone(m, e)))
  }

  function First(now: int): Moment {
    Moment(Start(now), Idle, {})
  }

  ghost predicate AllPossible(lib: Library, m: Moment, turns: seq<Turn>)
    decreases |turns|
  {
    turns == [] || (Possible(lib, m, turns[0]) && AllPossible(lib, After(lib, m, turns[0]), turns[1..]))
  }

  ghost function Last(lib: Library, m: Moment, turns: seq<Turn>): Moment
    requires AllPossible(lib, m, turns)
    decreases |turns|
  {
    if turns == [] then m else Last(lib, After(lib, m, turns[0]), turns[1..])
  }

  ghost predicate Reached(lib: Library, m: Moment) {
    exists now: int, turns: seq<Turn> :: AllPossible(lib, First(now), turns) && m == Last(lib, First(now), turns)
  }

  // ----- what every turn keeps

  /** The turn lies between a revocation of the link and the new plans of the same reload. */
  ghost predicate Late(m: Moment, link: string, at: nat) {
    || (exists window :: window in m.windows && window.link == link && window.from <= at < window.to)
    || (m.phase.Syncing? && link in m.phase.called && at >= m.phase.called[link])
  }

  /** What was begun late was begun under another plan than the one now remembered; anything else
      under the remembered one. */
  ghost predicate Fits(m: Moment, link: string, b: Birth) {
    && b.at < m.w.turn
    && (if Late(m, link, b.at)
        then b.plan.Some? ==> Lookup(m.w.s.db.signatures, link) != Some(Signature(b.plan.value))
        else && b.signed == Lookup(m.w.s.db.signatures, link)
             && (b.plan.Some? ==> b.signed == Some(Signature(b.plan.value))))
    && (link in Called(m) ==> b.at >= Called(m)[link] && b.plan == FindPlan(m.w.plans, link))
  }

  ghost function Fitting(m: Moment, link: string): Demand {
    OneOf(iset b: Birth | Fits(m, link, b))
  }

  ghost predicate RowsFit(m: Moment) {
    forall link :: Born(m.w.s, m.w.past, link, Fitting(m, link))
  }

  /** Whether the plans in force are the remembered ones. */
  ghost predicate PlansFit(m: Moment) {
    forall plan :: plan in m.w.plans ==>
      (Lookup(m.w.s.db.signatures, plan.name) == Some(Signature(plan)) <==>
       !(m.phase.Syncing? && plan.name in m.phase.called))
  }

  ghost predicate WindowsFit(m: Moment) {
    && (forall window :: window in m.windows ==> window.to <= m.w.turn)
    && (forall link :: link in Called(m) ==> Called(m)[link] <= m.w.turn)
    && forall window, link :: window in m.windows && link in Called(m) ==> window.to <= Called(m)[link]
  }

  /** The links to revoke are those whose signature the reload changes. */
  ghost predicate Changes(read: map<string, string>, loaded: Loaded, servers: set<string>) {
    var next := Remembered(LoadedLinks(loaded), SignaturesOf(Plans(loaded)), read);
    && (forall link :: link !in servers ==> Lookup(next, link) == Lookup(read, link))
    && (forall link :: link in servers && link in read ==> Lookup(next, link) != Some(read[link]))
    && forall plan :: plan in Plans(loaded) ==> Lookup(next, plan.name) == Some(Signature(plan))
  }

  ghost predicate PhaseFits(m: Moment) {
    match m.phase
    case Idle => true
    case Revoking(loaded, servers, left, called, clean, read) =>
      && read == m.w.s.db.signatures && Changes(read, loaded, servers)
      && left <= servers && called.Keys <= servers && (clean ==> left + called.Keys == servers)
    case Syncing(loaded, called) =>
      forall plan :: plan in Plans(loaded) ==> Lookup(m.w.s.db.signatures, plan.name) == Some(Signature(plan))
  }

  ghost predicate Sound(lib: Library, m: Moment) {
    && Flow.Sound(lib, m.w.s, m.w.past) && Tokens.Sound(m.w.s, m.w.past, m.w.clock)
    && RowsFit(m) && PlansFit(m) && WindowsFit(m) && PhaseFits(m)
  }

  // ----- other operations

  lemma {:induction false} AddersAside(lib: Library, s: State, e: Event)
    requires Adds(e.op)
    ensures AfterAdding(lib, s, e).db.signatures == s.db.signatures
  {
    match e.op {
      case Begin(request, nonce, code) => BeginSummary(lib, s, request, nonce, code, e.now, e.weather);
      case ApproveWithCode(id, typed, cookie, minted) =>
        ApproveSummary(lib, s, id, typed, cookie, minted, e.now, e.weather);
        ApproveAside(s, id, minted, e.now, Compares(s, id, e.now, e.weather), AfterAdding(lib, s, e));
      case ExchangeCode(code, verifier, resource, client, redirectUri, grant, pair) =>
        ExchangeSummary(lib, s, code, verifier, resource, client, redirectUri, grant, pair, e.now, e.weather);
      case CreateStaticToken(server, name, ttl, grant, token) =>
        StaticSummary(lib, s, server, name, ttl, grant, token, e.now, e.weather);
    }
  }

  lemma {:induction false} ApproveAside(s: State, id: string, minted: string, now: int, compares: bool, after: State)
    requires ApproveEffect(s, id, minted, now, compares, after)
    ensures after.db.signatures == s.db.signatures
  {
  }

  /** Only a reload changes the signatures, and only a reload or a restart the plans. */
  lemma {:induction false} StepAside(lib: Library, w: World, e: Event)
    requires !e.op.Apply?
    ensures var next := Step(lib, w, e);
            && next.s.db.signatures == w.s.db.signatures && next.turn == w.turn + 1
            && next.plans == if e.op.Restart? then [] else w.plans
  {
    hide AfterAdding, AfterOther, Record;

    if Adds(e.op) {
      AddersAside(lib, w.s, e);
    } else {
      Flow.OthersShrink(lib, w, e);
    }
  }

  lemma {:induction false} StepBase(lib: Library, w: World, e: Event)
    requires Flow.Sound(lib, w.s, w.past) && Tokens.Sound(w.s, w.past, w.clock) && Runs.Enabled(lib, w, e)
    ensures var next := Step(lib, w, e);
            Flow.Sound(lib, next.s, next.past) && Tokens.Sound(next.s, next.past, next.clock)
  {
    hide Tokens.Sound, Flow.RequestsSound, Flow.CodesSound, Flow.GrantsSound, Runs.After, Record;
    Flow.StepSound(lib, w, e);
    Tokens.StepKeeps(lib, w, e);
  }

  lemma {:induction false} PlanNamed(plans: seq<LinkPlan>, link: string)
    ensures FindPlan(plans, link).Some? ==>
              FindPlan(plans, link).value in plans && FindPlan(plans, link).value.name == link
  {
    Membership.FindPlanIn(plans, link);
  }

  /** What is begun now is late exactly when its link was called and the new plans are still to come. */
  lemma {:induction false} LateNow(m: Moment, next: Moment, link: string)
    requires WindowsFit(m) && next == m.(w := next.w)
    ensures Late(next, link, m.w.turn) <==> m.phase.Syncing? && link in m.phase.called
  {
    assert link in Called(m) ==> Called(m)[link] <= m.w.turn;
    assert forall window :: window in next.windows ==> window in m.windows && window.to <= m.w.turn;
  }

  /** What is begun now fits. */
  lemma {:induction false} NewFits(m: Moment, next: Moment, link: string)
    requires PlansFit(m) && WindowsFit(m)
    requires next == m.(w := next.w) && next.w.turn == m.w.turn + 1
    requires next.w.s.db.signatures == m.w.s.db.signatures && next.w.plans == m.w.plans
    ensures Fits(next, link, BirthOn(m.w, link))
  {
    hide Signature, Late, FindPlan;
    PlanNamed(m.w.plans, link);
    LateNow(m, next, link);
    assert link in Called(m) ==> Called(m)[link] <= m.w.turn;
    var plan := FindPlan(m.w.plans, link);
    assert plan.Some? ==>
        (Lookup(m.w.s.db.signatures, plan.value.name) == Some(Signature(plan.value)) <==>
         !(m.phase.Syncing? && plan.value.name in m.phase.called));
  }

  lemma {:induction false} StillFits(m: Moment, next: Moment, link: string)
    requires next == m.(w := next.w) && next.w.turn == m.w.turn + 1
    requires next.w.s.db.signatures == m.w.s.db.signatures && next.w.plans == m.w.plans
    ensures forall b :: Fits(m, link, b) ==> Fits(next, link, b)
  {
    hide Signature, FindPlan;
    assert forall at: nat :: Late(next, link, at) == Late(m, link, at);
  }

  lemma {:induction false} Weaker(s: State, past: History, link: string, m: Moment, next: Moment)
    requires Born(s, past, link, Fitting(m, link))
    requires forall b :: Fits(m, link, b) ==> Fits(next, link, b)
    ensures Born(s, past, link, Fitting(next, link))
  {
    hide Fits;
  }

  lemma {:induction false} OtherRows(lib: Library, m: Moment, e: Event)
    requires Sound(lib, m) && Runs.Enabled(lib, m.w, e) && !e.op.Apply? && !e.op.Restart?
    ensures RowsFit(m.(w := Step(lib, m.w, e)))
  {
    hide Flow.Sound, Tokens.Sound, Born, Step, Fits, PhaseFits;
    var next := m.(w := Step(lib, m.w, e));
    StepAside(lib, m.w, e);
    forall link ensures Born(next.w.s, next.w.past, link, Fitting(next, link)) {
      NewFits(m, next, link);
      StillFits(m, next, link);
      Weaker(m.w.s, m.w.past, link, m, next);
      StepBorn(lib, m.w, e, link, Fitting(next, link));
    }
  }

  lemma {:induction false} WindowsLater(m: Moment, next: Moment)
    requires WindowsFit(m) && next.windows == m.windows && next.phase == m.phase && next.w.turn >= m.w.turn
    ensures WindowsFit(next)
  {
    assert Called(next) == Called(m);
    forall window | window in next.windows ensures window.to <= next.w.turn {
      assert window in m.windows;
    }
    forall link | link in Called(next) ensures Called(next)[link] <= next.w.turn {
      assert link in Called(m);
    }
  }

  lemma {:induction false} OtherKeeps(lib: Library, m: Moment, e: Event)
    requires Sound(lib, m) && Runs.Enabled(lib, m.w, e) && !e.op.Apply? && !e.op.Restart?
    ensures Sound(lib, m.(w := Step(lib, m.w, e)))
  {
    hide Flow.Sound, Tokens.Sound, RowsFit, Step, Changes;
    OtherRows(lib, m, e);
    StepAside(lib, m.w, e);
    StepBase(lib, m.w, e);
    WindowsLater(m, m.(w := Step(lib, m.w, e)));
  }

  /** Ending the windows now changes nothing for what was begun before. */
  lemma {:induction false} EndingFits(m: Moment, next: Moment, link: string)
    requires next.phase.Idle? && next.windows == m.windows + Ending(m)
    requires next.w.s.db.signatures == m.w.s.db.signatures && next.w.turn >= m.w.turn
    ensures forall b :: Fits(m, link, b) ==> Fits(next, link, b)
  {
    hide Signature;
    forall b: Birth | b.at < m.w.turn ensures Late(next, link, b.at) <==> Late(m, link, b.at) {
      if m.phase.Syncing? && link in m.phase.called {
        assert Window(link, m.phase.called[link], m.w.turn) in next.windows;
      }
      if window :| window in m.windows && window.link == link && window.from <= b.at < window.to {
        assert window in next.windows;
      }
      if window :| window in Ending(m) && window.link == link && window.from <= b.at < window.to {
        assert m.phase.Syncing? && link in m.phase.called && b.at >= m.phase.called[link];
      }
    }
  }

  lemma {:induction false} RestartKeeps(lib: Library, m: Moment, e: Event)
    requires Sound(lib, m) && Runs.Enabled(lib, m.w, e) && e.op.Restart?
    ensures Sound(lib, After(lib, m, Does(e)))
  {
    hide Flow.Sound, Tokens.Sound, Born, Fits, Changes, Step;
    var next := After(lib, m, Does(e));
    StepAside(lib, m.w, e);
    StepBase(lib, m.w, e);
    forall link ensures Born(next.w.s, next.w.past, link, Fitting(next, link)) {
      EndingFits(m, next, link);
      Weaker(m.w.s, m.w.past, link, m, next);
      RestartBorn(lib, m.w, e, link, Fitting(next, link));
    }
    EndingInTime(m);
  }

  lemma {:induction false} RestartBorn(lib: Library, w: World, e: Event, link: string, demand: Demand)
    requires Born(w.s, w.past, link, demand) && e.op.Restart?
    ensures var next := Step(lib, w, e); Born(next.s, next.past, link, demand)
  {
    Flow.RestartShrinks(w.s);
    ShrinkBorn(w.s, w.past, link, demand, Step(lib, w, e).s, w.past);
  }

  lemma {:induction false} EndingInTime(m: Moment)
    ensures forall window :: window in Ending(m) ==> window.to <= m.w.turn
  {
  }

  // ----- the steps of a reload

  lemma {:induction false} Reread(db: Tables, loaded: Loaded)
    requires WellFormed(loaded)
    ensures Changes(db.signatures, loaded, ToRevoke(db, LoadedLinks(loaded), SignaturesOf(Plans(loaded))))
  {
    hide Plans, LoadedLinks, SignaturesOf, Signature;
    var links, compiled := LoadedLinks(loaded), SignaturesOf(Plans(loaded));
    var servers := ToRevoke(db, links, compiled);
    PlansSound(loaded);
    SignaturesOfUnique(Plans(loaded));
    forall link | link !in servers
      ensures Lookup(Remembered(links, compiled, db.signatures), link) == Lookup(db.signatures, link)
    {
      Membership.KeptSignature(db, links, compiled, link);
    }
    forall plan | plan in Plans(loaded)
      ensures Lookup(compiled, plan.name) == Some(Signature(plan)) && plan.name in links {
    }
    assert compiled.Keys <= links;
  }

  lemma {:induction false} SamePhaseRows(m: Moment, next: Moment)
    requires RowsFit(m) && next == m.(phase := next.phase) && !m.phase.Syncing? && !next.phase.Syncing?
    requires forall link :: link in Called(next) ==> Lookup(Called(m), link) == Some(Called(next)[link])
    ensures RowsFit(next)
  {
    hide Born;
    forall link ensures Born(next.w.s, next.w.past, link, Fitting(next, link)) {
      Weaker(m.w.s, m.w.past, link, m, next);
    }
  }

  lemma {:induction false} ReadsKeep(lib: Library, m: Moment, loaded: Loaded)
    requires Sound(lib, m) && m.phase.Idle? && WellFormed(loaded)
    ensures Sound(lib, After(lib, m, Reads(loaded)))
  {
    hide Flow.Sound, Tokens.Sound, RowsFit, ToRevoke, Changes;
    Reread(m.w.s.db, loaded);
    SamePhaseRows(m, After(lib, m, Reads(loaded)));
  }

  /** After its call a link is empty, so whatever is on it later was begun after the call. */
  lemma {:induction false} CalledRows(m: Moment, next: Moment, link: string)
    requires RowsFit(m) && m.phase.Revoking? && next.phase.Revoking? && Guarantees.Quiet(m.w.s, link)
    requires next == m.(phase := next.phase) && next.phase.called == m.phase.called[link := m.w.turn]
    ensures RowsFit(next)
  {
    hide Born, Guarantees.Quiet;
    forall other ensures Born(next.w.s, next.w.past, other, Fitting(next, other)) {
      if other == link {
        QuietBorn(next.w.s, next.w.past, link, Fitting(next, link));
      } else {
        Weaker(m.w.s, m.w.past, other, m, next);
      }
    }
  }

  /** What a call changes besides the state. */
  lemma {:induction false} CallFits(lib: Library, m: Moment, e: Event)
    requires WindowsFit(m) && PhaseFits(m) && PlansFit(m) && Possible(lib, m, Calls(e))
    ensures var next := Call(lib, m, e); WindowsFit(next) && PhaseFits(next) && PlansFit(next)
  {
    hide Step, Changes, Access.RevokeServer, Signature;
    var next := Call(lib, m, e);
    StepAside(lib, m.w, e);
    WindowsLater(m, m.(w := next.w));
    forall link | link in Called(next)
      ensures Called(next)[link] == next.w.turn || (link in Called(m) && Called(next)[link] == Called(m)[link])
    {
      assert link == e.op.server || link in Called(m);
    }
  }

  lemma {:induction false} CallsKeep(lib: Library, m: Moment, e: Event)
    requires Sound(lib, m) && Possible(lib, m, Calls(e))
    ensures Sound(lib, Call(lib, m, e))
  {
    hide Flow.Sound, Tokens.Sound, RowsFit, WindowsFit, PhaseFits, PlansFit, Step, Guarantees.Quiet,
         Access.RevokeServer;
    var stepped := m.(w := Step(lib, m.w, e));
    var next := Call(lib, m, e);
    OtherKeeps(lib, m, e);
    CallFits(lib, m, e);
    StepAside(lib, m.w, e);

    if CallDone(m, e) {
      Guarantees.RevokeStepQuiet(lib, m.w, e);
      CalledRows(stepped, next, e.op.server);
    } else {
      SamePhaseRows(stepped, next);
    }
  }

  /** Remembering the signatures: on the links called, everything turns late. */
  lemma {:induction false} RememberFits(m: Moment, next: Moment, link: string)
    requires PlansFit(m) && WindowsFit(m) && PhaseFits(m) && m.phase.Revoking? && m.phase.clean && m.phase.left == {}
    requires next.w.turn == m.w.turn && next.w.plans == m.w.plans && next.windows == m.windows
    requires next.phase == Syncing(m.phase.loaded, m.phase.called)
    requires next.w.s.db.signatures ==
               Remembered(LoadedLinks(m.phase.loaded), SignaturesOf(Plans(m.phase.loaded)), m.phase.read)
    ensures forall b :: Fits(m, link, b) ==> Fits(next, link, b)
  {
    hide Signature, Remembered, SignaturesOf, LoadedLinks;
    forall b | Fits(m, link, b) ensures Fits(next, link, b) {
      if link in m.phase.called {
        assert !Late(m, link, b.at) && Late(next, link, b.at);
      } else {
        assert Late(next, link, b.at) <==> Late(m, link, b.at);
      }
    }
  }

  lemma {:induction false} RememberPlans(m: Moment, next: Moment)
    requires PlansFit(m) && PhaseFits(m) && m.phase.Revoking? && m.phase.clean && m.phase.left == {}
    requires next.w.plans == m.w.plans && next.phase == Syncing(m.phase.loaded, m.phase.called)
    requires next.w.s.db.signatures ==
               Remembered(LoadedLinks(m.phase.loaded), SignaturesOf(Plans(m.phase.loaded)), m.phase.read)
    ensures PlansFit(next) && PhaseFits(next)
  {
    hide Signature, Remembered, SignaturesOf, LoadedLinks;
  }

  lemma {:induction false} RememberWindows(m: Moment, next: Moment)
    requires WindowsFit(m) && next.windows == m.windows && next.w.turn == m.w.turn
    requires next.phase.Idle? || Called(next) == Called(m)
    ensures WindowsFit(next)
  {
    forall window | window in next.windows ensures window.to <= next.w.turn {
      assert window in m.windows;
    }
    forall link | link in Called(next) ensures Called(next)[link] <= next.w.turn {
      assert link in Called(m);
    }
  }

  lemma {:induction false} RemembersKeep(lib: Library, m: Moment, up: bool)
    requires Sound(lib, m) && Possible(lib, m, Remembers(up))
    ensures Sound(lib, After(lib, m, Remembers(up)))
  {
    hide Flow.Sound, Tokens.Sound, Born, Changes, Remembered, Fits, WindowsFit, Flow.Shrinks, Signature;
    var next := After(lib, m, Remembers(up));
    RememberWindows(m, next);

    if m.phase.clean && up {
      BaseAside(lib, m.w, m.phase.loaded, m.phase.read);
      forall link ensures Born(next.w.s, next.w.past, link, Fitting(next, link)) {
        RememberFits(m, next, link);
        Weaker(m.w.s, m.w.past, link, m, next);
        ShrinkBorn(m.w.s, m.w.past, link, Fitting(next, link), next.w.s, next.w.past);
      }
      RememberPlans(m, next);
    } else {
      hide RowsFit;
      SamePhaseRows(m, next);
    }
  }

  lemma {:induction false} BaseAside(lib: Library, w: World, loaded: Loaded, read: map<string, string>)
    requires Flow.Sound(lib, w.s, w.past) && Tokens.Sound(w.s, w.past, w.clock)
    ensures var next := Remember(w, loaded, read);
            && Flow.Sound(lib, next.s, next.past) && Tokens.Sound(next.s, next.past, next.clock)
            && Flow.Shrinks(w.s, next.s)
  {
    hide Remembered;
    var next := Remember(w, loaded, read);
    Flow.SoundShrinks(lib, w.s, w.past, next.s, w.past);
    assert Tokens.Weakens(w.s, next.s, w.clock);
    Tokens.WeakensKeeps(w.s, w.past, w.clock, next.s, w.past, w.clock);
  }

  lemma {:induction false} SyncsKeep(lib: Library, m: Moment)
    requires Sound(lib, m) && m.phase.Syncing?
    ensures Sound(lib, After(lib, m, Syncs))
  {
    hide Flow.Sound, Tokens.Sound, Born, Fits, Plans, Signature;
    var next := After(lib, m, Syncs);
    forall link ensures Born(next.w.s, next.w.past, link, Fitting(next, link)) {
      EndingFits(m, next, link);
      Weaker(m.w.s, m.w.past, link, m, next);
    }
    EndingInTime(m);
  }

  lemma {:induction false} TurnKeeps(lib: Library, m: Moment, turn: Turn)
    requires Sound(lib, m) && Possible(lib, m, turn)
    ensures Sound(lib, After(lib, m, turn))
  {
    hide Sound;

    match turn {
      case Does(e) =>
        if e.op.Restart? {
          RestartKeeps(lib, m, e);
        } else {
          OtherKeeps(lib, m, e);
        }
      case Reads(loaded) => ReadsKeep(lib, m, loaded);
      case Calls(e) => CallsKeep(lib, m, e);
      case Remembers(up) => RemembersKeep(lib, m, up);
      case Syncs => SyncsKeep(lib, m);
    }
  }

  lemma {:induction false} LastSound(lib: Library, m: Moment, turns: seq<Turn>)
    requires Sound(lib, m) && AllPossible(lib, m, turns)
    ensures Sound(lib, Last(lib, m, turns))
    decreases |turns|
  {
    hide Sound, Possible, After;

    if turns != [] {
      TurnKeeps(lib, m, turns[0]);
      LastSound(lib, After(lib, m, turns[0]), turns[1..]);
    }
  }

  lemma {:induction false} FirstSound(lib: Library, now: int)
    ensures Sound(lib, First(now))
  {
  }

  lemma {:induction false} ReachedSound(lib: Library, m: Moment)
    requires Reached(lib, m)
    ensures Sound(lib, m)
  {
    hide Sound, AllPossible, Last, First;
    var now: int, turns: seq<Turn> :| AllPossible(lib, First(now), turns) && m == Last(lib, First(now), turns);
    FirstSound(lib, now);
    LastSound(lib, First(now), turns);
  }

  // ----- what a bearer is accepted for

  lemma {:induction false} AcceptedRow(lib: Library, m: Moment, bearer: string, link: string, now: int,
                                       weather: seq<bool>, grant: string)
    requires Tokens.Sound(m.w.s, m.w.past, m.w.clock)
    requires Access.Authorize(lib, m.w.s, bearer, link, now, weather).1 == Done(Some(grant))
    ensures grant in m.w.s.db.grants && m.w.s.db.grants[grant].server == link
  {
    hide Tokens.ChainsSound, Tokens.UsedKept;
    assert StillAllowed(lib, m.w.s, bearer, link, now, weather) == Done(Some(grant));
  }

  /** However reloads, failures and restarts interleave with everything else: a bearer accepted on a
      link with a plan in force is used for the members in force when its request was begun or its
      static token created, if and only if that was not between a revocation of the link and the
      new plans of the same reload; or those new plans are not in force yet. */
  lemma {:induction false} AcceptedExactly(lib: Library, m: Moment, bearer: string, link: string, now: int,
                                           weather: seq<bool>, grant: string, plan: LinkPlan)
    requires Reached(lib, m)
    requires Access.Authorize(lib, m.w.s, bearer, link, now, weather).1 == Done(Some(grant))
    requires FindPlan(m.w.plans, link) == Some(plan)
    ensures grant in m.w.past.births
    ensures var birth := m.w.past.births[grant];
            birth.plan.Some? ==>
              (SameMembership(birth.plan.value, plan) <==>
               !Late(m, link, birth.at) || (m.phase.Syncing? && link in m.phase.called))
  {
    hide Flow.Sound, Tokens.Sound, Signature, SameMembership, Late, Access.Authorize, Reached, WindowsFit;
    ReachedSound(lib, m);
    AcceptedRow(lib, m, bearer, link, now, weather, grant);
    assert Born(m.w.s, m.w.past, link, Fitting(m, link));
    var birth := m.w.past.births[grant];
    assert Fits(m, link, birth);
    PlanNamed(m.w.plans, link);

    if birth.plan.Some? {
      SignatureExact(birth.plan.value, plan);
    }
  }

  // ----- a reload alone

  lemma {:induction false} CallAlone(lib: Library, m: Moment, e: Event) returns (next: Moment)
    requires m.phase.Revoking? && m.phase.clean
    requires e.op.RevokeServer? && e.op.server in m.phase.left && e.now == m.w.clock && e.weather == []
    ensures Possible(lib, m, Calls(e)) && next == After(lib, m, Calls(e))
    ensures next.phase.Revoking? && next.phase.clean && next.phase.loaded == m.phase.loaded
    ensures next.phase.read == m.phase.read && next.phase.left == m.phase.left - {e.op.server}
    ensures |next.phase.left| < |m.phase.left|
  {
    hide Access.RevokeServer, Step;
    Journey.RevocationsAnswer(lib, m.w.s, "", e.op.server, "", []);
    next := Call(lib, m, e);
  }

  lemma {:induction false} LastAlone(lib: Library, m: Moment)
    requires m.phase.Revoking? && m.phase.clean && m.phase.left == {}
    ensures var (loaded, turns) := (m.phase.loaded, [Remembers(true), Syncs]);
            && AllPossible(lib, m, turns)
            && var end := Last(lib, m, turns);
               && end.phase.Idle? && end.w.plans == Plans(loaded)
               && end.w.s.db.signatures == Remembered(LoadedLinks(loaded), SignaturesOf(Plans(loaded)), m.phase.read)
  {
    hide Plans, Remembered, SignaturesOf, LoadedLinks, Call, Step;
    var next := After(lib, m, Remembers(true));
    assert [Remembers(true), Syncs][1..] == [Syncs] && [Syncs][1..] == [];
    assert AllPossible(lib, next, [Syncs]);
  }

  /** The calls that are left, the signatures and the new plans, with nothing going wrong. */
  lemma {:induction false} FinishAlone(lib: Library, m: Moment) returns (turns: seq<Turn>)
    requires m.phase.Revoking? && m.phase.clean
    ensures AllPossible(lib, m, turns)
    ensures var (loaded, end) := (m.phase.loaded, Last(lib, m, turns));
            && end.phase.Idle? && end.w.plans == Plans(loaded)
            && end.w.s.db.signatures == Remembered(LoadedLinks(loaded), SignaturesOf(Plans(loaded)), m.phase.read)
    decreases |m.phase.left|
  {
    hide Plans, Remembered, SignaturesOf, LoadedLinks;

    if m.phase.left == {} {
      turns := [Remembers(true), Syncs];
      LastAlone(lib, m);
    } else {
      var link :| link in m.phase.left;
      var e := Event(RevokeServer(link), m.w.clock, []);
      var next := CallAlone(lib, m, e);
      var rest := FinishAlone(lib, next);
      turns := [Calls(e)] + rest;
      assert turns[1..] == rest;
    }
  }

  /** A reload that nothing interrupts puts its plans in force. */
  lemma {:induction false} ReloadAlone(lib: Library, m: Moment, loaded: Loaded) returns (turns: seq<Turn>)
    requires m.phase.Idle? && WellFormed(loaded)
    ensures AllPossible(lib, m, turns)
    ensures var end := Last(lib, m, turns);
            && end.phase.Idle? && end.w.plans == Plans(loaded)
            && end.w.s.db.signatures ==
                 Remembered(LoadedLinks(loaded), SignaturesOf(Plans(loaded)), m.w.s.db.signatures)
  {
    hide Plans, Remembered, SignaturesOf, LoadedLinks, ToRevoke;
    var next := After(lib, m, Reads(loaded));
    var rest := FinishAlone(lib, next);
    turns := [Reads(loaded)] + rest;
    assert turns[1..] == rest && Possible(lib, m, Reads(loaded));
  }
}
