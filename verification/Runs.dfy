/** Whole runs of the daemon: any sequence of operations, with a record of the past that
    the daemon itself does not keep. */
module Runs {
  import opened Prelude
  import opened Store
  import opened Access
  import opened Links
  import opened Apps
  import opened Reload

  /** What was in force for a link when access to it was asked for, the remembered signature and
      the plan; and how many operations had gone before. */
  datatype Birth = Birth(signed: Option<string>, plan: Option<LinkPlan>, at: nat)

  datatype Request = Request(
    client: string, server: string, redirectUri: string, challenge: string, state: string, birth: Birth)

  /** The arguments that turned a code into a grant. */
  datatype Exchange = Exchange(code: string, verifier: string, client: string, redirectUri: string)

  datatype Used = Used(grant: string, expiresAt: int)

  datatype History = History(
    requests: map<string, Request>,     // every request ever stored
    compared: map<string, nat>,         // how many typed codes were compared for it
    minted: map<string, string>,        // every code ever minted, and its request
    exchanged: map<string, Exchange>,   // every grant made from a code
    statics: set<string>,               // every grant made for a static token
    births: map<string, Birth>,         // every grant
    chains: map<string, seq<string>>,   // the refresh tokens of a grant, in the order issued
    used: map<string, Used>,            // every refresh token that was claimed
    hashes: set<string>)                // every token hash

  /** `clock` is the latest reading; the clock never goes back. `turn` counts the operations. */
  datatype World = World(s: State, plans: seq<LinkPlan>, clock: int, past: History, turn: nat)

  datatype Op =
    | Begin(request: NewRequest, nonce: string, code: string)
    | ApproveWithCode(id: string, typed: string, cookie: Option<string>, minted: string)
    | ExchangeCode(code: string, verifier: string, resource: string, client: string, redirectUri: string,
                   grant: string, pair: TokenPair)
    | Refresh(token: string, pair: TokenPair)
    | Authorize(bearer: string, server: string)
    | OpenStream(grant: string)
    | DropStream(grant: string, stream: nat)
    | Revoke(token: string)
    | RevokeGrant(id: string)
    | RevokeServer(server: string)
    | RevokeAll
    | CreateStaticToken(server: string, name: string, ttl: int, grant: string, token: string)
    | Sweep
    | Apply(loaded: Option<Loaded>, weathers: map<string, seq<bool>>)
    | Restart

  datatype Event = Event(op: Op, now: int, weather: seq<bool>)

  function FindPlan(plans: seq<LinkPlan>, name: string): Option<LinkPlan> {
    if plans == [] then None
    else if plans[0].name == name then Some(plans[0])
    else FindPlan(plans[1..], name)
  }

  function BirthOn(w: World, server: string): Birth {
    Birth(Lookup(w.s.db.signatures, server), FindPlan(w.plans, server), w.turn)
  }

  /** Random values are fresh and the clock never goes back. */
  ghost predicate Enabled(lib: Library, w: World, e: Event) {
    e.now >= w.clock &&
    match e.op
    case Begin(request, _, _) => request.id !in w.past.requests
    case ApproveWithCode(_, _, _, minted) => minted !in w.past.minted
    case ExchangeCode(_, _, _, _, _, grant, pair) => grant !in w.past.births && FreshPair(lib, w, pair)
    case Refresh(_, pair) => FreshPair(lib, w, pair)
    case CreateStaticToken(_, _, _, grant, token) => grant !in w.past.births && lib.sha256(token) !in w.past.hashes
    case Apply(loaded, _) => loaded.Some? ==> WellFormed(loaded.value)
    case _ => true
  }

  predicate FreshPair(lib: Library, w: World, pair: TokenPair) {
    && lib.sha256(pair.access) !in w.past.hashes
    && lib.sha256(pair.refresh) !in w.past.hashes
    && lib.sha256(pair.access) != lib.sha256(pair.refresh)
  }

  /** Operations that store a request, a code, a grant or a static token. */
  predicate Adds(op: Op) {
    op.Begin? || op.ApproveWithCode? || op.ExchangeCode? || op.CreateStaticToken?
  }

  function AfterAdding(lib: Library, s: State, e: Event): State
    requires Adds(e.op)
  {
    match e.op
    case Begin(request, nonce, code) => Access.Begin(lib, s, request, nonce, code, e.now, e.weather).0
    case ApproveWithCode(id, typed, cookie, minted) =>
      Access.ApproveWithCode(lib, s, id, typed, cookie, minted, e.now, e.weather).0
    case ExchangeCode(code, verifier, resource, client, redirectUri, grant, pair) =>
      Access.ExchangeCode(lib, s, code, verifier, resource, client, redirectUri, grant, pair, e.now, e.weather).0
    case CreateStaticToken(server, name, ttl, grant, token) =>
      Access.CreateStaticToken(lib, s, server, name, ttl, grant, token, e.now, e.weather).0
  }

  function AfterOther(lib: Library, w: World, e: Event): State
    requires !Adds(e.op)
  {
    match e.op
    case Refresh(token, pair) => RefreshToken(lib, w.s, token, pair, e.now, e.weather).0
    case Authorize(bearer, server) => Access.Authorize(lib, w.s, bearer, server, e.now, e.weather).0
    case OpenStream(grant) => OpenGrantStream(w.s, grant).0
    case DropStream(grant, stream) => DropGrantStream(w.s, grant, stream)
    case Revoke(token) => Access.Revoke(lib, w.s, token, e.weather).0
    case RevokeGrant(id) => Access.RevokeGrant(w.s, id, e.weather).0
    case RevokeServer(server) => Access.RevokeServer(w.s, server, e.weather).0
    case RevokeAll => Access.RevokeAll(w.s, e.weather).0
    case Sweep => Access.Sweep(w.s, e.now, e.weather)
    case Apply(loaded, weathers) => Applied(w.s, w.plans, loaded, e.weather, weathers).0
    // The tables survive; everything the daemon held in memory is gone.
    case Restart => State(w.s.db, map[], map[], map[], {}, 0)
  }

  /** The state an operation leaves. */
  function After(lib: Library, w: World, e: Event): State {
    if Adds(e.op) then AfterAdding(lib, w.s, e) else AfterOther(lib, w, e)
  }

  function PlansAfter(w: World, e: Event): seq<LinkPlan> {
    match e.op
    case Apply(loaded, weathers) => Applied(w.s, w.plans, loaded, e.weather, weathers).1
    case Restart => []
    case _ => w.plans
  }

  function RecordBegin(past: History, s: State, request: NewRequest, birth: Birth, after: State): History {
    if after == s then past
    else
      var row := Request(request.client, request.server, request.redirectUri, request.challenge, request.state, birth);
      past.(requests := past.requests[request.id := row], compared := past.compared[request.id := 0])
  }

  function RecordApprove(past: History, id: string, minted: string, compares: bool, after: State): History {
    past.(
      compared := if compares && id in past.compared then past.compared[id := past.compared[id] + 1] else past.compared,
      minted := if minted in after.codes then past.minted[minted := id] else past.minted)
  }

  /** Adds the tokens that an operation stored. */
  function RecordPair(lib: Library, past: History, grant: string, pair: TokenPair, after: State): History {
    var access, refresh := lib.sha256(pair.access), lib.sha256(pair.refresh);
    var chain := if grant in past.chains then past.chains[grant] else [];
    past.(
      hashes := past.hashes + (if access in after.db.tokens then {access} else {})
                + (if refresh in after.db.tokens then {refresh} else {}),
      chains := if refresh in after.db.tokens then past.chains[grant := chain + [refresh]] else past.chains)
  }

  function RecordExchange(lib: Library, past: History, code: string, verifier: string, client: string,
                          redirectUri: string, grant: string, pair: TokenPair, after: State): History
  {
    if grant !in after.db.grants || code !in past.minted || past.minted[code] !in past.requests then past
    else
      var made := past.(
        exchanged := past.exchanged[grant := Exchange(code, verifier, client, redirectUri)],
        births := past.births[grant := past.requests[past.minted[code]].birth]);
      RecordPair(lib, made, grant, pair, after)
  }

  predicate ClaimedBy(s: State, hash: string, after: State) {
    && hash in s.db.tokens && !s.db.tokens[hash].revoked
    && hash in after.db.tokens && after.db.tokens[hash].revoked
  }

  function RecordRefresh(lib: Library, past: History, s: State, token: string, pair: TokenPair, after: State): History {
    var hash := lib.sha256(token);
    if !ClaimedBy(s, hash, after) then past
    else
      var found := s.db.tokens[hash];
      RecordPair(lib, past.(used := past.used[hash := Used(found.grant, found.expiresAt)]), found.grant, pair, after)
  }

  function RecordStatic(lib: Library, past: History, s: State, grant: string, token: string, birth: Birth, after: State)
    : History
  {
    var hash := lib.sha256(token);
    if after == s then past
    else past.(births := past.births[grant := birth], statics := past.statics + {grant},
               hashes := if hash in after.db.tokens then past.hashes + {hash} else past.hashes)
  }

  function Record(lib: Library, w: World, e: Event, after: State): History {
    match e.op
    case Begin(request, _, _) => RecordBegin(w.past, w.s, request, BirthOn(w, request.server), after)
    case ApproveWithCode(id, _, _, minted) =>
      RecordApprove(w.past, id, minted, Compares(w.s, id, e.now, e.weather), after)
    case ExchangeCode(code, verifier, _, client, redirectUri, grant, pair) =>
      RecordExchange(lib, w.past, code, verifier, client, redirectUri, grant, pair, after)
    case Refresh(token, pair) => RecordRefresh(lib, w.past, w.s, token, pair, after)
    case CreateStaticToken(server, _, _, grant, token) =>
      RecordStatic(lib, w.past, w.s, grant, token, BirthOn(w, server), after)
    case _ => w.past
  }

  function Step(lib: Library, w: World, e: Event): World {
    var after := After(lib, w, e);
    World(after, PlansAfter(w, e), e.now, Record(lib, w, e, after), w.turn + 1)
  }

  function Start(now: int): World {
    World(State(Tables(map[], map[], map[], map[]), map[], map[], map[], {}, 0), [], now,
          History(map[], map[], map[], map[], {}, map[], map[], map[], {}), 0)
  }

  function Run(lib: Library, w: World, events: seq<Event>): World
    decreases |events|
  {
    if events == [] then w else Run(lib, Step(lib, w, events[0]), events[1..])
  }

  ghost predicate AllEnabled(lib: Library, w: World, events: seq<Event>)
    decreases |events|
  {
    events == [] || (Enabled(lib, w, events[0]) && AllEnabled(lib, Step(lib, w, events[0]), events[1..]))
  }
}
