/** Requests being served while grants are revoked: every interleaving of the atomic actions
    of `serve_link` in src/gateway.rs and of the revocations in src/auth.rs, which hold the code
    lock while they take streams out of the registry and cancel them one by one. */
module Streams {
  import opened Prelude
  import opened Store
  import opened Access

  /** Where a serving request is: between which two of its database statements and lock
      regions. `Held` is a stream whose second check passed. */
  datatype Place =
    | Arrived
    | TokenRead(grant: string)
    | GrantRead(grant: string)
    | Authorized(grant: string)
    | Opened(grant: string, stream: nat)
    | TokenReread(grant: string, stream: nat)
    | Held(grant: string, stream: nat)
    | Ended

  datatype Server = Server(hash: string, link: string, place: Place)

  /** What is revoked: one grant, a link, or everything. */
  datatype Kind = OfGrant(grant: string) | OfLink(link: string) | OfAll

  /** How far a revocation got: it holds the code lock from `Locked` to `Taken`, knows the grants it
      is for from `Listed` on, has taken their streams out of the registry at `Taken`, and has
      returned without an error at `Closed`. */
  datatype Stage = Waiting | Locked | Listed | First | Second | Third | Taken | Closed | Failed

  /** `targets` are the grants whose streams it closes, and `before` the streams that were cancelled
      when it got the lock. */
  datatype Revoker = Revoker(kind: Kind, stage: Stage, targets: set<string>, before: set<nat>)

  /** Who holds the code lock: a revocation, or an operation that closes no streams. */
  datatype Holder = Nobody | ByRevoker(r: nat) | ByOther

  /** `taken` are the streams out of the registry that are still to be cancelled; `grants` are the
      grant ids ever used, `rows` the grant of every token row ever stored. */
  datatype System = System(
    s: State, servers: map<nat, Server>, revokers: map<nat, Revoker>, lock: Holder, taken: set<nat>,
    grants: set<string>, rows: map<string, string>)

  function Move(y: System, t: nat, place: Place): System
    requires t in y.servers
  {
    y.(servers := y.servers[t := y.servers[t].(place := place)])
  }

  function MoveRevoker(y: System, r: nat, revoker: Revoker): System {
    y.(revokers := y.revokers[r := revoker])
  }

  /** One action of a serving request; `now` and `up` are what it meets. */
  function Serve(y: System, t: nat, now: int, up: bool): System
    requires t in y.servers
  {
    var server := y.servers[t];
    match server.place
    case Arrived =>
      if up && Usable(y.s, server.hash, server.link, now) then Move(y, t, TokenRead(y.s.db.tokens[server.hash].grant))
      else Move(y, t, Ended)
    case TokenRead(grant) => if up && grant in y.s.db.grants then Move(y, t, GrantRead(grant)) else Move(y, t, Ended)
    case GrantRead(grant) =>
      if up then Move(y, t, Authorized(grant)).(s := Touched(y.s, grant, now)) else Move(y, t, Ended)
    case Authorized(grant) =>
      var (after, stream) := OpenGrantStream(y.s, grant);
      Move(y, t, Opened(grant, stream)).(s := after)
    case Opened(grant, stream) =>
      if up && Usable(y.s, server.hash, server.link, now)
      then Move(y, t, TokenReread(y.s.db.tokens[server.hash].grant, stream))
      else Move(y, t, Ended).(s := DropGrantStream(y.s, grant, stream))
    case TokenReread(grant, stream) =>
      if up && grant in y.s.db.grants then Move(y, t, Held(grant, stream))
      else Move(y, t, Ended).(s := DropGrantStream(y.s, grant, stream))
    case Held(grant, stream) => Move(y, t, Ended).(s := DropGrantStream(y.s, grant, stream))
    case Ended => y
  }

  /** Takes the streams of these grants out of the registry. */
  function Take(y: System, closed: set<string>): System {
    y.(s := y.s.(streams := y.s.streams - closed), taken := y.taken + StreamsOf(y.s.streams, closed))
  }

  function Cancel(y: System, id: nat): System {
    y.(s := y.s.(cancelled := y.s.cancelled + {id}), taken := y.taken - {id})
  }

  function To(y: System, r: nat, stage: Stage): System
    requires r in y.revokers
  {
    MoveRevoker(y, r, y.revokers[r].(stage := stage))
  }

  function Fail(y: System, r: nat): System
    requires r in y.revokers
  {
    To(y, r, Stage.Failed).(lock := Nobody)
  }

  /** The grants a revocation lists. */
  function Listing(s: State, kind: Kind): set<string> {
    match kind
    case OfGrant(grant) => {grant}
    case OfLink(link) => GrantsOn(s.db.grants, {link})
    case OfAll => s.db.grants.Keys
  }

  /** The first change to the tables; of a link the grants go first, otherwise the tokens. */
  function FirstChange(s: State, kind: Kind): State {
    match kind
    case OfGrant(grant) => s.(db := s.db.(tokens := RevokedOfGrant(s.db.tokens, grant)))
    case OfLink(link) => s.(db := s.db.(grants := GrantsOff(s.db.grants, link)))
    case OfAll => s.(db := s.db.(tokens := AllRevoked(s.db.tokens)))
  }

  function SecondChange(s: State, kind: Kind): State {
    match kind
    case OfGrant(grant) => s.(db := s.db.(grants := s.db.grants - {grant}))
    case OfLink(link) => s.(db := s.db.(tokens := RevokedOfServer(s.db.tokens, link)))
    case OfAll => s.(db := s.db.(grants := map[]))
  }

  /** Requests and codes. */
  function ThirdChange(s: State, kind: Kind): State {
    match kind
    case OfGrant(_) => s
    case OfLink(link) => s.(db := s.db.(pending := PendingOff(s.db.pending, link)), codes := CodesOff(s.codes, link))
    case OfAll => s.(codes := map[])
  }

  /** One action of a revocation: get the lock, list the grants, change the tables and codes, take
      the streams, cancel one of them, or give the lock back and return. */
  function Revoke(y: System, r: nat, up: bool, id: nat): System
    requires r in y.revokers
  {
    var v := y.revokers[r];
    match v.stage
    case Waiting =>
      if y.lock.Nobody? then MoveRevoker(y, r, v.(stage := Locked, before := y.s.cancelled)).(lock := ByRevoker(r))
      else y
    case Locked =>
      if up || v.kind.OfGrant? then MoveRevoker(y, r, v.(stage := Listed, targets := Listing(y.s, v.kind)))
      else Fail(y, r)
    case Listed => if up then To(y, r, First).(s := FirstChange(y.s, v.kind)) else Fail(y, r)
    case First => if up then To(y, r, Second).(s := SecondChange(y.s, v.kind)) else Fail(y, r)
    case Second =>
      if up || !v.kind.OfLink? then To(y, r, Third).(s := ThirdChange(y.s, v.kind)) else Fail(y, r)
    case Third => To(Take(y, v.targets), r, Taken)
    case Taken =>
      if y.taken == {} then To(y, r, Closed).(lock := Nobody)
      else if id in y.taken then Cancel(y, id)
      else y
    case _ => y
  }

  /** What the rest of the daemon may do to the tables in one action, with or without the lock:
      remove rows, change them but for the link of a grant, and store new ones under fresh keys. */
  ghost predicate Elsewhere(y: System, z: System) {
    && z.servers == y.servers && z.revokers == y.revokers && z.lock == y.lock && z.taken == y.taken
    && y.grants <= z.grants
    && (forall g :: g in z.s.db.grants ==>
          if g in y.s.db.grants then z.s.db.grants[g].server == y.s.db.grants[g].server
          else g !in y.grants && g in z.grants)
    && (forall h :: h in y.rows ==> h in z.rows && z.rows[h] == y.rows[h])
    && (forall h :: h in z.s.db.tokens ==> h in z.rows && z.s.db.tokens[h].grant == z.rows[h])
    && (forall h :: h in z.rows ==> z.rows[h] in z.grants)
    && z.s.nextStream == y.s.nextStream && z.s.streams == y.s.streams && z.s.cancelled == y.s.cancelled
  }

  datatype Action =
    | Arrives(t: nat, hash: string, link: string)
    | Serves(t: nat, now: int, up: bool)
    | Asks(r: nat, kind: Kind)
    | Revokes(r: nat, up: bool, id: nat)
    | Stores
    | Locks
    | Unlocks

  ghost predicate Does(y: System, action: Action, z: System) {
    match action
    case Arrives(t, hash, link) =>
      t !in y.servers && z == y.(servers := y.servers[t := Server(hash, link, Arrived)])
    case Serves(t, now, up) => t in y.servers && z == Serve(y, t, now, up)
    case Asks(r, kind) =>
      && r !in y.revokers && (kind.OfGrant? ==> kind.grant in y.grants)
      && z == y.(revokers := y.revokers[r := Revoker(kind, Waiting, {}, {})])
    case Revokes(r, up, id) => r in y.revokers && z == Revoke(y, r, up, id)
    case Stores => Elsewhere(y, z)
    case Locks => y.lock.Nobody? && z == y.(lock := ByOther)
    case Unlocks => y.lock.ByOther? && z == y.(lock := Nobody)
  }

  ghost predicate Next(y: System, z: System) {
    exists action :: Does(y, action, z)
  }

  ghost predicate Run(trace: seq<System>) {
    && trace != [] && Starts(trace[0])
    && forall i :: 0 <= i < |trace| - 1 ==> Next(trace[i], trace[i + 1])
  }

  ghost predicate Starts(y: System) {
    && y.servers == map[] && y.revokers == map[] && y.s.streams == map[] && y.s.cancelled == {}
    && y.lock == Nobody && y.taken == {}
    && y.s.db.grants.Keys <= y.grants
    && RowsSound(y)
  }

  // ----- what every action keeps

  ghost predicate RowsSound(y: System) {
    && y.s.db.grants.Keys <= y.grants
    && (forall h :: h in y.s.db.tokens ==> h in y.rows && y.s.db.tokens[h].grant == y.rows[h])
    && forall h :: h in y.rows ==> y.rows[h] in y.grants
  }

  predicate HasStream(place: Place) {
    place.Opened? || place.TokenReread? || place.Held?
  }

  predicate PastToken(place: Place) {
    place.TokenRead? || place.GrantRead? || place.Authorized? || HasStream(place)
  }

  /** A request works for the grant of its token row; an open stream is registered, about to be
      cancelled or cancelled. */
  ghost predicate ServersSound(y: System) {
    && (forall t :: t in y.servers && PastToken(y.servers[t].place) ==>
          y.servers[t].hash in y.rows && y.rows[y.servers[t].hash] == y.servers[t].place.grant)
    && (forall t :: t in y.servers && HasStream(y.servers[t].place) ==>
          y.servers[t].place.stream < y.s.nextStream && Registered(y, y.servers[t].place))
    && (forall t, u |
          t in y.servers && u in y.servers && HasStream(y.servers[t].place) && HasStream(y.servers[u].place) ::
          y.servers[t].place.stream == y.servers[u].place.stream ==> t == u)
  }

  predicate Registered(y: System, place: Place)
    requires HasStream(place)
  {
    || place.stream in y.s.cancelled || place.stream in y.taken
    || InRegistry(y.s, place.grant, place.stream)
  }

  /** It has deleted the rows of its grants. */
  predicate PastGrants(v: Revoker) {
    (v.kind.OfLink? && v.stage.First?) || v.stage.Second? || v.stage.Third? || v.stage.Taken? || v.stage.Closed?
  }

  /** The grants a revocation listed are those it deletes. */
  ghost predicate RevokerSound(y: System, v: Revoker) {
    && v.targets <= y.grants && (v.kind.OfGrant? ==> v.kind.grant in y.grants)
    && (v.kind.OfGrant? && !v.stage.Waiting? && !v.stage.Locked? && !v.stage.Failed? ==> v.targets == {v.kind.grant})
    && (v.kind.OfLink? && v.stage.Listed? ==>
          forall g :: g in v.targets && g in y.s.db.grants ==> y.s.db.grants[g].server == v.kind.link)
    && (PastGrants(v) ==> v.targets !! y.s.db.grants.Keys)
  }

  ghost predicate RevokersSound(y: System) {
    forall r :: r in y.revokers ==> RevokerSound(y, y.revokers[r])
  }

  predicate HoldsLock(v: Revoker) {
    v.stage.Locked? || v.stage.Listed? || v.stage.First? || v.stage.Second? || v.stage.Third? || v.stage.Taken?
  }

  /** Only whoever holds the lock has streams still to cancel. */
  ghost predicate LockSound(y: System) {
    && (forall r :: r in y.revokers && HoldsLock(y.revokers[r]) ==> y.lock == ByRevoker(r))
    && (y.lock.ByRevoker? ==> y.lock.r in y.revokers && HoldsLock(y.revokers[y.lock.r]))
    && (y.taken != {} ==> y.lock.ByRevoker? && y.revokers[y.lock.r].stage.Taken?)
  }

  /** A registered stream belongs to one grant and is neither cancelled nor about to be. */
  ghost predicate RegistrySound(y: System) {
    && (forall g, id: nat :: InRegistry(y.s, g, id) ==> id < y.s.nextStream && id !in y.s.cancelled && id !in y.taken)
    && (forall g, h, id: nat :: InRegistry(y.s, g, id) && InRegistry(y.s, h, id) ==> g == h)
    && (forall id: nat :: id in y.s.cancelled ==> id < y.s.nextStream)
    && forall id: nat :: id in y.taken ==> id < y.s.nextStream
  }

  predicate InRegistry(s: State, grant: string, id: nat) {
    grant in s.streams && id in s.streams[grant]
  }

  /** A held stream of a listed grant is cancelled once the revocation has returned, and is
      cancelled or about to be once it has taken the streams. */
  ghost predicate Cancelled(y: System) {
    forall t, r | t in y.servers && r in y.revokers ::
      y.servers[t].place.Held? && (y.revokers[r].stage.Taken? || y.revokers[r].stage.Closed?)
      && y.servers[t].place.grant in y.revokers[r].targets ==>
        || y.servers[t].place.stream in y.s.cancelled
        || (y.revokers[r].stage.Taken? && y.servers[t].place.stream in y.taken)
  }

  /** While a revocation holds the lock, it touches no stream of a grant it did not list. */
  ghost predicate Spared(y: System) {
    forall t, r | t in y.servers && r in y.revokers ::
      HasStream(y.servers[t].place) && HoldsLock(y.revokers[r])
      && (y.revokers[r].stage.Taken? ==> y.servers[t].place.grant !in y.revokers[r].targets)
      && y.servers[t].place.stream !in y.revokers[r].before ==>
        y.servers[t].place.stream !in y.s.cancelled && y.servers[t].place.stream !in y.taken
  }

  ghost predicate Inv(y: System) {
    RowsSound(y) && ServersSound(y) && RevokersSound(y) && LockSound(y) && RegistrySound(y) && Cancelled(y) && Spared(y)
  }

  // ----- serving requests

  lemma {:induction false} WithoutOther(active: seq<nat>, id: nat, other: nat)
    ensures other != id && other in active ==> other in Without(active, id)
    ensures other in Without(active, id) ==> other in active
  {
    if active != [] {
      WithoutOther(active[1..], id, other);
      assert active == [active[0]] + active[1..];
    }
  }

  /** Dropping one stream leaves the others registered, and registers none. */
  lemma {:induction false} DropRegistry(s: State, grant: string, id: nat)
    ensures var after := DropGrantStream(s, grant, id);
            && after == s.(streams := after.streams)
            && (forall g, other: nat :: InRegistry(s, g, other) && other != id ==> InRegistry(after, g, other))
            && forall g, other: nat :: InRegistry(after, g, other) ==> InRegistry(s, g, other)
  {
    if grant in s.streams {
      forall other: nat ensures other != id && other in s.streams[grant] ==> other in Without(s.streams[grant], id)
        ensures other in Without(s.streams[grant], id) ==> other in s.streams[grant]
      {
        WithoutOther(s.streams[grant], id, other);
      }
    }
  }

  lemma {:induction false} DropServers(y: System, t: nat)
    requires ServersSound(y) && t in y.servers && HasStream(y.servers[t].place)
    ensures var place := y.servers[t].place;
            ServersSound(Move(y, t, Ended).(s := DropGrantStream(y.s, place.grant, place.stream)))
  {
    hide DropGrantStream;
    DropRegistry(y.s, y.servers[t].place.grant, y.servers[t].place.stream);
  }

  lemma {:induction false} DropKeeps(y: System, t: nat)
    requires Inv(y) && t in y.servers && HasStream(y.servers[t].place)
    ensures var place := y.servers[t].place;
            Inv(Move(y, t, Ended).(s := DropGrantStream(y.s, place.grant, place.stream)))
  {
    hide DropGrantStream, ServersSound;
    DropRegistry(y.s, y.servers[t].place.grant, y.servers[t].place.stream);
    DropServers(y, t);
  }

  lemma {:induction false} OpenRegistry(s: State, grant: string)
    ensures var (after, stream) := OpenGrantStream(s, grant);
            && stream == s.nextStream && after == s.(streams := after.streams, nextStream := s.nextStream + 1)
            && forall g, id: nat :: InRegistry(after, g, id) <==> InRegistry(s, g, id) || (g == grant && id == stream)
  {
  }

  lemma {:induction false} OpenServers(y: System, t: nat)
    requires ServersSound(y) && RegistrySound(y) && t in y.servers && y.servers[t].place.Authorized?
    ensures ServersSound(Serve(y, t, 0, true)) && RegistrySound(Serve(y, t, 0, true))
  {
    hide OpenGrantStream, InRegistry;
    OpenRegistry(y.s, y.servers[t].place.grant);
  }

  lemma {:induction false} Bounded(y: System)
    requires RegistrySound(y)
    ensures y.s.nextStream !in y.s.cancelled && y.s.nextStream !in y.taken
  {
  }

  lemma {:induction false} OpenKeeps(y: System, t: nat)
    requires Inv(y) && t in y.servers && y.servers[t].place.Authorized?
    ensures Inv(Serve(y, t, 0, true))
  {
    hide ServersSound, RegistrySound;
    OpenServers(y, t);
    Bounded(y);
  }

  lemma {:induction false} MoveKeeps(y: System, t: nat, place: Place)
    requires Inv(y) && t in y.servers && !HasStream(y.servers[t].place) && !HasStream(place)
    requires PastToken(place) ==> y.servers[t].hash in y.rows && y.rows[y.servers[t].hash] == place.grant
    ensures Inv(Move(y, t, place))
  {
  }

  lemma {:induction false} RecheckKeeps(y: System, t: nat, place: Place)
    requires Inv(y) && t in y.servers && HasStream(y.servers[t].place) && HasStream(place)
    requires place.grant == y.servers[t].place.grant && place.stream == y.servers[t].place.stream
    requires place.Held? ==> place.grant in y.s.db.grants
    ensures Inv(Move(y, t, place))
  {
  }

  lemma {:induction false} TouchKeeps(y: System, grant: string, now: int)
    requires Inv(y)
    ensures Inv(y.(s := Touched(y.s, grant, now)))
  {
    ElsewhereKeeps(y, y.(s := Touched(y.s, grant, now)));
  }

  lemma {:induction false} ServeKeeps(y: System, t: nat, now: int, up: bool)
    requires Inv(y) && t in y.servers
    ensures Inv(Serve(y, t, now, up))
  {
    hide RevokersSound, LockSound, RegistrySound, Cancelled, Spared, DropGrantStream;
    var server := y.servers[t];

    match server.place {
      case Arrived =>
        MoveKeeps(y, t, Ended);
        if Usable(y.s, server.hash, server.link, now) {
          MoveKeeps(y, t, TokenRead(y.s.db.tokens[server.hash].grant));
        }
      case TokenRead(grant) =>
        MoveKeeps(y, t, Ended);
        MoveKeeps(y, t, GrantRead(grant));
      case GrantRead(grant) =>
        MoveKeeps(y, t, Ended);
        MoveKeeps(y, t, Authorized(grant));
        TouchKeeps(Move(y, t, Authorized(grant)), grant, now);
      case Authorized(grant) => OpenKeeps(y, t);
      case Opened(grant, stream) =>
        DropKeeps(y, t);
        if Usable(y.s, server.hash, server.link, now) {
          RecheckKeeps(y, t, TokenReread(grant, stream));
        }
      case TokenReread(grant, stream) =>
        DropKeeps(y, t);
        if grant in y.s.db.grants {
          RecheckKeeps(y, t, Held(grant, stream));
        }
      case Held(grant, stream) => DropKeeps(y, t);
      case Ended =>
    }
  }

  // ----- revocations

  lemma {:induction false} TakeRegistered(y: System, closed: set<string>, place: Place)
    requires HasStream(place) && Registered(y, place) && RegistrySound(y)
    ensures Registered(Take(y, closed), place)
    ensures place.grant in closed ==> place.stream in y.s.cancelled || place.stream in Take(y, closed).taken
    ensures place.grant !in closed && place.stream !in y.s.cancelled && place.stream !in y.taken ==>
              place.stream !in Take(y, closed).taken
  {
    TakeRegistry(y, closed);

    if place.grant in closed && InRegistry(y.s, place.grant, place.stream) {
      assert place.stream in StreamsOf(y.s.streams, closed);
    }
  }

  lemma {:induction false} TakeRegistry(y: System, closed: set<string>)
    ensures var z := Take(y, closed);
            && (forall g, id: nat :: InRegistry(z.s, g, id) <==> InRegistry(y.s, g, id) && g !in closed)
            && forall id: nat :: id in z.taken ==> id in y.taken || exists g :: g in closed && InRegistry(y.s, g, id)
  {
    var z := Take(y, closed);
    forall id: nat | id in z.taken && id !in y.taken ensures exists g :: g in closed && InRegistry(y.s, g, id) {
      var g :| g in closed && g in y.s.streams && id in y.s.streams[g];
      assert InRegistry(y.s, g, id);
    }
  }

  lemma {:induction false} TakenServers(y: System, closed: set<string>)
    requires ServersSound(y) && RegistrySound(y)
    ensures ServersSound(Take(y, closed)) && RegistrySound(Take(y, closed))
  {
    TakeRegistry(y, closed);
    TakeOnlyStreams(y, closed);
    forall t | t in y.servers && HasStream(y.servers[t].place)
      ensures Registered(Take(y, closed), y.servers[t].place)
    {
      TakeRegistered(y, closed, y.servers[t].place);
    }
    hide Take, InRegistry;
  }

  /** A revocation takes the streams of its grants: what is held of them is cancelled or taken, and
      nothing else is. */
  lemma {:induction false} TakenKeeps(y: System, r: nat)
    requires Inv(y) && r in y.revokers && y.revokers[r].stage.Third?
    ensures Inv(To(Take(y, y.revokers[r].targets), r, Taken))
  {
    hide ServersSound, RegistrySound, Take;
    TakenServers(y, y.revokers[r].targets);
    TakeOnlyStreams(y, y.revokers[r].targets);
    SameServers(Take(y, y.revokers[r].targets), To(Take(y, y.revokers[r].targets), r, Taken));
    forall t | t in y.servers && HasStream(y.servers[t].place)
      ensures var z, place := Take(y, y.revokers[r].targets), y.servers[t].place;
              && (place.grant in y.revokers[r].targets ==> place.stream in y.s.cancelled || place.stream in z.taken)
              && (place.grant !in y.revokers[r].targets && place.stream !in y.s.cancelled &&
                  place.stream !in y.taken ==>
                    place.stream !in z.taken)
    {
      RegisteredHere(y, t);
      TakeRegistered(y, y.revokers[r].targets, y.servers[t].place);
    }
  }

  lemma {:induction false} RegisteredHere(y: System, t: nat)
    requires ServersSound(y) && t in y.servers && HasStream(y.servers[t].place)
    ensures Registered(y, y.servers[t].place)
  {
  }

  lemma {:induction false} TakeOnlyStreams(y: System, closed: set<string>)
    ensures var z := Take(y, closed);
            && z == y.(s := y.s.(streams := z.s.streams), taken := z.taken) && y.taken <= z.taken
  {
  }

  /** What the requests and the registry need doesn't depend on the revocations. */
  lemma {:induction false} SameServers(y: System, z: System)
    requires z == y.(revokers := z.revokers, lock := z.lock)
    ensures ServersSound(y) <==> ServersSound(z)
    ensures RegistrySound(y) <==> RegistrySound(z)
    ensures RowsSound(y) <==> RowsSound(z)
  {
    forall place | HasStream(place) ensures Registered(y, place) <==> Registered(z, place) {
    }
  }

  lemma {:induction false} CancelKeeps(y: System, r: nat, id: nat)
    requires Inv(y) && id in y.taken && y.lock == ByRevoker(r)
    ensures Inv(Cancel(y, id))
  {
    CancelServers(y, id);
    hide ServersSound, RegistrySound;
  }

  lemma {:induction false} SameRegistry(s: State, after: State)
    requires after.streams == s.streams
    ensures forall g, id: nat :: InRegistry(after, g, id) <==> InRegistry(s, g, id)
  {
  }

  lemma {:induction false} CancelServers(y: System, id: nat)
    requires ServersSound(y) && RegistrySound(y) && id in y.taken
    ensures ServersSound(Cancel(y, id)) && RegistrySound(Cancel(y, id))
  {
    SameRegistry(y.s, Cancel(y, id).s);
  }

  lemma {:induction false} TakenActs(y: System, r: nat, up: bool, id: nat)
    requires Inv(y) && r in y.revokers && y.revokers[r].stage.Taken?
    ensures Inv(Revoke(y, r, up, id))
  {
    if y.taken == {} {
      hide ServersSound, RegistrySound;
      SameServers(y, Revoke(y, r, up, id));
    } else if id in y.taken {
      CancelKeeps(y, r, id);
    }
  }

  /** A revocation moves on without touching streams. */
  lemma {:induction false} RevokerKeeps(y: System, r: nat, v: Revoker, lock: Holder)
    requires Inv(y) && r in y.revokers && !y.revokers[r].stage.Taken? && y.taken == {}
    requires !v.stage.Taken? && !v.stage.Closed? && RevokerSound(y, v)
    requires y.lock.Nobody? || y.lock == ByRevoker(r)
    requires lock == if HoldsLock(v) then ByRevoker(r) else Nobody
    requires HoldsLock(v) ==> v.before == if y.lock.Nobody? then y.s.cancelled else y.revokers[r].before
    ensures Inv(MoveRevoker(y, r, v).(lock := lock))
  {
    hide ServersSound, RegistrySound, RowsSound;
    var z := MoveRevoker(y, r, v).(lock := lock);
    SameServers(y, z);
    forall q | q in z.revokers ensures RevokerSound(z, z.revokers[q]) {
      if q != r {
        assert RevokerSound(y, y.revokers[q]);
      }
    }
  }

  /** Any change of rows and codes that removes, or keeps, or revokes. */
  lemma {:induction false} RowsKeep(y: System, s: State)
    requires Inv(y) && s == y.s.(db := s.db, codes := s.codes)
    requires forall g :: g in s.db.grants ==> g in y.s.db.grants && s.db.grants[g].server == y.s.db.grants[g].server
    requires forall h :: h in s.db.tokens ==> h in y.s.db.tokens && s.db.tokens[h].grant == y.s.db.tokens[h].grant
    ensures Inv(y.(s := s))
  {
    ElsewhereKeeps(y, y.(s := s));
  }

  lemma {:induction false} ChangesRemove(s: State, kind: Kind, after: State)
    requires after in {s, FirstChange(s, kind), SecondChange(s, kind), ThirdChange(s, kind)}
    ensures after == s.(db := after.db, codes := after.codes)
    ensures forall g :: g in after.db.grants ==> g in s.db.grants && after.db.grants[g] == s.db.grants[g]
    ensures forall h :: h in after.db.tokens ==> h in s.db.tokens && after.db.tokens[h].grant == s.db.tokens[h].grant
  {
  }

  lemma {:induction false} TablesKeep(y: System, r: nat, after: State, v: Revoker)
    requires Inv(y) && r in y.revokers && HoldsLock(y.revokers[r]) && !y.revokers[r].stage.Taken? && y.taken == {}
    requires after in {y.s, FirstChange(y.s, v.kind), SecondChange(y.s, v.kind), ThirdChange(y.s, v.kind)}
    requires v.before == y.revokers[r].before && !v.stage.Taken? && !v.stage.Closed? && !v.stage.Waiting?
    requires RevokerSound(y.(s := after), v)
    ensures Inv(MoveRevoker(y.(s := after), r, v).(lock := if HoldsLock(v) then ByRevoker(r) else Nobody))
  {
    hide ServersSound, RegistrySound, RowsSound, Cancelled, Spared, RevokerSound, FirstChange, SecondChange,
         ThirdChange;
    ChangesRemove(y.s, v.kind, after);
    RowsKeep(y, after);
    RevokerKeeps(y.(s := after), r, v, if HoldsLock(v) then ByRevoker(r) else Nobody);
  }

  lemma {:induction false} RevokeKeeps(y: System, r: nat, up: bool, id: nat)
    requires Inv(y) && r in y.revokers
    ensures Inv(Revoke(y, r, up, id))
  {
    hide ServersSound, RegistrySound, RowsSound, Cancelled, Spared, RevokerSound;
    var v := y.revokers[r];

    match v.stage {
      case Waiting =>
        if y.lock.Nobody? {
          WaitingSound(y, v);
          RevokerKeeps(y, r, v.(stage := Locked, before := y.s.cancelled), ByRevoker(r));
        }
      case Third => TakenKeeps(y, r);
      case Taken => TakenActs(y, r, up, id);
      case Closed =>
      case Failed =>
      case _ =>
        NextSound(y, v);
        TablesKeep(y, r, y.s, v.(stage := Stage.Failed));
        StageKeeps(y, r);
    }
  }

  lemma {:induction false} WaitingSound(y: System, v: Revoker)
    requires RevokerSound(y, v) && v.stage.Waiting?
    ensures RevokerSound(y, v.(stage := Locked, before := y.s.cancelled))
  {
  }

  /** The next stage of a revocation that works, and what it leaves of the state. */
  function NextStage(y: System, v: Revoker): (Revoker, State) {
    match v.stage
    case Locked => (v.(stage := Listed, targets := Listing(y.s, v.kind)), y.s)
    case Listed => (v.(stage := First), FirstChange(y.s, v.kind))
    case First => (v.(stage := Second), SecondChange(y.s, v.kind))
    case _ => (v.(stage := Third), ThirdChange(y.s, v.kind))
  }

  lemma {:induction false} NextSound(y: System, v: Revoker)
    requires RowsSound(y) && RevokerSound(y, v)
    requires v.stage.Locked? || v.stage.Listed? || v.stage.First? || v.stage.Second?
    ensures RevokerSound(y, v.(stage := Stage.Failed))
    ensures var (next, after) := NextStage(y, v); RevokerSound(y.(s := after), next)
  {
  }

  lemma {:induction false} StageKeeps(y: System, r: nat)
    requires Inv(y) && r in y.revokers && RevokerSound(y, y.revokers[r])
    requires var stage := y.revokers[r].stage; stage.Locked? || stage.Listed? || stage.First? || stage.Second?
    ensures var (next, after) := NextStage(y, y.revokers[r]);
            Inv(MoveRevoker(y.(s := after), r, next).(lock := ByRevoker(r)))
  {
    hide ServersSound, RegistrySound, RowsSound, Cancelled, Spared, RevokerSound;
    var v := y.revokers[r];
    NextSound(y, v);
    var (next, after) := NextStage(y, v);
    TablesKeep(y, r, after, next);
  }

  lemma {:induction false} ElsewhereKeeps(y: System, z: System)
    requires Inv(y) && Elsewhere(y, z)
    ensures Inv(z)
  {
    RevokersElsewhere(y, z);
    SameRegistry(y.s, z.s);
    hide RevokersSound;
  }

  lemma {:induction false} RevokersElsewhere(y: System, z: System)
    requires RevokersSound(y) && Elsewhere(y, z)
    ensures RevokersSound(z)
  {
    forall r | r in z.revokers ensures RevokerSound(z, z.revokers[r]) {
      assert RevokerSound(y, y.revokers[r]);
    }
  }

  lemma {:induction false} LockKeeps(y: System, lock: Holder)
    requires Inv(y) && !lock.ByRevoker? && !y.lock.ByRevoker?
    ensures Inv(y.(lock := lock))
  {
    hide ServersSound, RegistrySound;
    SameServers(y, y.(lock := lock));
  }

  lemma {:induction false} ArriveKeeps(y: System, t: nat, hash: string, link: string)
    requires Inv(y) && t !in y.servers
    ensures Inv(y.(servers := y.servers[t := Server(hash, link, Arrived)]))
  {
  }

  lemma {:induction false} AskKeeps(y: System, r: nat, kind: Kind)
    requires Inv(y) && r !in y.revokers && (kind.OfGrant? ==> kind.grant in y.grants)
    ensures Inv(y.(revokers := y.revokers[r := Revoker(kind, Waiting, {}, {})]))
  {
    hide ServersSound, RegistrySound;
    SameServers(y, y.(revokers := y.revokers[r := Revoker(kind, Waiting, {}, {})]));
  }

  lemma {:induction false} NextKeeps(y: System, z: System)
    requires Inv(y) && Next(y, z)
    ensures Inv(z)
  {
    hide Inv, Serve, Revoke, Elsewhere;
    var action :| Does(y, action, z);

    match action {
      case Arrives(t, hash, link) => ArriveKeeps(y, t, hash, link);
      case Serves(t, now, up) => ServeKeeps(y, t, now, up);
      case Asks(r, kind) => AskKeeps(y, r, kind);
      case Revokes(r, up, id) => RevokeKeeps(y, r, up, id);
      case Stores => ElsewhereKeeps(y, z);
      case Locks => LockKeeps(y, ByOther);
      case Unlocks => LockKeeps(y, Nobody);
    }
  }

  lemma {:induction false} RunInv(trace: seq<System>, i: nat)
    requires Run(trace) && i < |trace|
    ensures Inv(trace[i])
  {
    hide Inv, Next;

    if i > 0 {
      RunInv(trace, i - 1);
      NextKeeps(trace[i - 1], trace[i]);
    } else {
      StartsSound(trace[0]);
    }
  }

  lemma {:induction false} StartsSound(y: System)
    requires Starts(y)
    ensures Inv(y)
  {
  }

  /** In every interleaving, once a revocation has returned, every held stream of a grant that it
      listed has been cancelled. */
  lemma {:induction false} RevocationReachesStreams(trace: seq<System>, i: nat, t: nat, r: nat)
    requires Run(trace) && i < |trace|
    requires t in trace[i].servers && trace[i].servers[t].place.Held?
    requires r in trace[i].revokers && trace[i].revokers[r].stage.Closed?
    requires trace[i].servers[t].place.grant in trace[i].revokers[r].targets
    ensures trace[i].servers[t].place.stream in trace[i].s.cancelled
  {
    hide ServersSound, RegistrySound, RevokersSound, RowsSound, LockSound, Spared;
    RunInv(trace, i);
  }

  /** At the moment a revocation returns, a held stream that was not cancelled when it began is
      cancelled if and only if its grant was listed at the start. */
  lemma {:induction false} ReturnExactly(trace: seq<System>, i: nat, t: nat, r: nat)
    requires Run(trace) && i + 1 < |trace|
    requires r in trace[i].revokers && trace[i].revokers[r].stage.Taken?
    requires r in trace[i + 1].revokers && trace[i + 1].revokers[r].stage.Closed?
    requires t in trace[i + 1].servers && trace[i + 1].servers[t].place.Held?
    requires trace[i + 1].servers[t].place.stream !in trace[i + 1].revokers[r].before
    ensures trace[i + 1].servers[t].place.stream in trace[i + 1].s.cancelled <==>
            trace[i + 1].servers[t].place.grant in trace[i + 1].revokers[r].targets
  {
    hide ServersSound, RegistrySound, RevokersSound, RowsSound;
    RunInv(trace, i);
    RunInv(trace, i + 1);
    Returned(trace[i], trace[i + 1], r);
  }

  /** Only its own last action makes a revocation return, and that changes no stream or request. */
  lemma {:induction false} Returned(y: System, z: System, r: nat)
    requires Next(y, z) && LockSound(y)
    requires r in y.revokers && y.revokers[r].stage.Taken? && r in z.revokers && z.revokers[r].stage.Closed?
    ensures z == To(y, r, Closed).(lock := Nobody)
  {
    hide Listing, FirstChange, SecondChange, ThirdChange, DropGrantStream, Usable, Touched;
    var action :| Does(y, action, z);
  }

  // ----- a grant that is not listed

  /** The rows of one grant and its static token. */
  function WithRows(y: System): System {
    y.(s := y.s.(db := y.s.db.(
         grants := map["g" := Grant("static:ci", "desk", 0, None)],
         tokens := map["h" := Token(Static, "g", "desk", 1, false)])),
       grants := {"g"}, rows := map["h" := "g"])
  }

  function Nothing(): System {
    System(State(Tables(map[], map[], map[], map[]), map[], map[], map[], {}, 0), map[], map[], Nobody, {}, {}, map[])
  }

  /** A link's revocation lists no grant; then a static token for the link is created. */
  function ListedRun(): seq<System> {
    var y1 := Nothing().(revokers := map[0 := Revoker(OfLink("desk"), Waiting, {}, {})]);
    var y2 := Revoke(y1, 0, true, 0);
    var y3 := Revoke(y2, 0, true, 0);
    [Nothing(), y1, y2, y3, WithRows(y3)]
  }

  lemma {:induction false} ListedRuns()
    ensures var l := ListedRun();
            && Starts(l[0]) && Next(l[0], l[1]) && Next(l[1], l[2]) && Next(l[2], l[3]) && Next(l[3], l[4])
            && l[4].servers == map[] && l[4].lock == ByRevoker(0) && l[4].taken == {}
            && l[4].revokers == map[0 := Revoker(OfLink("desk"), Listed, {}, {})]
            && l[4] == WithRows(l[4]) && l[4].s.streams == map[] && l[4].s.cancelled == {} && l[4].s.nextStream == 0
  {
    var l := ListedRun();
    assert Does(l[0], Asks(0, OfLink("desk")), l[1]) by {
      assert l[1].revokers == l[0].revokers[0 := Revoker(OfLink("desk"), Waiting, {}, {})];
    }
    assert Does(l[1], Revokes(0, true, 0), l[2]);
    assert Does(l[2], Revokes(0, true, 0), l[3]);
    assert GrantsOn(l[2].s.db.grants, {"desk"}) == {};
    assert l[3].revokers == map[0 := Revoker(OfLink("desk"), Listed, {}, {})];
    assert Does(l[3], Stores, l[4]);
  }

  /** A request with that token is served up to its second check. */
  function Served(y: System, n: nat): System
    ensures 0 in Served(y, n).servers
  {
    if n == 0 then y.(servers := y.servers[0 := Server("h", "desk", Arrived)]) else Serve(Served(y, n - 1), 0, 0, true)
  }

  lemma {:induction false} ServedNext(y: System)
    requires y.servers == map[]
    ensures Next(y, Served(y, 0)) && forall n: nat :: Next(Served(y, n), Served(y, n + 1))
  {
    hide Serve;
    assert Does(y, Arrives(0, "h", "desk"), Served(y, 0));
    forall n: nat ensures Next(Served(y, n), Served(y, n + 1)) {
      assert Does(Served(y, n), Serves(0, 0, true), Served(y, n + 1));
    }
  }

  function At(y: System, place: Place): System {
    y.(servers := map[0 := Server("h", "desk", place)])
  }

  lemma {:induction false} ServedAuthorized(y: System)
    requires y == WithRows(y) && y.servers == map[]
    ensures Served(y, 3) == At(y.(s := Touched(y.s, "g", 0)), Authorized("g"))
  {
    assert Served(y, 0) == At(y, Arrived);
    assert Served(y, 1) == Serve(At(y, Arrived), 0, 0, true) == At(y, TokenRead("g"));
    assert Served(y, 2) == Serve(At(y, TokenRead("g")), 0, 0, true) == At(y, GrantRead("g"));
    assert Served(y, 3) == Serve(At(y, GrantRead("g")), 0, 0, true);
  }

  lemma {:induction false} ServedRuns(y: System)
    requires y == WithRows(y) && y.servers == map[] && y.s.streams == map[] && y.s.nextStream == 0
    ensures Next(y, Served(y, 0)) && forall n: nat :: Next(Served(y, n), Served(y, n + 1))
    ensures Served(y, 6).servers == map[0 := Server("h", "desk", Held("g", 0))]
    ensures var z := Served(y, 6);
            && z.s.db.grants.Keys == {"g"} && z.s.db.grants["g"].server == "desk"
            && z == y.(s := y.s.(db := z.s.db, streams := map["g" := [0]], nextStream := 1), servers := z.servers)
  {
    hide Next, Serve;
    ServedNext(y);
    ServedAuthorized(y);
    ServedOpen(Served(y, 3));
    var y4 := Served(y, 4);
    ServedHeld(y4);
    assert Served(y, 5) == Serve(y4, 0, 0, true);
    assert Served(y, 6) == At(y4, Held("g", 0));
  }

  lemma {:induction false} ServedHeld(y: System)
    requires y.servers == map[0 := Server("h", "desk", Opened("g", 0))]
    requires y.s.db.tokens == map["h" := Token(Static, "g", "desk", 1, false)] && "g" in y.s.db.grants
    ensures Serve(Serve(y, 0, 0, true), 0, 0, true) == At(y, Held("g", 0))
  {
    assert Serve(y, 0, 0, true) == At(y, TokenReread("g", 0));
  }

  lemma {:induction false} ServedOpen(y: System)
    requires y.servers == map[0 := Server("h", "desk", Authorized("g"))] && y.s.streams == map[] && y.s.nextStream == 0
    ensures Serve(y, 0, 0, true) ==
            y.(s := y.s.(streams := map["g" := [0]], nextStream := 1),
               servers := map[0 := Server("h", "desk", Opened("g", 0))])
  {
    assert y.s.streams["g" := [] + [0]] == map["g" := [0]] by { assert [] + [0] == [0]; }
  }

  /** The revocation goes on to its end. */
  function Finished(y: System, n: nat): System
    requires 0 in y.revokers
    ensures 0 in Finished(y, n).revokers
  {
    if n == 0 then y else Revoke(Finished(y, n - 1), 0, true, 0)
  }

  lemma {:induction false} FinishedRuns(y: System)
    requires y.revokers == map[0 := Revoker(OfLink("desk"), Listed, {}, {})] && y.taken == {} && y.lock == ByRevoker(0)
    requires y.s.db.grants.Keys == {"g"} && y.s.db.grants["g"].server == "desk"
    ensures forall n: nat :: Next(Finished(y, n), Finished(y, n + 1))
    ensures var z := Finished(y, 5);
            && z.revokers[0].stage.Closed? && z.s.db.grants == map[]
            && z.servers == y.servers && z.s.cancelled == y.s.cancelled
  {
    forall n: nat ensures Next(Finished(y, n), Finished(y, n + 1)) {
      assert Does(Finished(y, n), Revokes(0, true, 0), Finished(y, n + 1));
    }
    FinishedTables(y);
    var y3 := Finished(y, 3);
    var y4 := Finished(y, 4);
    assert StreamsOf(y3.s.streams, {}) == {} && y4.taken == {};
    assert y4.revokers[0].stage.Taken? && y4.s.db.grants == map[];
    assert Finished(y, 5) == To(y4, 0, Closed).(lock := Nobody);
  }

  lemma {:induction false} FinishedTables(y: System)
    requires y.revokers == map[0 := Revoker(OfLink("desk"), Listed, {}, {})] && y.taken == {} && y.lock == ByRevoker(0)
    requires y.s.db.grants.Keys == {"g"} && y.s.db.grants["g"].server == "desk"
    ensures var z := Finished(y, 3);
            && z.revokers[0] == Revoker(OfLink("desk"), Third, {}, {}) && z.s.db.grants == map[] && z.taken == {}
            && z.lock == y.lock && z.servers == y.servers && z.s.cancelled == y.s.cancelled
  {
    assert GrantsOff(y.s.db.grants, "desk") == map[];
    var y1 := Finished(y, 1);
    assert Finished(y, 0) == y && y1 == Revoke(y, 0, true, 0);
    assert y1 == To(y, 0, First).(s := FirstChange(y.s, OfLink("desk")));
    var y2 := Finished(y, 2);
    assert y2 == To(y1, 0, Second).(s := SecondChange(y1.s, OfLink("desk")));
    assert Finished(y, 3) == To(y2, 0, Third).(s := ThirdChange(y2.s, OfLink("desk")));
  }

  function ServedRun(y: System, n: nat): seq<System> {
    if n == 0 then [Served(y, 0)] else ServedRun(y, n - 1) + [Served(y, n)]
  }

  function FinishedRun(y: System, n: nat): seq<System>
    requires 0 in y.revokers
  {
    if n == 0 then [] else FinishedRun(y, n - 1) + [Finished(y, n)]
  }

  lemma {:induction false} RunsMeet(first: seq<System>, second: seq<System>)
    requires first != [] && second != []
    requires Steps(first) && Steps(second) && Next(first[|first| - 1], second[0])
    ensures Steps(first + second)
  {
    hide Next;
    var all := first + second;
    forall i | 0 <= i < |all| - 1 ensures Next(all[i], all[i + 1]) {
      assert i + 1 < |first| ==> all[i] == first[i] && all[i + 1] == first[i + 1];
      assert i >= |first| ==> all[i] == second[i - |first|] && all[i + 1] == second[i + 1 - |first|];
    }
  }

  ghost predicate Steps(trace: seq<System>) {
    forall i :: 0 <= i < |trace| - 1 ==> Next(trace[i], trace[i + 1])
  }

  lemma {:induction false} ServedSteps(y: System, n: nat)
    requires forall k: nat :: Next(Served(y, k), Served(y, k + 1))
    ensures var run := ServedRun(y, n);
            Steps(run) && |run| == n + 1 && run[0] == Served(y, 0) && run[n] == Served(y, n)
  {
    hide Next, Served;

    if n > 0 {
      ServedSteps(y, n - 1);
      assert Next(Served(y, n - 1), Served(y, n - 1 + 1));
      RunsMeet(ServedRun(y, n - 1), [Served(y, n)]);
    }
  }

  lemma {:induction false} FinishedSteps(y: System, n: nat)
    requires 0 in y.revokers && n > 0 && forall k: nat :: Next(Finished(y, k), Finished(y, k + 1))
    ensures var run := FinishedRun(y, n);
            Steps(run) && |run| == n && run[0] == Finished(y, 1) && run[n - 1] == Finished(y, n)
  {
    hide Next, Finished;

    if n > 1 {
      FinishedSteps(y, n - 1);
      assert Next(Finished(y, n - 1), Finished(y, n - 1 + 1));
      RunsMeet(FinishedRun(y, n - 1), [Finished(y, n)]);
    } else {
      assert FinishedRun(y, 1) == [] + [Finished(y, 1)];
    }
  }

  /** A run in which a static token is created, and a request with it served, between the listing
      and the deletion of a link's revocation: the revocation returns, the grant is gone, and the
      stream is still open. */
  lemma {:induction false} EscapeExample() returns (trace: seq<System>)
    ensures Run(trace)
    ensures var y := trace[|trace| - 1];
            && 0 in y.revokers && y.revokers[0].kind == OfLink("desk") && y.revokers[0].stage.Closed?
            && 0 in y.servers && y.servers[0] == Server("h", "desk", Held("g", 0))
            && "g" !in y.s.db.grants && 0 !in y.s.cancelled
  {
    hide Next, Starts, Served, Finished, ListedRun, Revoke;
    var l := ListedRun();
    ListedRuns();
    assert |l| == 5 by { ListedLength(); }
    ServedRuns(l[4]);
    ServedSteps(l[4], 6);
    var held := Served(l[4], 6);
    FinishedRuns(held);
    FinishedSteps(held, 5);
    FinishedKind(held, 5);
    FinishedFirst(held);
    RunsMeet(l, ServedRun(l[4], 6));
    RunsMeet(l + ServedRun(l[4], 6), FinishedRun(held, 5));
    trace := l + ServedRun(l[4], 6) + FinishedRun(held, 5);
  }

  lemma {:induction false} ListedLength()
    ensures |ListedRun()| == 5
  {
  }

  lemma {:induction false} FinishedFirst(y: System)
    requires 0 in y.revokers
    ensures Finished(y, 0) == y
  {
  }

  lemma {:induction false} FinishedKind(y: System, n: nat)
    requires 0 in y.revokers
    ensures Finished(y, n).revokers[0].kind == y.revokers[0].kind
  {
    if n > 0 {
      FinishedKind(y, n - 1);
    }
  }

  // ----- without interference

  /** The rest of a revocation that has taken its streams: cancel each of them, and return. */
  lemma {:induction false} CancelAll(y: System, r: nat) returns (z: System)
    requires r in y.revokers && y.revokers[r].stage.Taken?
    ensures z == To(y, r, Closed).(s := y.s.(cancelled := y.s.cancelled + y.taken), taken := {}, lock := Nobody)
    decreases |y.taken|
  {
    if y.taken == {} {
      z := Revoke(y, r, true, 0);
      assert y.s.cancelled + {} == y.s.cancelled;
    } else {
      var id :| id in y.taken;
      z := CancelAll(Revoke(y, r, true, id), r);
      assert y.s.cancelled + {id} + (y.taken - {id}) == y.s.cancelled + y.taken;
    }
  }

  /** The actions of a revocation in a row, when every statement completes. */
  lemma {:induction false} AllActions(y: System, r: nat) returns (z: System)
    requires r in y.revokers && y.revokers[r].stage.Waiting? && y.lock.Nobody? && y.taken == {}
    ensures var kind := y.revokers[r].kind;
            var changed := ThirdChange(SecondChange(FirstChange(y.s, kind), kind), kind);
            z.s == CloseGrantStreams(changed, Listing(y.s, kind))
    ensures r in z.revokers && z.revokers[r].stage.Closed? && z.lock.Nobody?
  {
    var kind := y.revokers[r].kind;
    var listed := Revoke(Revoke(y, r, true, 0), r, true, 0);
    var changed := Revoke(Revoke(Revoke(listed, r, true, 0), r, true, 0), r, true, 0);
    StreamsAside(y.s, kind);
    z := CancelAll(Revoke(changed, r, true, 0), r);
  }

  lemma {:induction false} StreamsAside(s: State, kind: Kind)
    ensures var changed := ThirdChange(SecondChange(FirstChange(s, kind), kind), kind);
            changed == s.(db := changed.db, codes := changed.codes)
  {
  }

  /** Without interference, the actions of a revocation are the operation of its kind. */
  lemma {:induction false} RevokeAlone(y: System, r: nat) returns (z: System)
    requires r in y.revokers && y.revokers[r].stage.Waiting? && y.lock.Nobody? && y.taken == {}
    ensures r in z.revokers && z.revokers[r].stage.Closed? && z.lock.Nobody?
    ensures z.s == match y.revokers[r].kind
                   case OfGrant(grant) => RevokeGrantInner(y.s, grant, true, true).0
                   case OfLink(link) => RevokeServer(y.s, link, []).0
                   case OfAll => RevokeAll(y.s, []).0
  {
    z := AllActions(y, r);
    hide FirstChange, SecondChange, ThirdChange, Listing;
    SameEnd(y.s, y.revokers[r].kind);
  }

  lemma {:induction false} SameEnd(s: State, kind: Kind)
    ensures var changed := ThirdChange(SecondChange(FirstChange(s, kind), kind), kind);
            CloseGrantStreams(changed, Listing(s, kind)) ==
            match kind
            case OfGrant(grant) => RevokeGrantInner(s, grant, true, true).0
            case OfLink(link) => RevokeServer(s, link, []).0
            case OfAll => RevokeAll(s, []).0
  {
    if kind.OfLink? {
      assert Completed([]) == 5;
      RevokeServersOne(s, kind.link, 5);
    }
  }

  /** Two actions of a request alone. */
  function ServeTwice(y: System, t: nat, now: int): (z: System)
    requires t in y.servers
    ensures t in z.servers
  {
    Serve(Serve(y, t, now, true), t, now, true)
  }

  /** The bearer of this hash is accepted, for this grant. */
  predicate Accepts(s: State, hash: string, link: string, now: int, grant: string) {
    Usable(s, hash, link, now) && s.db.tokens[hash].grant == grant && grant in s.db.grants
  }

  lemma {:induction false} EndedStays(y: System, t: nat, now: int)
    requires t in y.servers && y.servers[t].place.Ended?
    ensures ServeTwice(y, t, now) == y
  {
  }

  lemma {:induction false} CheckedOnce(y: System, t: nat, now: int)
    requires t in y.servers && y.servers[t].place.Arrived?
    ensures var (z, server) := (ServeTwice(y, t, now), y.servers[t]);
            && z.s == y.s && z.servers[t] == server.(place := z.servers[t].place)
            && if exists grant :: Accepts(y.s, server.hash, server.link, now, grant)
               then z.servers[t].place == GrantRead(y.s.db.tokens[server.hash].grant)
               else z.servers[t].place.Ended?
  {
    var server := y.servers[t];
    assert Usable(y.s, server.hash, server.link, now) && y.s.db.tokens[server.hash].grant in y.s.db.grants ==>
        Accepts(y.s, server.hash, server.link, now, y.s.db.tokens[server.hash].grant);
  }

  lemma {:induction false} OpenedAlone(y: System, t: nat, now: int)
    requires t in y.servers && y.servers[t].place.GrantRead?
    ensures var (z, grant) := (ServeTwice(y, t, now), y.servers[t].place.grant);
            var (after, stream) := OpenGrantStream(Touched(y.s, grant, now), grant);
            z.s == after && z.servers[t] == y.servers[t].(place := Opened(grant, stream))
  {
  }

  lemma {:induction false} CheckedAgain(y: System, t: nat, now: int)
    requires t in y.servers && y.servers[t].place.Opened?
    requires Accepts(y.s, y.servers[t].hash, y.servers[t].link, now, y.servers[t].place.grant)
    ensures var (z, place) := (ServeTwice(y, t, now), y.servers[t].place);
            z.s == y.s && z.servers[t].place == Held(place.grant, place.stream)
  {
  }

  lemma {:induction false} StillAccepts(s: State, hash: string, link: string, now: int, grant: string)
    requires Accepts(s, hash, link, now, grant)
    ensures Accepts(OpenGrantStream(Touched(s, grant, now), grant).0, hash, link, now, grant)
  {
  }

  lemma {:induction false} AcceptsBearer(lib: Library, s: State, bearer: string, link: string, now: int, grant: string)
    ensures Accepts(s, lib.sha256(bearer), link, now, grant) <==>
            StillAllowed(lib, s, bearer, link, now, []) == Done(Some(grant))
    ensures StillAllowed(lib, s, bearer, link, now, []).Done?
    ensures StillAllowed(lib, s, bearer, link, now, []) == Done(Some(grant)) ==>
              Authorize(lib, s, bearer, link, now, []).0 == Touched(s, grant, now)
  {
  }

  /** Without interference a request whose bearer is accepted is authorized, and its stream is opened and
      held; one whose bearer is not ends at once and changes nothing. */
  lemma {:induction false} ServeAlone(lib: Library, y: System, t: nat, bearer: string, now: int)
    requires t in y.servers && y.servers[t].place.Arrived? && y.servers[t].hash == lib.sha256(bearer)
    ensures var z := ServeTwice(ServeTwice(ServeTwice(y, t, now), t, now), t, now);
            var link := y.servers[t].link;
            match StillAllowed(lib, y.s, bearer, link, now, [])
            case Done(Some(grant)) =>
              && z.servers[t].place == Held(grant, y.s.nextStream)
              && z.s == OpenGrantStream(Authorize(lib, y.s, bearer, link, now, []).0, grant).0
            case _ => z.servers[t].place.Ended? && z.s == y.s
  {
    hide Accepts, ServeTwice, StillAllowed, Authorize, Touched;
    var hash, link := y.servers[t].hash, y.servers[t].link;
    var one := ServeTwice(y, t, now);
    CheckedOnce(y, t, now);
    forall grant { AcceptsBearer(lib, y.s, bearer, link, now, grant); }

    if grant :| Accepts(y.s, hash, link, now, grant) {
      SameGrant(y.s, hash, link, now, grant);
      OpenedAlone(one, t, now);
      StillAccepts(y.s, hash, link, now, grant);
      CheckedAgain(ServeTwice(one, t, now), t, now);
      SameNumber(y.s, grant, now);
    } else {
      EndedStays(one, t, now);
    }
  }

  lemma {:induction false} SameGrant(s: State, hash: string, link: string, now: int, grant: string)
    requires Accepts(s, hash, link, now, grant)
    ensures hash in s.db.tokens && s.db.tokens[hash].grant == grant
  {
  }

  lemma {:induction false} SameNumber(s: State, grant: string, now: int)
    ensures OpenGrantStream(Touched(s, grant, now), grant).1 == s.nextStream
  {
  }
}
