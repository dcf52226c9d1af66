/** When a token can outlive its grant. Every operation but one keeps each unrevoked token
    with an existing grant; `revoke_server` deletes the grants first, so a failure between
    its second and third statements strands the tokens. They are still refused. */
module Orphans {
  import opened Prelude
  import opened Store
  import opened Access
  import opened Effects
  import opened Apps
  import opened Reload
  import opened Runs
  import Flow
  import Tokens
  import Guarantees

  /** Every unrevoked token names an existing grant. */
  ghost predicate NoOrphans(s: State) {
    forall h :: h in s.db.tokens && !s.db.tokens[h].revoked ==> s.db.tokens[h].grant in s.db.grants
  }

  /** How far each `revoke_server` call of this operation gets. */
  function RevokesMade(w: World, e: Event): map<string, nat> {
    match e.op
    case RevokeServer(server) => map[server := Completed(e.weather)]
    case Apply(loaded, weathers) =>
      if loaded.None? || !Up(e.weather, 0) || !Up(e.weather, 1) || !Up(e.weather, 2) then map[]
      else
        var compiled := SignaturesOf(Plans(loaded.value));
        Progress(ToRevoke(w.s.db, LoadedLinks(loaded.value), compiled), weathers)
    case _ => map[]
  }

  /** Some call deleted the grants of a link with a live token, and failed to revoke the token. */
  ghost predicate Strands(s: State, reached: map<string, nat>) {
    exists h :: h in s.db.tokens && !s.db.tokens[h].revoked
      && s.db.tokens[h].server in reached && reached[s.db.tokens[h].server] == 2
  }

  /** A token whose grant exists is for the grant's link. */
  ghost predicate OnOwnLink(s: State) {
    forall h :: h in s.db.tokens && s.db.tokens[h].grant in s.db.grants ==>
      s.db.grants[s.db.tokens[h].grant].server == s.db.tokens[h].server
  }

  lemma {:induction false} ReachableOnOwnLink(lib: Library, w: World)
    requires Guarantees.Reachable(lib, w)
    ensures OnOwnLink(w.s)
  {
    hide Flow.Sound, Tokens.ChainsSound, Tokens.UsedKept;
    Guarantees.ReachableGood(lib, w);
  }

  lemma {:induction false} ServersStrand(s: State, reached: map<string, nat>)
    requires NoOrphans(s) && OnOwnLink(s)
    ensures NoOrphans(RevokeServers(s, reached)) <==> !Strands(s, reached)
  {
    var after := RevokeServers(s, reached);

    if Strands(s, reached) {
      var h :| h in s.db.tokens && !s.db.tokens[h].revoked
        && s.db.tokens[h].server in reached && reached[s.db.tokens[h].server] == 2;
      assert h in after.db.tokens && !after.db.tokens[h].revoked;
    } else {
      forall h | h in after.db.tokens && !after.db.tokens[h].revoked
        ensures after.db.tokens[h].grant in after.db.grants
      {
        var server := s.db.tokens[h].server;
        assert !(server in reached && reached[server] == 2);
      }
    }
  }

  predicate ReadsFail(e: Event)
    requires e.op.Apply?
  {
    e.op.loaded.None? || !Up(e.weather, 0) || !Up(e.weather, 1) || !Up(e.weather, 2)
  }

  lemma {:induction false} AppliedStrands(s: State, w: World, e: Event)
    requires e.op.Apply? && s == w.s && NoOrphans(s) && OnOwnLink(s)
    ensures NoOrphans(Applied(s, w.plans, e.op.loaded, e.weather, e.op.weathers).0) <==> !Strands(s, RevokesMade(w, e))
  {
    if ReadsFail(e) {
      NoneStranded(s);
    } else {
      ServersStrand(s, RevokesMade(w, e));
      SameTables(s, w, e);
    }
  }

  lemma {:induction false} SameTables(s: State, w: World, e: Event)
    requires e.op.Apply? && s == w.s && !ReadsFail(e)
    ensures var after := Applied(s, w.plans, e.op.loaded, e.weather, e.op.weathers).0;
            var revoked := RevokeServers(s, RevokesMade(w, e));
            && after.db.tokens == revoked.db.tokens && after.db.grants == revoked.db.grants
            && after.db.pending == revoked.db.pending && after.codes == revoked.codes
  {
    hide RevokeServers, ToRevoke, Progress, Remembered, SignaturesOf, Plans, LoadedLinks, RevokesCleanly;
  }

  lemma {:induction false} NoneStranded(s: State)
    ensures !Strands(s, map[])
  {
  }

  lemma {:induction false} InnerKeeps(s: State, id: string, after: State)
    requires NoOrphans(s) && InnerEffect(s, id, after)
    ensures NoOrphans(after)
  {
  }

  lemma {:induction false} SweepKeeps(s: State, now: int, weather: seq<bool>)
    requires NoOrphans(s)
    ensures NoOrphans(Access.Sweep(s, now, weather))
  {
    var after := Access.Sweep(s, now, weather);
    forall h | h in after.db.tokens && !after.db.tokens[h].revoked ensures after.db.tokens[h].grant in after.db.grants {
      assert after.db.tokens[h].grant in Families(after.db.tokens);
    }
  }

  lemma {:induction false} RevokeAllKeeps(s: State, weather: seq<bool>)
    requires NoOrphans(s)
    ensures NoOrphans(Access.RevokeAll(s, weather).0)
  {
  }

  lemma {:induction false} ExchangeKeeps(lib: Library, s: State, code: string, verifier: string, client: string,
                                         redirectUri: string, grant: string, pair: TokenPair, now: int,
                                         after: State)
    requires NoOrphans(s) && ExchangeEffect(lib, s, code, verifier, client, redirectUri, grant, pair, now, after)
    ensures NoOrphans(after)
  {
  }

  lemma {:induction false} RefreshKeeps(lib: Library, s: State, token: string, pair: TokenPair, now: int, after: State)
    requires NoOrphans(s) && RefreshEffect(lib, s, token, pair, now, after)
    ensures NoOrphans(after)
  {
    if !Rotated(lib, s, lib.sha256(token), pair, now, after) && after != s {
      InnerKeeps(s, s.db.tokens[lib.sha256(token)].grant, after);
    }
  }

  lemma {:induction false} OthersKeep(lib: Library, w: World, e: Event)
    requires NoOrphans(w.s) && !Adds(e.op) && !e.op.RevokeServer? && !e.op.Apply?
    ensures NoOrphans(AfterOther(lib, w, e))
  {
    var s := w.s;

    match e.op {
      case Refresh(token, pair) =>
        RefreshSummary(lib, s, token, pair, e.now, e.weather);
        RefreshKeeps(lib, s, token, pair, e.now, RefreshToken(lib, s, token, pair, e.now, e.weather).0);
      case Authorize(bearer, server) => Flow.AuthorizeShrinks(lib, s, bearer, server, e.now, e.weather);
      case OpenStream(grant) => Flow.StreamsShrink(s, grant, 0);
      case DropStream(grant, stream) => Flow.StreamsShrink(s, grant, stream);
      case Revoke(token) =>
        var hash := lib.sha256(token);
        if hash in s.db.tokens {
          var id := s.db.tokens[hash].grant;
          InnerSummary(s, id, Up(e.weather, 2), Up(e.weather, 3));
          InnerKeeps(s, id, RevokeGrantInner(s, id, Up(e.weather, 2), Up(e.weather, 3)).0);
        }
      case RevokeGrant(id) =>
        InnerSummary(s, id, Up(e.weather, 0), Up(e.weather, 1));
        InnerKeeps(s, id, RevokeGrantInner(s, id, Up(e.weather, 0), Up(e.weather, 1)).0);
      case RevokeAll => RevokeAllKeeps(s, e.weather);
      case Sweep => SweepKeeps(s, e.now, e.weather);
      case Restart =>
    }
  }

  lemma {:induction false} AddersKeep(lib: Library, w: World, e: Event)
    requires NoOrphans(w.s) && Adds(e.op)
    ensures NoOrphans(AfterAdding(lib, w.s, e))
  {
    match e.op {
      case Begin(request, nonce, code) => BeginSummary(lib, w.s, request, nonce, code, e.now, e.weather);
      case ApproveWithCode(id, typed, cookie, minted) =>
        ApproveSummary(lib, w.s, id, typed, cookie, minted, e.now, e.weather);
        Tokens.ApproveWeakens(w.s, id, minted, e.now, Compares(w.s, id, e.now, e.weather), AfterAdding(lib, w.s, e));
      case ExchangeCode(code, verifier, resource, client, redirectUri, grant, pair) =>
        ExchangeSummary(lib, w.s, code, verifier, resource, client, redirectUri, grant, pair, e.now, e.weather);
        ExchangeKeeps(lib, w.s, code, verifier, client, redirectUri, grant, pair, e.now, AfterAdding(lib, w.s, e));
      case CreateStaticToken(server, name, ttl, grant, token) =>
        StaticSummary(lib, w.s, server, name, ttl, grant, token, e.now, e.weather);
    }
  }

  /** The exact condition: an operation keeps every unrevoked token with an existing grant
      unless one of its `revoke_server` calls stops right after deleting the grants of a link
      that has a live token. */
  lemma {:induction false} StrandedExactly(lib: Library, w: World, e: Event)
    requires Guarantees.Reachable(lib, w) && NoOrphans(w.s)
    ensures NoOrphans(After(lib, w, e)) <==> !Strands(w.s, RevokesMade(w, e))
  {
    hide NoOrphans, Strands, OnOwnLink, Guarantees.Reachable, RevokeServers, Applied;
    ReachableOnOwnLink(lib, w);

    if e.op.RevokeServer? {
      ServersStrand(w.s, RevokesMade(w, e));
    } else if e.op.Apply? {
      AppliedStrands(w.s, w, e);
    } else {
      NoneStranded(w.s);

      if Adds(e.op) {
        AddersKeep(lib, w, e);
      } else {
        OthersKeep(lib, w, e);
      }
    }
  }

  /** A run of two operations that strands a token: a static token is created for a link, and
      revoking the link fails at its third statement. */
  lemma {:induction false} StrandedExample(lib: Library)
    ensures var create := Event(CreateStaticToken("notes", "ci", 1, "g", "t"), 0, []);
            var revoke := Event(RevokeServer("notes"), 0, [true, true, false]);
            var before := Step(lib, Start(0), create);
            && AllEnabled(lib, Start(0), [create, revoke])
            && NoOrphans(before.s) && !NoOrphans(Step(lib, before, revoke).s)
  {
    var create := Event(CreateStaticToken("notes", "ci", 1, "g", "t"), 0, []);
    var revoke := Event(RevokeServer("notes"), 0, [true, true, false]);
    var before := Step(lib, Start(0), create);
    var after := Step(lib, before, revoke);
    var hash := lib.sha256("t");
    assert before.s.db.tokens == map[hash := Token(Static, "g", "notes", 1, false)];
    assert before.s.db.grants == map["g" := Grant("static:" + "ci", "notes", 0, None)];
    assert Completed([true, true, false]) == 2;
    assert hash in after.s.db.tokens && !after.s.db.tokens[hash].revoked;
    assert "g" !in after.s.db.grants;
    assert [create, revoke][1..] == [revoke];
    assert [revoke][1..] == [];
  }

  /** Creating a static token stores two rows and takes no lock. When the link is revoked between
      them, the token is stranded from its first moment, and refused. */
  lemma {:induction false} TornStaticRefused(lib: Library, s: State, server: string, name: string, grant: string,
                                             token: string, expiresAt: int, now: int)
    requires grant !in s.db.grants && lib.sha256(token) !in s.db.tokens
    ensures var stored := s.(db := s.db.(grants := s.db.grants[grant := Grant("static:" + name, server, now, None)]));
            var revoked := Access.RevokeServer(stored, server, []).0;
            var row := Token(Static, grant, server, expiresAt, false);
            var after := revoked.(db := revoked.db.(tokens := revoked.db.tokens[lib.sha256(token) := row]));
            !NoOrphans(after) && forall later :: StillAllowed(lib, after, token, server, later, []) == Done(None)
  {
    var stored := s.(db := s.db.(grants := s.db.grants[grant := Grant("static:" + name, server, now, None)]));
    var revoked := Access.RevokeServer(stored, server, []).0;
    assert Completed([]) == 5 && grant !in revoked.db.grants;
    var row := Token(Static, grant, server, expiresAt, false);
    var after := revoked.(db := revoked.db.(tokens := revoked.db.tokens[lib.sha256(token) := row]));
    assert lib.sha256(token) in after.db.tokens && !after.db.tokens[lib.sha256(token)].revoked;
  }
}
