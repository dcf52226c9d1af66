/** Applying a configuration, from `Reloader::apply` of src/serve.rs. */
module Reload {
  import opened Prelude
  import opened Store
  import opened Access
  import opened Links
  import opened Apps
  import opened Auth
  import Policy

  /** The last plan of a name decides, as collecting into an IndexMap does. */
  function SignaturesOf(plans: seq<LinkPlan>): map<string, string> {
    if plans == [] then map[]
    else
      var last := plans[|plans| - 1];
      SignaturesOf(plans[..|plans| - 1])[last.name := Signature(last)]
  }

  lemma {:induction false} SignaturesOfUnique(plans: seq<LinkPlan>)
    requires UniquePlanNames(plans)
    ensures forall plan :: plan in plans ==> Lookup(SignaturesOf(plans), plan.name) == Some(Signature(plan))
    ensures forall name :: name in SignaturesOf(plans) ==> exists plan :: plan in plans && plan.name == name
  {
    if plans != [] {
      var rest := plans[..|plans| - 1];
      SignaturesOfUnique(rest);
      assert plans == rest + [plans[|plans| - 1]];
    }
  }

  /** What is remembered for every link the file names: its new signature, or else its old one. */
  function Remembered(links: set<string>, compiled: map<string, string>, before: map<string, string>)
    : map<string, string>
  {
    map name | name in links && (name in compiled || name in before) ::
      if name in compiled then compiled[name] else before[name]
  }

  /** Every server a grant, a request or a remembered signature names. */
  function Known(db: Tables): set<string> {
    (set g | g in db.grants :: db.grants[g].server)
    + (set id | id in db.pending :: db.pending[id].server)
    + db.signatures.Keys
  }

  /** Links that are gone, and links whose signature is not the remembered one. */
  function ToRevoke(db: Tables, links: set<string>, compiled: map<string, string>): set<string> {
    (set server | server in Known(db) && server !in links)
    + (set server | server in compiled && Lookup(db.signatures, server) != Some(compiled[server]))
  }

  function Weather(weathers: map<string, seq<bool>>, server: string): seq<bool> {
    if server in weathers then weathers[server] else []
  }

  function Progress(servers: set<string>, weathers: map<string, seq<bool>>): map<string, nat> {
    map server | server in servers :: Completed(Weather(weathers, server))
  }

  lemma OthersKeepGrants(s: State, done: set<string>, server: string, weathers: map<string, seq<bool>>)
    requires server !in done
    ensures GrantsOn(RevokeServers(s, Progress(done, weathers)).db.grants, {server}) == GrantsOn(s.db.grants, {server})
  {
  }

  /** One more `revoke_server` call in the loop of `apply`. */
  lemma RevokeNext(s: State, done: set<string>, server: string, weathers: map<string, seq<bool>>)
    requires server !in done
    ensures RevokeServers(RevokeServers(s, Progress(done, weathers)),
                          map[server := Completed(Weather(weathers, server))])
            == RevokeServers(s, Progress(done + {server}, weathers))
  {
    var n := Completed(Weather(weathers, server));
    var reached := Progress(done, weathers);
    assert Progress(done + {server}, weathers) == reached[server := n];
    RevokeServersAdd(s, reached, server, n);
    RevokeServersOne(RevokeServers(s, reached), server, n);
  }

  /** `weather` is for the statements of `apply` itself, `weathers` for each `revoke_server`.
      The new plans take effect only when everything before them succeeded. */
  function Applied(s: State, plans: seq<LinkPlan>, loaded: Option<Loaded>, weather: seq<bool>,
                 weathers: map<string, seq<bool>>): (State, seq<LinkPlan>, bool)
  {
    if loaded.None? || !Up(weather, 0) || !Up(weather, 1) || !Up(weather, 2) then (s, plans, false)
    else
      var links := LoadedLinks(loaded.value);
      var next := Plans(loaded.value);
      var compiled := SignaturesOf(next);
      var servers := ToRevoke(s.db, links, compiled);
      var revoked := RevokeServers(s, Progress(servers, weathers));
      if (exists server :: server in servers && !RevokesCleanly(s.db.grants, server, Weather(weathers, server)))
         || !Up(weather, 3)
      then (revoked, plans, false)
      else (revoked.(db := revoked.db.(signatures := Remembered(links, compiled, s.db.signatures))), next, true)
  }

  /** `plans` and `rules` are those in force in the registry; `applied` holds the settings that were
      applied last, and `seen` the fingerprint of their file. */
  class Reloader {
    const auth: Auth
    var plans: seq<LinkPlan>
    var rules: seq<Policy.Rule>
    var applied: Option<Settings>
    var seen: string

    constructor (auth: Auth)
      ensures this.auth == auth && plans == [] && rules == [] && applied == None && seen == ""
    {
      this.auth := auth;
      plans, rules, applied, seen := [], [], None, "";
    }

    method Apply(loaded: Option<Loaded>, weather: seq<bool>, weathers: map<string, seq<bool>>) returns (ok: bool)
      modifies this`plans, this`rules, this`applied, auth, auth.store
      ensures (auth.View(), plans, ok) == Applied(old(auth.View()), old(plans), loaded, weather, weathers)
      ensures ok ==>
                loaded.Some? && rules == Policy.RulesFrom(loaded.value.settings.tools) &&
                applied == Some(loaded.value.settings)
      ensures !ok ==> rules == old(rules) && applied == old(applied)
    {
      if loaded.None? {
        return false;
      }

      ghost var was := auth.View();
      var granted := auth.store.Read(Up(weather, 0));
      var waiting := auth.store.Read(Up(weather, 1));
      var stored := auth.store.Read(Up(weather, 2));

      if granted.StoreFailed? || waiting.StoreFailed? || stored.StoreFailed? {
        return false;
      }

      var links := LoadedLinks(loaded.value);
      var next := CompileLinks(loaded.value);
      var compiled := SignaturesOf(next);
      var signatures := Remembered(links, compiled, stored.value.signatures);
      var servers := ToRevoke(granted.value, links, compiled);
      var clean := RevokeEach(servers, weathers);

      if !clean {
        return false;
      }

      var saved := auth.store.WriteSignatures(signatures, Up(weather, 3));

      if saved.StoreFailed? {
        return false;
      }

      rules := Policy.RulesFrom(loaded.value.settings.tools);
      plans := next;
      applied := Some(loaded.value.settings);
      return true;
    }

    /** The loop goes on after a failure, and reports it at the end. */
    method RevokeEach(servers: set<string>, weathers: map<string, seq<bool>>) returns (clean: bool)
      modifies auth, auth.store
      ensures auth.View() == RevokeServers(old(auth.View()), Progress(servers, weathers))
      ensures clean <==> forall server :: server in servers ==>
                RevokesCleanly(old(auth.View()).db.grants, server, Weather(weathers, server))
    {
      ghost var was := auth.View();
      ghost var done: set<string> := {};
      var left := servers;
      clean := true;
      RevokeServersNone(was);
      assert Progress({}, weathers) == map[];

      while left != {}
        invariant left !! done && left + done == servers
        invariant auth.View() == RevokeServers(was, Progress(done, weathers))
        invariant clean <==> forall server :: server in done ==>
                    RevokesCleanly(was.db.grants, server, Weather(weathers, server))
      {
        var server :| server in left;
        OthersKeepGrants(was, done, server, weathers);
        RevokeNext(was, done, server, weathers);
        var result := auth.RevokeServer(server, Weather(weathers, server));
        clean := clean && result.Done?;
        left := left - {server};
        done := done + {server};
      }
    }

    /** A configuration that failed to apply is not marked as seen, so it is tried again. */
    method ReloadWith(current: string, loaded: Option<Loaded>, weather: seq<bool>, weathers: map<string, seq<bool>>)
      returns (ok: bool)
      modifies this, auth, auth.store
      ensures (auth.View(), plans, ok) == Applied(old(auth.View()), old(plans), loaded, weather, weathers)
      ensures ok ==>
                loaded.Some? && rules == Policy.RulesFrom(loaded.value.settings.tools) &&
                applied == Some(loaded.value.settings)
      ensures !ok ==> rules == old(rules) && applied == old(applied)
      ensures seen == if ok then current else old(seen)
    {
      ok := Apply(loaded, weather, weathers);

      if ok {
        seen := current;
      }
    }
  }
}
