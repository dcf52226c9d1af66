/** What a link shows of the apps on it, from src/links.rs. */
module Projection {
  import opened Prelude
  import opened Names
  import opened Links
  import opened Apps
  import opened Policy
  import opened Registry

  datatype Origin = Origin(app: string, tool: string)

  /** What a link of command apps collects; `resources` maps an address to the tool it reads,
      `risks` says which tools run code. */
  datatype Parts = Parts(
    tools: map<string, CommandTool>, origins: map<string, Origin>, resources: map<string, string>,
    risks: map<string, bool>)

  datatype LinkEntry =
    | CommandsEntry(name: string, members: set<string>, state: ServerState, allowed: set<string>, parts: Parts)
    | DirectEntry(name: string, members: set<string>, state: ServerState, allowed: set<string>,
                  listed: seq<Tool>, origins: map<string, Origin>, risks: map<string, bool>)

  /** What `project_commands` reads of an app of commands. */
  datatype Member = Member(app: string, commands: map<string, CommandTool>, live: bool, allowed: set<string>)

  /** The apps that exist and contribute commands, in the order of the plan. */
  function Contributors(apps: seq<string>, find: map<string, PhysicalApp>): seq<Member> {
    if apps == [] then []
    else
      var rest := Contributors(apps[1..], find);
      if apps[0] !in find || find[apps[0]].spec.commands.None? then rest
      else
        var entry := find[apps[0]];
        [Member(entry.spec.name, entry.spec.commands.value, entry.state.Live?, entry.allowed)] + rest
  }

  ghost predicate DistinctApps(members: seq<Member>) {
    && (forall k :: 0 <= k < |members| ==> IsAppName(members[k].app))
    && forall k, l :: 0 <= k < l < |members| ==> members[k].app != members[l].app
  }

  lemma {:induction false} ContributorsDistinct(apps: seq<string>, find: map<string, PhysicalApp>)
    requires Distinct(apps)
    requires forall name :: name in find ==> find[name].spec.name == name
    requires forall name :: name in apps ==> IsAppName(name)
    ensures DistinctApps(Contributors(apps, find))
    ensures forall k :: 0 <= k < |Contributors(apps, find)| ==> Contributors(apps, find)[k].app in apps
  {
    if apps != [] {
      assert apps == [apps[0]] + apps[1..];
      assert apps[0] !in apps[1..];
      ContributorsDistinct(apps[1..], find);
    }
  }

  function AddTool(parts: Parts, app: string, tool: string, command: CommandTool): Parts {
    var exposed := ExposedName(app, tool);
    Parts(
      parts.tools[exposed := command],
      parts.origins[exposed := Origin(app, tool)],
      if command.resource then parts.resources[ResourceUri(app, tool) := exposed] else parts.resources,
      parts.risks[exposed := command.runsCode])
  }

  // ----- what the parts must be

  /** The tools of the first `i` members, and `done` of member `i`. */
  predicate Covered(members: seq<Member>, i: nat, done: set<string>, k: nat, tool: string)
  {
    && k < |members| && tool in members[k].commands
    && (k < i || (k == i && tool in done))
  }

  ghost predicate Recorded(parts: Parts, app: string, tool: string, command: CommandTool) {
    var exposed := ExposedName(app, tool);
    && Lookup(parts.tools, exposed) == Some(command)
    && Lookup(parts.origins, exposed) == Some(Origin(app, tool))
    && Lookup(parts.risks, exposed) == Some(command.runsCode)
    && (command.resource ==> Lookup(parts.resources, ResourceUri(app, tool)) == Some(exposed))
  }

  ghost predicate Sound(parts: Parts, members: seq<Member>, i: nat, done: set<string>)
  {
    && parts.tools.Keys == parts.origins.Keys == parts.risks.Keys
    && (forall k: nat, tool | Covered(members, i, done, k, tool) ::
          Recorded(parts, members[k].app, tool, members[k].commands[tool]))
    && (forall exposed :: exposed in parts.origins ==>
          Comes(parts.origins[exposed], exposed, members, i, done))
    && forall uri :: uri in parts.resources ==>
         && parts.resources[uri] in parts.origins
         && uri == ResourceUri(parts.origins[parts.resources[uri]].app, parts.origins[parts.resources[uri]].tool)
         && parts.tools[parts.resources[uri]].resource
  }

  /** `origins` inverts the naming. */
  ghost predicate Comes(origin: Origin, exposed: string, members: seq<Member>, i: nat, done: set<string>)
  {
    && exposed == ExposedName(origin.app, origin.tool)
    && exists k: nat :: Covered(members, i, done, k, origin.tool) && members[k].app == origin.app
  }

  function Total(members: seq<Member>): nat
  {
    if members == [] then 0
    else Total(members[..|members| - 1]) + |members[|members| - 1].commands|
  }

  /** The exposed names of everything allowed on the live members. */
  function AllowedOn(members: seq<Member>): set<string> {
    set k, tool | 0 <= k < |members| && members[k].live && tool in members[k].allowed ::
      ExposedName(members[k].app, tool)
  }

  lemma {:induction false} NewName(parts: Parts, members: seq<Member>, i: nat, done: set<string>, tool: string)
    requires DistinctApps(members) && Sound(parts, members, i, done)
    requires i < |members| && tool in members[i].commands && tool !in done
    ensures ExposedName(members[i].app, tool) !in parts.origins
  {
    var exposed := ExposedName(members[i].app, tool);

    if exposed in parts.origins {
      var origin := parts.origins[exposed];
      var k: nat :| Covered(members, i, done, k, origin.tool) && members[k].app == origin.app;
      ExposedNameInjective(members[i].app, tool, origin.app, origin.tool);
      assert false;
    }
  }

  lemma {:induction false} AddToolSound(parts: Parts, members: seq<Member>, i: nat, done: set<string>, tool: string)
    requires DistinctApps(members) && Sound(parts, members, i, done)
    requires i < |members| && tool in members[i].commands && tool !in done
    ensures var next := AddTool(parts, members[i].app, tool, members[i].commands[tool]);
            Sound(next, members, i, done + {tool})
  {
    hide Recorded, Comes, DistinctApps;
    var next := AddTool(parts, members[i].app, tool, members[i].commands[tool]);
    NewName(parts, members, i, done, tool);
    AddToolRecords(parts, members, i, done, tool, next);
    AddToolOrigins(parts, members, i, done, tool, next);
    AddToolResources(parts, members, i, done, tool, next);
  }

  lemma {:induction false} AddToolCounts(parts: Parts, members: seq<Member>, i: nat, done: set<string>, tool: string)
    requires DistinctApps(members) && Sound(parts, members, i, done)
    requires i < |members| && tool in members[i].commands && tool !in done
    ensures var next := AddTool(parts, members[i].app, tool, members[i].commands[tool]);
            |next.origins| == |parts.origins| + 1
  {
    hide Sound, DistinctApps;
    NewName(parts, members, i, done, tool);
    var next := AddTool(parts, members[i].app, tool, members[i].commands[tool]);
    assert next.origins.Keys == parts.origins.Keys + {ExposedName(members[i].app, tool)};
    assert |next.origins.Keys| == |parts.origins.Keys| + 1;
  }

  lemma {:induction false} RecordedStays(parts: Parts, app: string, tool: string, command: CommandTool,
                                         other: string, tool': string, command': CommandTool)
    requires IsAppName(app) && IsAppName(other) && (app != other || tool != tool')
    requires Recorded(parts, other, tool', command')
    ensures Recorded(AddTool(parts, app, tool, command), other, tool', command')
  {
    ExposedNameInjective(app, tool, other, tool');
    ResourceUriInjective(app, tool, other, tool');
  }

  lemma {:induction false} AddToolRecords(
    parts: Parts, members: seq<Member>, i: nat, done: set<string>, tool: string, next: Parts)
    requires DistinctApps(members) && Sound(parts, members, i, done)
    requires i < |members| && tool in members[i].commands && tool !in done
    requires next == AddTool(parts, members[i].app, tool, members[i].commands[tool])
    ensures forall k: nat, other | Covered(members, i, done + {tool}, k, other) ::
              Recorded(next, members[k].app, other, members[k].commands[other])
  {
    forall k: nat, other | Covered(members, i, done + {tool}, k, other)
      ensures Recorded(next, members[k].app, other, members[k].commands[other])
    {
      if k != i || other != tool {
        assert Covered(members, i, done, k, other);
        RecordedStays(parts, members[i].app, tool, members[i].commands[tool], members[k].app, other,
                      members[k].commands[other]);
      }
    }
  }

  lemma {:induction false} AddToolOrigins(
    parts: Parts, members: seq<Member>, i: nat, done: set<string>, tool: string, next: Parts)
    requires DistinctApps(members) && Sound(parts, members, i, done)
    requires i < |members| && tool in members[i].commands
    requires next == AddTool(parts, members[i].app, tool, members[i].commands[tool])
    ensures forall exposed :: exposed in next.origins ==>
              Comes(next.origins[exposed], exposed, members, i, done + {tool})
  {
    assert Covered(members, i, done + {tool}, i, tool);
    forall exposed | exposed in next.origins
      ensures Comes(next.origins[exposed], exposed, members, i, done + {tool})
    {
      if exposed != ExposedName(members[i].app, tool) {
        var origin := parts.origins[exposed];
        var k: nat :| Covered(members, i, done, k, origin.tool) && members[k].app == origin.app;
        assert Covered(members, i, done + {tool}, k, origin.tool);
      }
    }
  }

  lemma {:induction false} AddToolResources(
    parts: Parts, members: seq<Member>, i: nat, done: set<string>, tool: string, next: Parts)
    requires DistinctApps(members) && Sound(parts, members, i, done)
    requires i < |members| && tool in members[i].commands
    requires ExposedName(members[i].app, tool) !in parts.origins
    requires next == AddTool(parts, members[i].app, tool, members[i].commands[tool])
    ensures forall uri :: uri in next.resources ==>
              && next.resources[uri] in next.origins
              && uri == ResourceUri(next.origins[next.resources[uri]].app, next.origins[next.resources[uri]].tool)
              && next.tools[next.resources[uri]].resource
  {
  }

  /** The inner loop of `project_commands`: one member's tools. */
  method AddTools(parts: Parts, ghost members: seq<Member>, ghost i: nat, member: Member) returns (next: Parts)
    requires DistinctApps(members) && i < |members| && member == members[i] && Sound(parts, members, i, {})
    ensures Sound(next, members, i + 1, {})
    ensures |next.origins| == |parts.origins| + |member.commands|
  {
    hide Sound, DistinctApps, AddTool;
    next := parts;
    var left := member.commands.Keys;
    ghost var done: set<string> := {};

    while left != {}
      invariant left !! done && left + done == member.commands.Keys
      invariant Sound(next, members, i, done)
      invariant |next.origins| == |parts.origins| + |done|
    {
      var tool :| tool in left;
      AddToolSound(next, members, i, done, tool);
      AddToolCounts(next, members, i, done, tool);
      next := AddTool(next, member.app, tool, member.commands[tool]);
      left := left - {tool};
      done := done + {tool};
    }

    assert done == member.commands.Keys;
    NextMember(next, members, i);
  }

  lemma {:induction false} NothingYet(members: seq<Member>)
    ensures Sound(Parts(map[], map[], map[], map[]), members, 0, {})
    ensures AllowedOn(members[..0]) == {} && Total(members[..0]) == 0
  {
    assert forall k: nat, tool :: !Covered(members, 0, {}, k, tool);
  }

  // ----- what a link of command apps must show

  /** The app is on the plan, exists and contributes commands. */
  ghost predicate Contributes(apps: seq<string>, find: map<string, PhysicalApp>, app: string) {
    app in apps && app in find && find[app].spec.commands.Some?
  }

  /** How many tools the apps contribute together. */
  function CommandCount(apps: seq<string>, find: map<string, PhysicalApp>): nat {
    if apps == [] then 0
    else
      var app := apps[0];
      (if app in find && find[app].spec.commands.Some? then |find[app].spec.commands.value| else 0) +
      CommandCount(apps[1..], find)
  }

  /** Every tool of every contributing app, live or not, under its own name, and nothing else. */
  ghost predicate ShowsTools(apps: seq<string>, find: map<string, PhysicalApp>, parts: Parts) {
    && parts.tools.Keys == parts.origins.Keys == parts.risks.Keys
    && |parts.origins| == CommandCount(apps, find)
    && (forall app, tool | Contributes(apps, find, app) && tool in find[app].spec.commands.value ::
          Recorded(parts, app, tool, find[app].spec.commands.value[tool]))
    && (forall exposed :: exposed in parts.origins ==>
          var Origin(app, tool) := parts.origins[exposed];
          && exposed == ExposedName(app, tool)
          && Contributes(apps, find, app) && tool in find[app].spec.commands.value)
    && forall uri :: uri in parts.resources ==>
         && parts.resources[uri] in parts.origins
         && var Origin(app, tool) := parts.origins[parts.resources[uri]];
            uri == ResourceUri(app, tool) && parts.tools[parts.resources[uri]].resource
  }

  /** What the live ones allow, and nothing else. */
  ghost predicate ShowsAllowed(apps: seq<string>, find: map<string, PhysicalApp>, allowed: set<string>) {
    forall exposed :: exposed in allowed <==> AllowedByLive(apps, find, exposed)
  }

  ghost predicate AllowedByLive(apps: seq<string>, find: map<string, PhysicalApp>, exposed: string) {
    exists app, tool ::
      && Contributes(apps, find, app) && find[app].state.Live? && tool in find[app].allowed
      && exposed == ExposedName(app, tool)
  }

  /** A contributing app is a contributor, with what it has. */
  lemma {:induction false} ContributorThere(apps: seq<string>, find: map<string, PhysicalApp>, app: string)
    returns (k: nat)
    requires forall name :: name in find ==> find[name].spec.name == name
    requires Contributes(apps, find, app)
    ensures k < |Contributors(apps, find)| && Contributors(apps, find)[k].app == app
  {
    if apps[0] == app {
      k := 0;
    } else {
      assert apps == [apps[0]] + apps[1..];
      k := ContributorThere(apps[1..], find, app);
      k := if apps[0] !in find || find[apps[0]].spec.commands.None? then k else k + 1;
    }
  }

  lemma {:induction false} ContributorOnPlan(apps: seq<string>, find: map<string, PhysicalApp>, k: nat)
    requires forall name :: name in find ==> find[name].spec.name == name
    requires k < |Contributors(apps, find)|
    ensures var member := Contributors(apps, find)[k];
            && Contributes(apps, find, member.app)
            && var entry := find[member.app];
               && entry.spec.commands.value == member.commands
               && member.live == entry.state.Live? && member.allowed == entry.allowed
  {
    var rest := Contributors(apps[1..], find);

    if apps[0] !in find || find[apps[0]].spec.commands.None? {
      ContributorOnPlan(apps[1..], find, k);
    } else if k > 0 {
      ContributorOnPlan(apps[1..], find, k - 1);
    }
  }

  lemma {:induction false} TotalFirst(member: Member, members: seq<Member>)
    ensures Total([member] + members) == |member.commands| + Total(members)
  {
    var all := [member] + members;

    if members == [] {
      assert all[..0] == [];
    } else {
      assert all[..|all| - 1] == [member] + members[..|members| - 1];
      TotalFirst(member, members[..|members| - 1]);
    }
  }

  lemma {:induction false} TotalCounts(apps: seq<string>, find: map<string, PhysicalApp>)
    ensures Total(Contributors(apps, find)) == CommandCount(apps, find)
  {
    if apps != [] {
      TotalCounts(apps[1..], find);

      if apps[0] in find && find[apps[0]].spec.commands.Some? {
        TotalFirst(Contributors(apps, find)[0], Contributors(apps[1..], find));
      }
    }
  }

  lemma {:induction false} ToolShown(apps: seq<string>, find: map<string, PhysicalApp>, parts: Parts, app: string,
                                     tool: string)
    requires forall name :: name in find ==> find[name].spec.name == name
    requires var members := Contributors(apps, find); Sound(parts, members, |members|, {})
    requires Contributes(apps, find, app) && tool in find[app].spec.commands.value
    ensures Recorded(parts, app, tool, find[app].spec.commands.value[tool])
  {
    hide Recorded, Comes;
    var members := Contributors(apps, find);
    var k := ContributorThere(apps, find, app);
    ContributorOnPlan(apps, find, k);
    assert Covered(members, |members|, {}, k, tool);
  }

  lemma {:induction false} OriginShown(apps: seq<string>, find: map<string, PhysicalApp>, parts: Parts,
                                       exposed: string)
    requires forall name :: name in find ==> find[name].spec.name == name
    requires var members := Contributors(apps, find); Sound(parts, members, |members|, {})
    requires exposed in parts.origins
    ensures var Origin(app, tool) := parts.origins[exposed];
            && exposed == ExposedName(app, tool)
            && Contributes(apps, find, app) && tool in find[app].spec.commands.value
  {
    hide Recorded;
    var members := Contributors(apps, find);
    var Origin(app, tool) := parts.origins[exposed];
    assert Comes(parts.origins[exposed], exposed, members, |members|, {});
    var k: nat :| Covered(members, |members|, {}, k, tool) && members[k].app == app;
    ContributorOnPlan(apps, find, k);
  }

  lemma {:induction false} ToolsShown(apps: seq<string>, find: map<string, PhysicalApp>, parts: Parts)
    requires forall name :: name in find ==> find[name].spec.name == name
    requires var members := Contributors(apps, find);
             Sound(parts, members, |members|, {}) && |parts.origins| == Total(members)
    ensures ShowsTools(apps, find, parts)
  {
    hide Recorded, Comes, Covered;
    TotalCounts(apps, find);
    forall app, tool | Contributes(apps, find, app) && tool in find[app].spec.commands.value
      ensures Recorded(parts, app, tool, find[app].spec.commands.value[tool])
    {
      ToolShown(apps, find, parts, app, tool);
    }
    forall exposed | exposed in parts.origins
      ensures var Origin(app, tool) := parts.origins[exposed];
              && exposed == ExposedName(app, tool)
              && Contributes(apps, find, app) && tool in find[app].spec.commands.value
    {
      OriginShown(apps, find, parts, exposed);
    }
  }

  lemma {:induction false} AllowedShown(apps: seq<string>, find: map<string, PhysicalApp>)
    requires forall name :: name in find ==> find[name].spec.name == name
    ensures ShowsAllowed(apps, find, AllowedOn(Contributors(apps, find)))
  {
    var members := Contributors(apps, find);
    forall exposed ensures exposed in AllowedOn(members) <==> AllowedByLive(apps, find, exposed) {
      if exposed in AllowedOn(members) {
        var k, tool :| 0 <= k < |members| && members[k].live && tool in members[k].allowed
                       && exposed == ExposedName(members[k].app, tool);
        ContributorOnPlan(apps, find, k);
      }

      if app, tool :| Contributes(apps, find, app) && find[app].state.Live? && tool in find[app].allowed
                      && exposed == ExposedName(app, tool) {
        var k := ContributorThere(apps, find, app);
        ContributorOnPlan(apps, find, k);
        assert members[k].live && tool in members[k].allowed;
      }
    }
  }

  /** The loops of `project_commands`. Nothing is merged and nothing left out. */
  method ProjectCommands(name: string, apps: seq<string>, membership: seq<string>, find: map<string, PhysicalApp>)
    returns (link: LinkEntry)
    requires Distinct(apps) && forall app :: app in apps ==> IsAppName(app)
    requires forall app :: app in find ==> find[app].spec.name == app
    ensures link.CommandsEntry?
    ensures ShowsTools(apps, find, link.parts) && ShowsAllowed(apps, find, link.allowed)
    ensures link.name == name && link.members == (set m | m in membership) && link.state == Live
  {
    hide Sound, DistinctApps, AllowedOn, ShowsTools, ShowsAllowed;
    var members := Contributors(apps, find);
    var parts := Parts(map[], map[], map[], map[]);
    var allowed: set<string> := {};
    var i := 0;
    ContributorsDistinct(apps, find);
    NothingYet(members);

    while i < |members|
      invariant 0 <= i <= |members|
      invariant Sound(parts, members, i, {})
      invariant |parts.origins| == Total(members[..i])
      invariant allowed == AllowedOn(members[..i])
    {
      var member := members[i];
      parts := AddTools(parts, members, i, member);

      if member.live {
        allowed := allowed + set tool | tool in member.allowed :: ExposedName(member.app, tool);
      }

      assert members[..i + 1][..i] == members[..i];
      AllowedGrows(members, i);
      i := i + 1;
    }

    assert members[..i] == members;
    ToolsShown(apps, find, parts);
    AllowedShown(apps, find);
    link := CommandsEntry(name, (set m | m in membership), Live, allowed, parts);
  }

  lemma {:induction false} NextMember(parts: Parts, members: seq<Member>, i: nat)
    requires DistinctApps(members) && i < |members| && Sound(parts, members, i, members[i].commands.Keys)
    ensures Sound(parts, members, i + 1, {})
  {
    var all := members[i].commands.Keys;
    assert forall k: nat, tool :: Covered(members, i + 1, {}, k, tool) <==> Covered(members, i, all, k, tool);
  }

  lemma {:induction false} AllowedGrows(members: seq<Member>, i: nat)
    requires i < |members|
    ensures AllowedOn(members[..i + 1]) == AllowedOn(members[..i]) +
            (if members[i].live
             then set tool | tool in members[i].allowed :: ExposedName(members[i].app, tool) else {})
  {
    var one, more := members[..i], members[..i + 1];
    forall name | name in AllowedOn(more)
      ensures name in AllowedOn(one) || (members[i].live &&
                exists tool :: tool in members[i].allowed && name == ExposedName(members[i].app, tool))
    {
      var k, tool :| 0 <= k < |more| && more[k].live && tool in more[k].allowed
                     && name == ExposedName(more[k].app, tool);
      assert k < i ==> one[k] == more[k];
    }
    forall name | name in AllowedOn(one) ensures name in AllowedOn(more) {
      var k, tool :| 0 <= k < |one| && one[k].live && tool in one[k].allowed
                     && name == ExposedName(one[k].app, tool);
      assert one[k] == more[k];
    }

    if members[i].live {
      forall tool | tool in members[i].allowed ensures ExposedName(members[i].app, tool) in AllowedOn(more) {
        assert more[i] == members[i];
      }
    }
  }

  // ----- links of one app

  /** Collecting by name keeps the last of equal names. */
  function RisksOf(announced: Tool -> bool, spec: AppSpec, tools: seq<Tool>): map<string, bool> {
    if tools == [] then map[]
    else
      var last := tools[|tools| - 1];
      RisksOf(announced, spec, tools[..|tools| - 1])[last.name := RunsCode(announced, spec, last)]
  }

  function ProjectDirect(announced: Tool -> bool, name: string, app: string, find: map<string, PhysicalApp>)
    : Option<LinkEntry>
  {
    if app !in find then None
    else
      var entry := find[app];
      Some(DirectEntry(
        name, {app}, entry.state, entry.allowed, entry.tools,
        map tool | tool in entry.tools :: tool.name := Origin(app, tool.name),
        RisksOf(announced, entry.spec, entry.tools)))
  }

  /** Tool `i` is the last of its name. */
  predicate LastOfName(tools: seq<Tool>, i: nat) {
    i < |tools| && forall j | i < j < |tools| :: tools[j].name != tools[i].name
  }

  lemma {:induction false} RisksExact(announced: Tool -> bool, spec: AppSpec, tools: seq<Tool>, name: string)
    ensures name in RisksOf(announced, spec, tools) <==> exists tool :: tool in tools && tool.name == name
    ensures name in RisksOf(announced, spec, tools) ==>
              exists i: nat :: LastOfName(tools, i) && tools[i].name == name
                               && RisksOf(announced, spec, tools)[name] == RunsCode(announced, spec, tools[i])
  {
    if tools != [] {
      var rest, last := tools[..|tools| - 1], tools[|tools| - 1];
      RisksExact(announced, spec, rest, name);
      assert tools == rest + [last];

      if last.name == name {
        assert LastOfName(tools, |rest|);
      } else if name in RisksOf(announced, spec, rest) {
        var i: nat :| LastOfName(rest, i) && rest[i].name == name
                      && RisksOf(announced, spec, rest)[name] == RunsCode(announced, spec, rest[i]);
        assert LastOfName(tools, i) && tools[i] == rest[i];
      }
    }
  }

  /** A link of one app shows it as it is: its state, its tools and what it allows; each listed name
      comes from the app, and the last tool of a name says whether it runs code. */
  ghost predicate ShowsApp(announced: Tool -> bool, name: string, entry: PhysicalApp, link: LinkEntry) {
    && link.DirectEntry? && link.state == entry.state && link.listed == entry.tools && link.allowed == entry.allowed
    && (forall tool :: tool in entry.tools ==>
          Lookup(link.origins, tool.name) == Some(Origin(name, tool.name)) && tool.name in link.risks)
    && (forall listed :: listed in link.origins.Keys + link.risks.Keys ==>
          exists tool :: tool in entry.tools && tool.name == listed)
    && forall i: nat | LastOfName(entry.tools, i) ::
         entry.tools[i].name in link.risks ==>
           link.risks[entry.tools[i].name] == Runs(announced, entry, entry.tools[i])
  }

  lemma {:induction false} DirectExactly(announced: Tool -> bool, name: string, app: string,
                                         find: map<string, PhysicalApp>)
    ensures var link := ProjectDirect(announced, name, app, find);
            && (link.Some? <==> app in find)
            && (link.Some? ==> link.value.name == name && ShowsApp(announced, app, find[app], link.value))
  {
    if app in find {
      var entry := find[app];
      forall listed { RisksExact(announced, entry.spec, entry.tools, listed); }
      assert forall tool :: RunsCode(announced, entry.spec, tool) == Runs(announced, entry, tool);
    }
  }

  // ----- what a link lets through

  /** The apps a projection reads. A name's slot is looked up at one moment and its entry read at a
      later one, when the slot may be gone from the map; different apps may be read at different
      moments. */
  ghost predicate ReadFrom(trace: seq<State>, find: map<string, PhysicalApp>) {
    forall name :: name in find ==> exists i: nat, j: nat :: ReadAt(trace, i, j, name, find[name])
  }

  ghost predicate ReadAt(trace: seq<State>, i: nat, j: nat, name: string, app: PhysicalApp) {
    && i <= j < |trace| && name in trace[i].slots
    && trace[i].slots[name] in trace[j].entries && app == trace[j].entries[trace[i].slots[name]]
  }

  lemma {:induction false} ActedSpecs(announced: Tool -> bool, p: State, t: nat, tools: Option<seq<Tool>>, slot: nat,
                                      q: State)
    requires t in p.tasks && Acted(announced, p, t, tools, slot, q)
    ensures forall s :: s in p.entries ==> s in q.entries && q.entries[s].spec == p.entries[s].spec
  {
    hide Lists, AllowedToolNames, AllowsCode;
  }

  lemma {:induction false} SpecsKept(announced: Tool -> bool, p: State, q: State)
    requires Next(announced, p, q)
    ensures forall s :: s in p.entries ==> s in q.entries && q.entries[s].spec == p.entries[s].spec
  {
    hide Acted;
    var action :| Does(announced, p, action, q);

    if action.Acts? {
      ActedSpecs(announced, p, action.t, action.tools, action.slot, q);
    }
  }

  /** A slot outlives its place in the map, with the spec it was added with. */
  lemma {:induction false} SlotLives(announced: Tool -> bool, trace: seq<State>, i: nat, j: nat, s: nat)
    requires Run(announced, trace) && i <= j < |trace| && s in trace[i].entries
    ensures s in trace[j].entries && trace[j].entries[s].spec == trace[i].entries[s].spec
    decreases j
  {
    hide Next;

    if i < j {
      SlotLives(announced, trace, i, j - 1, s);
      SpecsKept(announced, trace[j - 1], trace[j]);
    }
  }

  ghost predicate AppsSound(announced: Tool -> bool, find: map<string, PhysicalApp>) {
    forall name :: name in find ==>
      find[name].spec.name == name && Safe(announced, find[name]) && AllowsKnown(find[name])
  }

  lemma {:induction false} ReadSound(announced: Tool -> bool, trace: seq<State>, find: map<string, PhysicalApp>)
    requires Run(announced, trace) && ReadFrom(trace, find)
    ensures AppsSound(announced, find)
  {
    forall name | name in find
      ensures find[name].spec.name == name && Safe(announced, find[name]) && AllowsKnown(find[name])
    {
      var i: nat, j: nat :| ReadAt(trace, i, j, name, find[name]);
      RulesInForce(announced, trace, i);
      RulesInForce(announced, trace, j);
      SlotLives(announced, trace, i, j, trace[i].slots[name]);
    }
  }

  /** Every allowed name of a live link is listed with a risk, and one that runs code comes from
      an app that is trusted to. */
  ghost predicate LetsThroughSafely(find: map<string, PhysicalApp>, state: ServerState, allowed: set<string>,
                                    origins: map<string, Origin>, risks: map<string, bool>) {
    state.Live? ==> forall exposed :: exposed in allowed ==>
      && exposed in origins && exposed in risks
      && origins[exposed].app in find
      && (risks[exposed] ==> find[origins[exposed].app].spec.allowDangerous)
  }

  ghost predicate LinkSafe(find: map<string, PhysicalApp>, link: LinkEntry) {
    match link
    case CommandsEntry(_, _, state, allowed, parts) =>
      LetsThroughSafely(find, state, allowed, parts.origins, parts.risks)
    case DirectEntry(_, _, state, allowed, _, origins, risks) => LetsThroughSafely(find, state, allowed, origins, risks)
  }

  lemma {:induction false} DirectSafe(announced: Tool -> bool, name: string, app: string,
                                      find: map<string, PhysicalApp>)
    requires AppsSound(announced, find)
    ensures var link := ProjectDirect(announced, name, app, find);
            && (link.Some? <==> app in find)
            && (link.Some? ==> LinkSafe(find, link.value))
  {
    if app in find {
      var entry := find[app];
      forall exposed { RisksExact(announced, entry.spec, entry.tools, exposed); }
    }
  }

  lemma {:induction false} CommandsSafe(announced: Tool -> bool, apps: seq<string>, find: map<string, PhysicalApp>,
                                        link: LinkEntry)
    requires AppsSound(announced, find) && link.CommandsEntry?
    requires ShowsTools(apps, find, link.parts) && ShowsAllowed(apps, find, link.allowed)
    ensures LinkSafe(find, link)
  {
    hide ShowsTools;
    forall exposed | exposed in link.allowed
      ensures exposed in link.parts.origins && exposed in link.parts.risks && link.parts.origins[exposed].app in find
      ensures link.parts.risks[exposed] ==> find[link.parts.origins[exposed].app].spec.allowDangerous
    {
      assert AllowedByLive(apps, find, exposed);
      var app, tool :| Contributes(apps, find, app) && find[app].state.Live? && tool in find[app].allowed
                       && exposed == ExposedName(app, tool);
      AllowedSafe(announced, apps, find, app, tool, link.parts);
    }
  }

  lemma {:induction false} AllowedSafe(announced: Tool -> bool, apps: seq<string>, find: map<string, PhysicalApp>,
                                       app: string, tool: string, parts: Parts)
    requires AppsSound(announced, find) && ShowsTools(apps, find, parts)
    requires Contributes(apps, find, app) && find[app].state.Live? && tool in find[app].allowed
    ensures var exposed := ExposedName(app, tool);
            && Lookup(parts.origins, exposed) == Some(Origin(app, tool)) && exposed in parts.risks
            && (parts.risks[exposed] ==> find[app].spec.allowDangerous)
  {
    var entry := find[app];
    assert AllowsKnown(entry) && Safe(announced, entry);
    var announcement :| announcement in entry.tools && announcement.name == tool;
    assert Recorded(parts, app, tool, entry.spec.commands.value[tool]);
  }

  /** The apps of any compiled plan can be projected together. */
  lemma {:induction false} PlanApps(loaded: Loaded, plan: LinkPlan)
    requires WellFormed(loaded) && plan in Plans(loaded) && plan.Commands?
    ensures Distinct(plan.apps) && forall app :: app in plan.apps ==> IsAppName(app)
  {
    PlansSound(loaded);
  }

  /** What a link of this plan shows of the apps that were read. */
  ghost predicate Shows(announced: Tool -> bool, plan: LinkPlan, find: map<string, PhysicalApp>, link: LinkEntry) {
    && link.name == plan.name && link.members == Members(plan)
    && match plan
       case Direct(_, app) => app in find && ShowsApp(announced, app, find[app], link)
       case Commands(_, apps, _) =>
         && link.CommandsEntry? && link.state.Live?
         && ShowsTools(apps, find, link.parts) && ShowsAllowed(apps, find, link.allowed)
  }

  /** A link shows exactly what the apps that were read have; and whatever checks, rule changes, downs
      and removals run between the reads, a live link never allows a tool that runs code on an app
      that isn't trusted to. */
  method Project(announced: Tool -> bool, ghost trace: seq<State>, ghost loaded: Loaded, plan: LinkPlan,
                 find: map<string, PhysicalApp>)
    returns (link: Option<LinkEntry>)
    requires Run(announced, trace) && ReadFrom(trace, find)
    requires WellFormed(loaded) && plan in Plans(loaded)
    ensures link.None? <==> plan.Direct? && plan.app !in find
    ensures link.Some? ==> Shows(announced, plan, find, link.value) && LinkSafe(find, link.value)
  {
    hide ShowsTools, ShowsAllowed, ShowsApp, LinkSafe;
    ReadSound(announced, trace, find);

    match plan {
      case Direct(name, app) =>
        link := ProjectDirect(announced, name, app, find);
        DirectExactly(announced, name, app, find);
        DirectSafe(announced, name, app, find);
      case Commands(name, apps, membership) =>
        PlanApps(loaded, plan);
        var entry := ProjectCommands(name, apps, membership, find);
        CommandsSafe(announced, apps, find, entry);
        link := Some(entry);
    }
  }
}
