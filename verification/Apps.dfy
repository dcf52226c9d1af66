/** From settings to app specs and link plans, as src/apps.rs compiles them. Names are sequences
    of bytes, as in `Names` and `Links`. */
module Apps {
  import opened Prelude
  import opened Names
  import opened Links

  datatype CommandTool = CommandTool(resource: bool, runsCode: bool)

  /** `commands` holds the tools an app of commands contributes; it is None for an MCP app. */
  datatype AppSpec = AppSpec(name: string, commands: Option<map<string, CommandTool>>, allowDangerous: bool)

  /** `resolves` stands for everything `mcp_source` checks. */
  datatype McpServer = McpServer(enabled: bool, resolves: bool, allowDangerous: bool)

  /** `tools` are the members that compiled and whose exposed name fits. */
  datatype CommandApp = CommandApp(tools: map<string, CommandTool>, allowDangerous: bool)

  datatype LinkMembers = All | Chosen(apps: seq<string>)

  datatype Settings = Settings(
    mcp: seq<(string, McpServer)>, commands: seq<(string, CommandApp)>, links: seq<(string, LinkMembers)>,
    tools: seq<(string, bool)>)

  /** `mcpNames` and `commandNames` also name the entries that did not decode. */
  datatype Loaded = Loaded(settings: Settings, mcpNames: set<string>, commandNames: seq<string>)

  function Keys<T>(entries: seq<(string, T)>): set<string> {
    set i | 0 <= i < |entries| :: entries[i].0
  }

  ghost predicate Distinct<T>(s: seq<T>) {
    forall i, j :: 0 <= i < j < |s| ==> s[i] != s[j]
  }

  /** A decoded file: each section is keyed once. */
  ghost predicate WellFormed(loaded: Loaded) {
    && (forall i, j :: 0 <= i < j < |loaded.settings.mcp| ==> loaded.settings.mcp[i].0 != loaded.settings.mcp[j].0)
    && (forall i, j :: 0 <= i < j < |loaded.settings.links| ==>
          loaded.settings.links[i].0 != loaded.settings.links[j].0)
    && Keys(loaded.settings.mcp) <= loaded.mcpNames
    && Distinct(loaded.commandNames)
  }

  function LoadedLinks(loaded: Loaded): set<string> {
    set name | name in loaded.mcpNames + Keys(loaded.settings.links) && IsUsableName(name)
  }

  // ----- apps

  datatype Entry = Mcp(server: McpServer) | Command(app: CommandApp)

  /** The MCP section, then the command section. */
  function Entries(settings: Settings): seq<(string, Entry)> {
    seq(|settings.mcp| + |settings.commands|, i requires 0 <= i < |settings.mcp| + |settings.commands| =>
      if i < |settings.mcp| then (settings.mcp[i].0, Mcp(settings.mcp[i].1))
      else (settings.commands[i - |settings.mcp|].0, Command(settings.commands[i - |settings.mcp|].1)))
  }

  /** At most one spec for an entry whose name was accepted. */
  function Built(name: string, entry: Entry): Option<AppSpec> {
    match entry
    case Mcp(server) =>
      if server.enabled && server.resolves then Some(AppSpec(name, None, server.allowDangerous)) else None
    case Command(app) =>
      if app.tools == map[] then None else Some(AppSpec(name, Some(app.tools), app.allowDangerous))
  }

  /** Entry `i` is the first with its name, and the name is usable. */
  predicate Accepted(entries: seq<(string, Entry)>, i: nat)
    requires i < |entries|
  {
    IsUsableName(entries[i].0) && forall j :: 0 <= j < i ==> entries[j].0 != entries[i].0
  }

  ghost predicate From(spec: AppSpec, entries: seq<(string, Entry)>, upTo: nat)
    requires upTo <= |entries|
  {
    exists i :: 0 <= i < upTo && Accepted(entries, i) && Built(entries[i].0, entries[i].1) == Some(spec)
  }

  function SpecsUpTo(entries: seq<(string, Entry)>, n: nat): seq<AppSpec>
    requires n <= |entries|
  {
    if n == 0 then []
    else
      var rest := SpecsUpTo(entries, n - 1);
      var built := Built(entries[n - 1].0, entries[n - 1].1);
      if Accepted(entries, n - 1) && built.Some? then rest + [built.value] else rest
  }

  function Specs(settings: Settings): seq<AppSpec> {
    SpecsUpTo(Entries(settings), |Entries(settings)|)
  }

  /** The specs are exactly those of the accepted entries. */
  lemma {:induction false} SpecsExact(entries: seq<(string, Entry)>, n: nat, spec: AppSpec)
    requires n <= |entries|
    ensures spec in SpecsUpTo(entries, n) <==> From(spec, entries, n)
  {
    if n > 0 {
      SpecsExact(entries, n - 1, spec);

      if From(spec, entries, n) {
        var i :| 0 <= i < n && Accepted(entries, i) && Built(entries[i].0, entries[i].1) == Some(spec);
        assert i < n - 1 ==> From(spec, entries, n - 1);
      }
    }
  }

  ghost predicate UniqueNames(specs: seq<AppSpec>) {
    && (forall k :: 0 <= k < |specs| ==> IsUsableName(specs[k].name))
    && forall k, l :: 0 <= k < l < |specs| ==> specs[k].name != specs[l].name
  }

  /** Names are usable and unique. */
  lemma {:induction false} SpecsUnique(entries: seq<(string, Entry)>, n: nat)
    requires n <= |entries|
    ensures UniqueNames(SpecsUpTo(entries, n))
  {
    if n > 0 {
      SpecsUnique(entries, n - 1);
      var rest := SpecsUpTo(entries, n - 1);
      forall k | 0 <= k < |rest| && Accepted(entries, n - 1) ensures rest[k].name != entries[n - 1].0 {
        SpecsExact(entries, n - 1, rest[k]);
      }
    }
  }

  method CompileApps(settings: Settings) returns (specs: seq<AppSpec>)
    ensures specs == Specs(settings)
  {
    var entries := Entries(settings);
    var seen: set<string> := {};
    specs := [];
    var i := 0;

    while i < |entries|
      invariant 0 <= i <= |entries|
      invariant seen == set j | 0 <= j < i && IsUsableName(entries[j].0) :: entries[j].0
      invariant specs == SpecsUpTo(entries, i)
    {
      var (name, entry) := entries[i];

      if IsUsableName(name) && name !in seen {
        seen := seen + {name};
        var built := Built(name, entry);

        if built.Some? {
          specs := specs + [built.value];
        }
      }

      i := i + 1;
    }
  }

  // ----- links

  function NamesWhere(specs: seq<AppSpec>, commands: bool): set<string> {
    set k | 0 <= k < |specs| && specs[k].commands.Some? == commands :: specs[k].name
  }

  function DirectPlans(specs: seq<AppSpec>): seq<LinkPlan> {
    if specs == [] then []
    else
      (if specs[0].commands.Some? then [] else [Direct(specs[0].name, specs[0].name)]) + DirectPlans(specs[1..])
  }

  /** Keeps the first of equal names, as collecting into an IndexSet does. */
  function Dedup(names: seq<string>): seq<string> {
    if names == [] then []
    else
      var last := names[|names| - 1];
      var rest := Dedup(names[..|names| - 1]);
      if last in rest then rest else rest + [last]
  }

  lemma {:induction false} DedupDistinct(names: seq<string>)
    ensures Distinct(Dedup(names))
    ensures forall name :: name in Dedup(names) <==> name in names
  {
    if names != [] {
      DedupDistinct(names[..|names| - 1]);
      assert names == names[..|names| - 1] + [names[|names| - 1]];
    }
  }

  function Requested(members: LinkMembers, commandNames: seq<string>): seq<string> {
    match members
    case All => commandNames
    case Chosen(apps) => Dedup(apps)
  }

  function Among(names: seq<string>, known: set<string>): seq<string> {
    if names == [] then []
    else (if names[0] in known then [names[0]] else []) + Among(names[1..], known)
  }

  lemma {:induction false} AmongDistinct(names: seq<string>, known: set<string>)
    requires Distinct(names)
    ensures Distinct(Among(names, known))
    ensures forall name :: name in Among(names, known) <==> name in names && name in known
  {
    if names != [] {
      AmongDistinct(names[1..], known);
      assert names == [names[0]] + names[1..];
    }
  }

  function CommandPlan(name: string, members: LinkMembers, specs: seq<AppSpec>, commandNames: seq<string>): LinkPlan {
    var requested := Requested(members, commandNames);
    Commands(name, Among(requested, NamesWhere(specs, true)), requested)
  }

  /** The plans of the first `n` entries of the links section. */
  function LinkPlansUpTo(links: seq<(string, LinkMembers)>, specs: seq<AppSpec>, commandNames: seq<string>, n: nat)
    : seq<LinkPlan>
    requires n <= |links|
  {
    if n == 0 then []
    else
      var rest := LinkPlansUpTo(links, specs, commandNames, n - 1);
      var (name, members) := links[n - 1];
      if !IsUsableName(name) || name in NamesWhere(specs, false) then rest
      else rest + [CommandPlan(name, members, specs, commandNames)]
  }

  function Plans(loaded: Loaded): seq<LinkPlan> {
    var specs := Specs(loaded.settings);
    DirectPlans(specs) + LinkPlansUpTo(loaded.settings.links, specs, loaded.commandNames, |loaded.settings.links|)
  }

  method CompileLinks(loaded: Loaded) returns (plans: seq<LinkPlan>)
    ensures plans == Plans(loaded)
  {
    var specs := CompileApps(loaded.settings);
    var links := loaded.settings.links;
    plans := DirectPlans(specs);
    var i := 0;

    while i < |links|
      invariant 0 <= i <= |links|
      invariant plans == DirectPlans(specs) + LinkPlansUpTo(links, specs, loaded.commandNames, i)
    {
      var (name, members) := links[i];
      i := i + 1;

      if !IsUsableName(name) {
        continue;
      }

      if name in NamesWhere(specs, false) {
        continue;
      }

      plans := plans + [CommandPlan(name, members, specs, loaded.commandNames)];
    }
  }

  lemma {:induction false} DirectPlansExact(specs: seq<AppSpec>, plan: LinkPlan)
    ensures plan in DirectPlans(specs) <==>
            plan.Direct? && plan.name == plan.app && plan.name in NamesWhere(specs, false)
  {
    if specs != [] {
      DirectPlansExact(specs[1..], plan);
      assert specs == [specs[0]] + specs[1..];
      assert NamesWhere(specs, false) ==
             NamesWhere(specs[1..], false) + (if specs[0].commands.Some? then {} else {specs[0].name});
    }
  }

  ghost predicate UniquePlanNames(plans: seq<LinkPlan>) {
    forall i, j :: 0 <= i < j < |plans| ==> plans[i].name != plans[j].name
  }

  lemma {:induction false} DirectPlansUnique(specs: seq<AppSpec>)
    requires UniqueNames(specs)
    ensures UniquePlanNames(DirectPlans(specs))
  {
    if specs != [] {
      DirectPlansUnique(specs[1..]);
      var rest := DirectPlans(specs[1..]);
      forall j | 0 <= j < |rest| ensures rest[j].name != specs[0].name {
        DirectPlansExact(specs[1..], rest[j]);
      }
    }
  }

  /** Where a plan of a command link comes from. */
  lemma {:induction false} LinkPlansFrom(
    links: seq<(string, LinkMembers)>, specs: seq<AppSpec>, commandNames: seq<string>, n: nat)
    requires n <= |links| && Distinct(commandNames)
    requires forall i, j :: 0 <= i < j < |links| ==> links[i].0 != links[j].0
    ensures var plans := LinkPlansUpTo(links, specs, commandNames, n);
            && UniquePlanNames(plans)
            && forall k :: 0 <= k < |plans| ==>
                 && plans[k].Commands?
                 && plans[k].name in Keys(links[..n]) && IsUsableName(plans[k].name)
                 && plans[k].name !in NamesWhere(specs, false)
                 && Distinct(plans[k].membership) && Distinct(plans[k].apps)
                 && forall app :: app in plans[k].apps ==> app in NamesWhere(specs, true)
  {
    if n > 0 {
      hide Distinct, IsUsableName;
      LinkPlansFrom(links, specs, commandNames, n - 1);
      assert links[..n] == links[..n - 1] + [links[n - 1]];
      assert Keys(links[..n]) == Keys(links[..n - 1]) + {links[n - 1].0};
      assert links[n - 1].0 !in Keys(links[..n - 1]);
      CommandPlanSound(links[n - 1].0, links[n - 1].1, specs, commandNames);
    }
  }

  lemma {:induction false} CommandPlanSound(name: string, members: LinkMembers, specs: seq<AppSpec>,
                                            commandNames: seq<string>)
    requires Distinct(commandNames)
    ensures var plan := CommandPlan(name, members, specs, commandNames);
            && plan.Commands? && plan.name == name && Distinct(plan.membership) && Distinct(plan.apps)
            && forall app :: app in plan.apps ==> app in NamesWhere(specs, true)
  {
    hide NamesWhere;

    if members.Chosen? {
      DedupDistinct(members.apps);
    }

    AmongDistinct(Requested(members, commandNames), NamesWhere(specs, true));
  }

  /** Plan names are unique and among the links the file names; membership lists nobody twice,
      and the apps of a plan are different usable apps of commands. */
  lemma PlansSound(loaded: Loaded)
    requires WellFormed(loaded)
    ensures UniquePlanNames(Plans(loaded))
    ensures forall plan :: plan in Plans(loaded) ==> plan.name in LoadedLinks(loaded)
    ensures forall plan :: plan in Plans(loaded) && plan.Commands? ==>
              && Distinct(plan.membership) && Distinct(plan.apps)
              && forall app :: app in plan.apps ==> IsUsableName(app)
  {
    var settings := loaded.settings;
    var entries := Entries(settings);
    var specs := Specs(settings);
    var direct := DirectPlans(specs);
    var links := LinkPlansUpTo(settings.links, specs, loaded.commandNames, |settings.links|);
    SpecsUnique(entries, |entries|);
    DirectPlansUnique(specs);
    LinkPlansFrom(settings.links, specs, loaded.commandNames, |settings.links|);
    assert settings.links[..|settings.links|] == settings.links;
    forall i | 0 <= i < |direct|
      ensures direct[i].Direct? && direct[i].name in NamesWhere(specs, false)
      ensures direct[i].name in LoadedLinks(loaded)
    {
      DirectPlansExact(specs, direct[i]);
      DirectNameLoaded(loaded, direct[i].name);
    }
  }

  lemma DirectNameLoaded(loaded: Loaded, name: string)
    requires WellFormed(loaded) && name in NamesWhere(Specs(loaded.settings), false)
    ensures name in LoadedLinks(loaded)
  {
    var entries := Entries(loaded.settings);
    var specs := Specs(loaded.settings);
    var k :| 0 <= k < |specs| && specs[k].commands.None? && specs[k].name == name;
    SpecsExact(entries, |entries|, specs[k]);
    var i :| 0 <= i < |entries| && Accepted(entries, i) && Built(entries[i].0, entries[i].1) == Some(specs[k]);
    assert entries[i].1.Mcp?;
    assert name == loaded.settings.mcp[i].0;
  }

  // ----- what is compiled, entry by entry

  /** The first `x` stands before every `y`. */
  ghost predicate Before(names: seq<string>, x: string, y: string) {
    exists p :: 0 <= p < |names| && names[p] == x && y !in names[..p]
  }

  /** In the order in which they first stand there. */
  ghost predicate InOrderOf(some: seq<string>, names: seq<string>) {
    forall i, j :: 0 <= i < j < |some| ==> Before(names, some[i], some[j])
  }

  lemma {:induction false} BeforeLater(first: string, names: seq<string>, x: string, y: string)
    ensures Before(names, x, y) && y != first ==> Before([first] + names, x, y)
    ensures Before([first] + names, first, y)
  {
    var more := [first] + names;
    assert more[0] == first && more[..0] == [];

    if Before(names, x, y) && y != first {
      var p :| 0 <= p < |names| && names[p] == x && y !in names[..p];
      assert more[p + 1] == x && more[..p + 1] == [first] + names[..p];
    }
  }

  lemma {:induction false} BeforeMore(names: seq<string>, last: string, x: string, y: string)
    ensures Before(names, x, y) ==> Before(names + [last], x, y)
    ensures x in names && last !in names ==> Before(names + [last], x, last)
  {
    var more := names + [last];

    if Before(names, x, y) {
      var p :| 0 <= p < |names| && names[p] == x && y !in names[..p];
      assert more[p] == x && more[..p] == names[..p];
    }

    if x in names && last !in names {
      var p :| 0 <= p < |names| && names[p] == x;
      assert more[p] == x && more[..p] == names[..p];
    }
  }

  /** One more name at the end. */
  lemma {:induction false} OrderedMore(some: seq<string>, names: seq<string>, last: string)
    requires InOrderOf(some, names) && forall name :: name in some ==> name in names
    ensures InOrderOf(some, names + [last])
    ensures last !in names ==> InOrderOf(some + [last], names + [last])
  {
    hide Before;
    forall i, j | 0 <= i < j < |some| ensures Before(names + [last], some[i], some[j]) {
      BeforeMore(names, last, some[i], some[j]);
    }

    if last !in names {
      var all := some + [last];
      forall i, j | 0 <= i < j < |all| ensures Before(names + [last], all[i], all[j]) {
        assert some[i] in some;
        BeforeMore(names, last, all[i], all[j]);
      }
    }
  }

  function NamesOf<T>(entries: seq<(string, T)>): seq<string> {
    seq(|entries|, i requires 0 <= i < |entries| => entries[i].0)
  }

  /** An enabled MCP server that resolves, the first of a usable name, is an app that is trusted as the
      settings say. */
  ghost predicate FromServer(settings: Settings, spec: AppSpec) {
    exists i :: 0 <= i < |settings.mcp|
      && IsUsableName(settings.mcp[i].0) && settings.mcp[i].0 !in NamesOf(settings.mcp[..i])
      && settings.mcp[i].1.enabled && settings.mcp[i].1.resolves
      && spec == AppSpec(settings.mcp[i].0, None, settings.mcp[i].1.allowDangerous)
  }

  /** So is an app of commands with tools, the first of a usable name that no MCP server has. */
  ghost predicate FromCommands(settings: Settings, spec: AppSpec) {
    exists i :: 0 <= i < |settings.commands|
      && IsUsableName(settings.commands[i].0) && settings.commands[i].0 !in NamesOf(settings.commands[..i])
      && settings.commands[i].0 !in NamesOf(settings.mcp)
      && settings.commands[i].1.tools != map[]
      && spec == AppSpec(settings.commands[i].0, Some(settings.commands[i].1.tools),
                         settings.commands[i].1.allowDangerous)
  }

  lemma {:induction false} AcceptedServer(settings: Settings, i: nat)
    requires i < |settings.mcp|
    ensures Accepted(Entries(settings), i) <==>
            IsUsableName(settings.mcp[i].0) && settings.mcp[i].0 !in NamesOf(settings.mcp[..i])
  {
    var entries, names := Entries(settings), NamesOf(settings.mcp[..i]);
    assert forall j :: 0 <= j < i ==> names[j] == entries[j].0;
    assert entries[i].0 == settings.mcp[i].0;
  }

  lemma {:induction false} AcceptedCommands(settings: Settings, i: nat)
    requires i < |settings.commands|
    ensures Accepted(Entries(settings), |settings.mcp| + i) <==>
            && IsUsableName(settings.commands[i].0) && settings.commands[i].0 !in NamesOf(settings.commands[..i])
            && settings.commands[i].0 !in NamesOf(settings.mcp)
  {
    var entries := Entries(settings);
    var servers, names := NamesOf(settings.mcp), NamesOf(settings.commands[..i]);
    var n, name := |settings.mcp|, settings.commands[i].0;
    assert entries[n + i].0 == name;
    assert forall j :: 0 <= j < n ==> servers[j] == entries[j].0;
    assert forall j :: 0 <= j < i ==> names[j] == entries[n + j].0;

    if name !in servers && name !in names {
      forall j | 0 <= j < n + i ensures entries[j].0 != name {
        assert j < n ==> entries[j].0 == servers[j];
        assert j >= n ==> entries[j].0 == names[j - n];
      }
    }
  }

  lemma {:induction false} CompiledFrom(settings: Settings, spec: AppSpec)
    requires From(spec, Entries(settings), |Entries(settings)|)
    ensures FromServer(settings, spec) || FromCommands(settings, spec)
  {
    hide IsUsableName, Accepted, NamesOf;
    var entries, n := Entries(settings), |settings.mcp|;
    var i :| 0 <= i < |entries| && Accepted(entries, i) && Built(entries[i].0, entries[i].1) == Some(spec);

    if i < n {
      AcceptedServer(settings, i);
      assert entries[i] == (settings.mcp[i].0, Mcp(settings.mcp[i].1));
      assert FromServer(settings, spec);
    } else {
      AcceptedCommands(settings, i - n);
      assert entries[i] == (settings.commands[i - n].0, Command(settings.commands[i - n].1));
      assert FromCommands(settings, spec);
    }
  }

  lemma {:induction false} ServerCompiles(settings: Settings, spec: AppSpec)
    requires FromServer(settings, spec)
    ensures From(spec, Entries(settings), |Entries(settings)|)
  {
    hide IsUsableName, Accepted, NamesOf;
    var i :| 0 <= i < |settings.mcp|
      && IsUsableName(settings.mcp[i].0) && settings.mcp[i].0 !in NamesOf(settings.mcp[..i])
      && settings.mcp[i].1.enabled && settings.mcp[i].1.resolves
      && spec == AppSpec(settings.mcp[i].0, None, settings.mcp[i].1.allowDangerous);
    AcceptedServer(settings, i);
    assert Entries(settings)[i] == (settings.mcp[i].0, Mcp(settings.mcp[i].1));
  }

  lemma {:induction false} CommandsCompile(settings: Settings, spec: AppSpec)
    requires FromCommands(settings, spec)
    ensures From(spec, Entries(settings), |Entries(settings)|)
  {
    hide IsUsableName, Accepted, NamesOf;
    var i :| 0 <= i < |settings.commands|
      && IsUsableName(settings.commands[i].0) && settings.commands[i].0 !in NamesOf(settings.commands[..i])
      && settings.commands[i].0 !in NamesOf(settings.mcp)
      && settings.commands[i].1.tools != map[]
      && spec == AppSpec(settings.commands[i].0, Some(settings.commands[i].1.tools),
                         settings.commands[i].1.allowDangerous);
    AcceptedCommands(settings, i);
    assert Entries(settings)[|settings.mcp| + i] == (settings.commands[i].0, Command(settings.commands[i].1));
  }

  /** Exactly these are compiled. */
  lemma {:induction false} CompiledExactly(settings: Settings, spec: AppSpec)
    ensures spec in Specs(settings) <==> FromServer(settings, spec) || FromCommands(settings, spec)
  {
    hide FromServer, FromCommands, From, SpecsUpTo;
    SpecsExact(Entries(settings), |Entries(settings)|, spec);

    if FromServer(settings, spec) {
      ServerCompiles(settings, spec);
    } else if FromCommands(settings, spec) {
      CommandsCompile(settings, spec);
    } else if From(spec, Entries(settings), |Entries(settings)|) {
      CompiledFrom(settings, spec);
    }
  }

  /** Where a spec comes from in the order of the entries. */
  lemma {:induction false} SpecsOrdered(entries: seq<(string, Entry)>, n: nat)
    requires n <= |entries|
    ensures InOrderOf(SpecNames(SpecsUpTo(entries, n)), NamesOf(entries[..n]))
    ensures forall name :: name in SpecNames(SpecsUpTo(entries, n)) ==> name in NamesOf(entries[..n])
  {
    if n > 0 {
      hide InOrderOf, IsUsableName;
      var rest, specs := SpecsUpTo(entries, n - 1), SpecsUpTo(entries, n);
      var before, last := NamesOf(entries[..n - 1]), entries[n - 1].0;
      SpecsOrdered(entries, n - 1);
      assert NamesOf(entries[..n]) == before + [last];
      OrderedMore(SpecNames(rest), before, last);

      if |specs| > |rest| {
        assert SpecNames(specs) == SpecNames(rest) + [last];
        assert forall j :: 0 <= j < n - 1 ==> before[j] == entries[j].0;
      }
    }
  }

  function SpecNames(specs: seq<AppSpec>): seq<string> {
    seq(|specs|, i requires 0 <= i < |specs| => specs[i].name)
  }

  /** The specs are in the order of the file, MCP servers first. */
  lemma {:induction false} CompiledInOrder(settings: Settings)
    ensures InOrderOf(SpecNames(Specs(settings)), NamesOf(settings.mcp) + NamesOf(settings.commands))
  {
    var entries := Entries(settings);
    SpecsOrdered(entries, |entries|);
    assert NamesOf(entries[..|entries|]) == NamesOf(settings.mcp) + NamesOf(settings.commands);
  }

  // ----- the plan of a link

  lemma {:induction false} DedupOrdered(names: seq<string>)
    ensures InOrderOf(Dedup(names), names)
  {
    if names != [] {
      hide InOrderOf;
      var before, last := names[..|names| - 1], names[|names| - 1];
      DedupOrdered(before);
      DedupDistinct(before);
      OrderedMore(Dedup(before), before, last);
      assert names == before + [last];
    }
  }

  lemma {:induction false} AmongOrdered(names: seq<string>, known: set<string>)
    requires Distinct(names)
    ensures InOrderOf(Among(names, known), names)
  {
    if names != [] {
      var rest := Among(names[1..], known);
      hide InOrderOf;
      AmongOrdered(names[1..], known);
      AmongDistinct(names[1..], known);
      assert names == [names[0]] + names[1..];
      OrderedLater(names[0], names[1..], rest);
      assert Among(names, known) == if names[0] in known then [names[0]] + rest else rest;
    }
  }

  /** The plan that a link's entry means: all apps of commands or the chosen ones, each once and in the
      order first named; and of those, in that order, the ones that compiled. */
  ghost predicate IsPlanOf(plan: LinkPlan, name: string, members: LinkMembers, loaded: Loaded) {
    && plan.Commands? && plan.name == name
    && Distinct(plan.membership) && Distinct(plan.apps)
    && (members.All? ==> plan.membership == loaded.commandNames)
    && (members.Chosen? ==>
          && (forall app :: app in plan.membership <==> app in members.apps)
          && InOrderOf(plan.membership, members.apps))
    && (forall app :: app in plan.apps <==>
          app in plan.membership
          && exists spec :: spec in Specs(loaded.settings) && spec.name == app && spec.commands.Some?)
    && InOrderOf(plan.apps, plan.membership)
  }

  lemma {:induction false} CommandPlanMeans(loaded: Loaded, name: string, members: LinkMembers)
    requires Distinct(loaded.commandNames)
    ensures IsPlanOf(CommandPlan(name, members, Specs(loaded.settings), loaded.commandNames), name, members, loaded)
  {
    hide Specs, InOrderOf;
    var specs := Specs(loaded.settings);
    var plan := CommandPlan(name, members, specs, loaded.commandNames);

    if members.Chosen? {
      DedupDistinct(members.apps);
      DedupOrdered(members.apps);
    }

    AmongDistinct(plan.membership, NamesWhere(specs, true));
    AmongOrdered(plan.membership, NamesWhere(specs, true));
    forall app
      ensures app in NamesWhere(specs, true) <==>
              exists spec :: spec in specs && spec.name == app && spec.commands.Some?
    {
      if app in NamesWhere(specs, true) {
        var k :| 0 <= k < |specs| && specs[k].commands.Some? && specs[k].name == app;
        assert specs[k] in specs;
      }
    }
  }

  lemma {:induction false} LinkPlansExact(
    links: seq<(string, LinkMembers)>, specs: seq<AppSpec>, commandNames: seq<string>, n: nat, plan: LinkPlan)
    requires n <= |links|
    ensures plan in LinkPlansUpTo(links, specs, commandNames, n) <==>
            exists i :: 0 <= i < n && IsUsableName(links[i].0) && links[i].0 !in NamesWhere(specs, false)
                        && plan == CommandPlan(links[i].0, links[i].1, specs, commandNames)
  {
    hide CommandPlan, NamesWhere, IsUsableName;

    if n > 0 {
      LinkPlansExact(links, specs, commandNames, n - 1, plan);
    }
  }

  /** A server app that compiled. */
  ghost predicate IsServer(loaded: Loaded, name: string) {
    exists spec :: spec in Specs(loaded.settings) && spec.name == name && spec.commands.None?
  }

  /** The entry of the links section means a plan. */
  ghost predicate MeansPlan(loaded: Loaded, i: nat) {
    && i < |loaded.settings.links|
    && IsUsableName(loaded.settings.links[i].0) && !IsServer(loaded, loaded.settings.links[i].0)
  }

  /** The plans are exactly one for each compiled server app, over itself, and one for each entry of the
      links section with a usable name that no server app has. */
  lemma {:induction false} PlansExactly(loaded: Loaded, plan: LinkPlan)
    requires WellFormed(loaded)
    ensures plan in Plans(loaded) && plan.Direct? <==>
            plan.Direct? && plan.app == plan.name && IsServer(loaded, plan.name)
    ensures plan in Plans(loaded) && plan.Commands? ==>
              exists i: nat :: MeansPlan(loaded, i)
                && IsPlanOf(plan, loaded.settings.links[i].0, loaded.settings.links[i].1, loaded)
    ensures forall i: nat | MeansPlan(loaded, i) ::
              exists there :: there in Plans(loaded)
                && IsPlanOf(there, loaded.settings.links[i].0, loaded.settings.links[i].1, loaded)
  {
    hide Specs, IsUsableName, IsPlanOf, CommandPlan, IsServer;
    var specs, links := Specs(loaded.settings), loaded.settings.links;
    DirectPlansExact(specs, plan);
    LinkPlansExact(links, specs, loaded.commandNames, |links|, plan);
    forall name ensures name in NamesWhere(specs, false) <==> IsServer(loaded, name) {
      ServerNames(loaded, name);
    }
    CommandPlanKind(specs, loaded.commandNames);

    if plan in Plans(loaded) && plan.Commands? {
      var i :| 0 <= i < |links| && IsUsableName(links[i].0) && links[i].0 !in NamesWhere(specs, false)
               && plan == CommandPlan(links[i].0, links[i].1, specs, loaded.commandNames);
      CommandPlanMeans(loaded, links[i].0, links[i].1);
      assert MeansPlan(loaded, i);
    }

    forall i: nat | MeansPlan(loaded, i)
      ensures exists there :: there in Plans(loaded) && IsPlanOf(there, links[i].0, links[i].1, loaded)
    {
      CommandPlanMeans(loaded, links[i].0, links[i].1);
      PlanThere(loaded, i);
      assert CommandPlan(links[i].0, links[i].1, specs, loaded.commandNames) in Plans(loaded);
    }
  }

  lemma {:induction false} ServerNames(loaded: Loaded, name: string)
    ensures name in NamesWhere(Specs(loaded.settings), false) <==> IsServer(loaded, name)
  {
    hide Specs;
    var specs := Specs(loaded.settings);

    if name in NamesWhere(specs, false) {
      var k :| 0 <= k < |specs| && specs[k].commands.None? && specs[k].name == name;
      assert specs[k] in specs;
    }
  }

  lemma {:induction false} CommandPlanKind(specs: seq<AppSpec>, commandNames: seq<string>)
    ensures forall name: string, members :: CommandPlan(name, members, specs, commandNames).Commands?
  {
  }

  lemma {:induction false} PlanThere(loaded: Loaded, i: nat)
    requires i < |loaded.settings.links|
    ensures var (specs, link) := (Specs(loaded.settings), loaded.settings.links[i]);
            IsUsableName(link.0) && link.0 !in NamesWhere(specs, false) ==>
              CommandPlan(link.0, link.1, specs, loaded.commandNames) in Plans(loaded)
  {
    hide Specs, CommandPlan, IsUsableName;
    var (specs, links) := (Specs(loaded.settings), loaded.settings.links);
    LinkPlansExact(links, specs, loaded.commandNames, |links|,
                   CommandPlan(links[i].0, links[i].1, specs, loaded.commandNames));
  }

  lemma {:induction false} LinkPlansOrdered(
    links: seq<(string, LinkMembers)>, specs: seq<AppSpec>, commandNames: seq<string>, n: nat)
    requires n <= |links| && forall i, j :: 0 <= i < j < |links| ==> links[i].0 != links[j].0
    ensures var names := PlanNames(LinkPlansUpTo(links, specs, commandNames, n));
            InOrderOf(names, NamesOf(links[..n])) && forall name :: name in names ==> name in NamesOf(links[..n])
  {
    if n > 0 {
      hide NamesWhere, IsUsableName, InOrderOf;
      var rest, all := LinkPlansUpTo(links, specs, commandNames, n - 1), LinkPlansUpTo(links, specs, commandNames, n);
      var before, last := NamesOf(links[..n - 1]), links[n - 1].0;
      LinkPlansOrdered(links, specs, commandNames, n - 1);
      assert NamesOf(links[..n]) == before + [last];
      assert forall j :: 0 <= j < n - 1 ==> before[j] == links[j].0;
      OrderedMore(PlanNames(rest), before, last);

      if |all| > |rest| {
        assert PlanNames(all) == PlanNames(rest) + [last];
      }
    }
  }

  function PlanNames(plans: seq<LinkPlan>): seq<string> {
    seq(|plans|, i requires 0 <= i < |plans| => plans[i].name)
  }

  lemma {:induction false} DirectPlanNames(specs: seq<AppSpec>)
    requires UniqueNames(specs)
    ensures forall i :: 0 <= i < |DirectPlans(specs)| ==> DirectPlans(specs)[i].Direct?
    ensures InOrderOf(PlanNames(DirectPlans(specs)), SpecNames(specs))
    ensures forall name :: name in PlanNames(DirectPlans(specs)) ==> name in SpecNames(specs)
  {
    if specs != [] {
      hide InOrderOf, UniqueNames;
      var rest := DirectPlans(specs[1..]);
      var first, later := specs[0].name, SpecNames(specs[1..]);
      RestUnique(specs);
      DirectPlanNames(specs[1..]);
      assert SpecNames(specs) == [first] + later;
      OrderedLater(first, later, PlanNames(rest));

      if specs[0].commands.None? {
        assert PlanNames(DirectPlans(specs)) == [first] + PlanNames(rest);
      } else {
        assert DirectPlans(specs) == rest;
      }
    }
  }

  /** One more name in front. */
  lemma {:induction false} OrderedLater(first: string, names: seq<string>, some: seq<string>)
    requires InOrderOf(some, names) && first !in names && forall name :: name in some ==> name in names
    ensures InOrderOf(some, [first] + names) && InOrderOf([first] + some, [first] + names)
  {
    hide Before;
    forall i, j | 0 <= i < j < |some| ensures Before([first] + names, some[i], some[j]) {
      assert some[j] in some;
      BeforeLater(first, names, some[i], some[j]);
    }
    var all := [first] + some;
    forall i, j | 0 <= i < j < |all| ensures Before([first] + names, all[i], all[j]) {
      BeforeLater(first, names, all[i], all[j]);
      assert i > 0 ==> all[i] == some[i - 1] && all[j] == some[j - 1];
    }
  }

  lemma {:induction false} RestUnique(specs: seq<AppSpec>)
    requires UniqueNames(specs) && specs != []
    ensures UniqueNames(specs[1..]) && specs[0].name !in SpecNames(specs[1..])
  {
    forall k | 0 <= k < |SpecNames(specs[1..])| ensures SpecNames(specs[1..])[k] != specs[0].name {
      assert SpecNames(specs[1..])[k] == specs[k + 1].name;
    }
  }

  /** Server apps come first, in the order they compiled; then the links in the order of the file. */
  lemma {:induction false} PlansInOrder(loaded: Loaded)
    requires WellFormed(loaded)
    ensures exists n :: 0 <= n <= |Plans(loaded)|
              && (forall i :: 0 <= i < |Plans(loaded)| ==> (Plans(loaded)[i].Direct? <==> i < n))
              && InOrderOf(PlanNames(Plans(loaded)[..n]), SpecNames(Specs(loaded.settings)))
              && InOrderOf(PlanNames(Plans(loaded)[n..]), NamesOf(loaded.settings.links))
  {
    hide Specs, InOrderOf;
    var settings := loaded.settings;
    var specs := Specs(settings);
    var direct := DirectPlans(specs);
    var links := LinkPlansUpTo(settings.links, specs, loaded.commandNames, |settings.links|);
    SpecsAreUnique(settings);
    DirectPlanNames(specs);
    LinkPlansOrdered(settings.links, specs, loaded.commandNames, |settings.links|);
    LinkPlansFrom(settings.links, specs, loaded.commandNames, |settings.links|);
    assert settings.links[..|settings.links|] == settings.links;
    assert Plans(loaded)[..|direct|] == direct && Plans(loaded)[|direct|..] == links;
  }

  lemma {:induction false} SpecsAreUnique(settings: Settings)
    ensures UniqueNames(Specs(settings))
  {
    SpecsUnique(Entries(settings), |Entries(settings)|);
  }
}
