/** The live registry of src/registry.rs: every interleaving of checks, rule changes, downs,
    additions and removals. */
module Registry {
  import opened Prelude
  import opened Apps
  import opened Policy

  datatype ServerState = Starting | Waiting | Live | Refused

  datatype PhysicalApp = PhysicalApp(
    spec: AppSpec, state: ServerState, tools: seq<Tool>, allowed: set<string>, defaultOn: bool)

  /** Whether a tool runs code: what its command says, or else what `announced`, the judgement
      of the announcement, says. */
  predicate RunsCode(announced: Tool -> bool, spec: AppSpec, tool: Tool) {
    if spec.commands.Some? && tool.name in spec.commands.value then spec.commands.value[tool.name].runsCode
    else announced(tool)
  }

  function ValidTools(tools: seq<Tool>): seq<Tool> {
    if tools == [] then []
    else (if ValidToolName(tools[0].name) then [tools[0]] else []) + ValidTools(tools[1..])
  }

  predicate AllowsCode(announced: Tool -> bool, app: PhysicalApp) {
    exists tool | tool in app.tools :: tool.name in app.allowed && RunsCode(announced, app.spec, tool)
  }

  /** The entry after a check that listed these tools. */
  function Checked(announced: Tool -> bool, entry: PhysicalApp, tools: seq<Tool>, rules: seq<Rule>): PhysicalApp {
    var valid := ValidTools(tools);
    var next := entry.(
      tools := valid,
      allowed := AllowedToolNames(valid, rules, entry.spec.name),
      defaultOn := AppDefaultOn(rules, entry.spec.name));
    next.(state := if !AllowsCode(announced, next) || entry.spec.allowDangerous then Live else ServerState.Refused)
  }

  function WaitingFor(entry: PhysicalApp): PhysicalApp {
    entry.(state := Waiting)
  }

  /** A checked entry is what a check computes from its tools and these rules. */
  predicate Agrees(announced: Tool -> bool, app: PhysicalApp, rules: seq<Rule>) {
    app.state.Live? || app.state.Refused? ==> app == Checked(announced, app, app.tools, rules)
  }

  /** A live app allows no tool that runs code, unless it is trusted to. */
  predicate Safe(announced: Tool -> bool, app: PhysicalApp) {
    app.state.Live? && !app.spec.allowDangerous ==> !AllowsCode(announced, app)
  }

  /** An app allows only tools it listed, and an app of commands lists only its own. */
  predicate AllowsKnown(app: PhysicalApp) {
    && (forall tool | tool in app.tools :: app.spec.commands.Some? ==> tool.name in app.spec.commands.value)
    && forall name | name in app.allowed :: exists tool | tool in app.tools :: tool.name == name
  }

  lemma {:induction false} ValidToolsExact(tools: seq<Tool>)
    ensures forall tool :: tool in ValidTools(tools) <==> tool in tools && ValidToolName(tool.name)
    ensures ValidTools(ValidTools(tools)) == ValidTools(tools)
  {
    if tools != [] {
      ValidToolsExact(tools[1..]);
      assert tools == [tools[0]] + tools[1..];
      var rest := ValidTools(tools[1..]);

      if ValidToolName(tools[0].name) {
        var all := [tools[0]] + rest;
        assert ValidTools(tools) == all && all[1..] == rest;
        assert ValidTools(all) == [tools[0]] + ValidTools(rest);
      } else {
        assert ValidTools(tools) == rest;
      }
    }
  }

  lemma {:induction false} CheckedAgrees(announced: Tool -> bool, entry: PhysicalApp, tools: seq<Tool>,
                                         rules: seq<Rule>)
    ensures var app := Checked(announced, entry, tools, rules);
            Agrees(announced, app, rules) && Safe(announced, app)
  {
    ValidToolsExact(tools);
  }

  // ----- interleavings

  /** Where a task is. Slots are objects: a removed slot lives on while a check still holds it. */
  datatype Task =
    | Listing(slot: nat)                                              // waiting for the tool list
    | Listed(slot: nat, tools: Option<seq<Tool>>)                     // waiting for the rules lock
    | Locked(slot: nat, tools: Option<seq<Tool>>)                     // about to read the rules
    | Ready(slot: nat, tools: Option<seq<Tool>>, rules: seq<Rule>)    // about to change the entry
    | Changed                                                         // about to release the lock
    | Setting(rules: seq<Rule>)                                       // waiting for the rules lock
    | Storing(rules: seq<Rule>)                                       // about to store the rules
    | Stored(rules: seq<Rule>)                                        // about to list the slots
    | Updating(rules: seq<Rule>, left: set<nat>)                      // about to change the next entry
    | Over

  datatype State = State(
    slots: map<string, nat>, entries: map<nat, PhysicalApp>, rules: seq<Rule>, lock: Option<nat>, tasks: map<nat, Task>)

  datatype Action =
    | Adds(spec: AppSpec, slot: nat)
    | Removes(name: string)
    | MarksDown(name: string)
    | Checks(t: nat, slot: nat)
    | Sets(t: nat, rules: seq<Rule>)
    | Acts(t: nat, tools: Option<seq<Tool>>, slot: nat)

  function Go(p: State, t: nat, task: Task): State {
    p.(tasks := p.tasks[t := task])
  }

  /** What a source answers: an app of commands lists exactly its own tools. */
  ghost predicate Lists(spec: AppSpec, tools: Option<seq<Tool>>) {
    spec.commands.Some? ==>
      tools.Some? && forall tool :: tool in tools.value ==> tool.name in spec.commands.value
  }

  ghost predicate Acted(announced: Tool -> bool, p: State, t: nat, tools: Option<seq<Tool>>, slot: nat, q: State)
    requires t in p.tasks
  {
    match p.tasks[t]
    case Listing(s) => s in p.entries && Lists(p.entries[s].spec, tools) && q == Go(p, t, Listed(s, tools))
    case Listed(s, found) => p.lock.None? && q == Go(p, t, Locked(s, found)).(lock := Some(t))
    case Locked(s, found) => q == Go(p, t, Ready(s, found, p.rules))
    case Ready(s, found, rules) =>
      && s in p.entries
      && q == Go(p, t, Changed).(entries := p.entries[s :=
           if found.None? then WaitingFor(p.entries[s]) else Checked(announced, p.entries[s], found.value, rules)])
    case Changed => q == Go(p, t, Over).(lock := None)
    case Setting(rules) => p.lock.None? && q == Go(p, t, Storing(rules)).(lock := Some(t))
    case Storing(rules) => q == Go(p, t, Stored(rules)).(rules := rules)
    case Stored(rules) => q == Go(p, t, Updating(rules, p.slots.Values))
    case Updating(rules, left) =>
      if left == {} then q == Go(p, t, Over).(lock := None)
      else
        && slot in left && slot in p.entries
        && q == Go(p, t, Updating(rules, left - {slot}))
                .(entries := p.entries[slot := Updated(announced, p.entries[slot], rules)])
    case Over => q == p
  }

  function Updated(announced: Tool -> bool, entry: PhysicalApp, rules: seq<Rule>): PhysicalApp {
    if entry.state.Live? || entry.state.Refused? then Checked(announced, entry, entry.tools, rules) else entry
  }

  ghost predicate Does(announced: Tool -> bool, p: State, action: Action, q: State) {
    match action
    case Adds(spec, slot) =>
      && slot !in p.entries
      && q == p.(slots := p.slots[spec.name := slot],
                 entries := p.entries[slot := PhysicalApp(spec, Starting, [], {}, true)])
    case Removes(name) => q == p.(slots := p.slots - {name})
    case MarksDown(name) =>
      && name in p.slots && p.slots[name] in p.entries
      && var entry := p.entries[p.slots[name]];
         q == p.(entries := p.entries[p.slots[name] := if entry.state.Live? then WaitingFor(entry) else entry])
    case Checks(t, slot) => t !in p.tasks && slot in p.entries && q == Go(p, t, Listing(slot))
    case Sets(t, rules) => t !in p.tasks && q == Go(p, t, Setting(rules))
    case Acts(t, tools, slot) => t in p.tasks && Acted(announced, p, t, tools, slot, q)
  }

  ghost predicate Next(announced: Tool -> bool, p: State, q: State) {
    exists action :: Does(announced, p, action, q)
  }

  ghost predicate Run(announced: Tool -> bool, trace: seq<State>) {
    && trace != [] && trace[0] == State(map[], map[], [], None, map[])
    && forall i :: 0 <= i < |trace| - 1 ==> Next(announced, trace[i], trace[i + 1])
  }

  // ----- what every action keeps

  predicate HoldsLock(task: Task) {
    task.Locked? || task.Ready? || task.Changed? || task.Storing? || task.Stored? || task.Updating?
  }

  /** Slots whose entry may still reflect older rules. */
  function Stale(p: State): set<nat> {
    if p.lock.Some? && p.lock.value in p.tasks then
      match p.tasks[p.lock.value]
      case Stored(_) => p.slots.Values
      case Updating(_, left) => left
      case _ => {}
    else {}
  }

  /** The slot a check works on, with the tools it listed. */
  ghost predicate TaskSound(p: State, task: Task) {
    match task
    case Listing(s) => s in p.entries
    case Listed(s, found) => s in p.entries && Lists(p.entries[s].spec, found)
    case Locked(s, found) => s in p.entries && Lists(p.entries[s].spec, found)
    case Ready(s, found, rules) => s in p.entries && Lists(p.entries[s].spec, found) && rules == p.rules
    case Stored(rules) => rules == p.rules
    case Updating(rules, left) => rules == p.rules && forall s :: s in left ==> s in p.entries
    case _ => true
  }

  ghost predicate LockSound(p: State) {
    && (forall t :: t in p.tasks && HoldsLock(p.tasks[t]) ==> p.lock == Some(t))
    && (p.lock.Some? ==> p.lock.value in p.tasks && HoldsLock(p.tasks[p.lock.value]))
    && forall t :: t in p.tasks ==> TaskSound(p, p.tasks[t])
  }

  ghost predicate EntriesSound(announced: Tool -> bool, p: State) {
    && (forall name :: name in p.slots ==>
          p.slots[name] in p.entries && p.entries[p.slots[name]].spec.name == name)
    && (forall s :: s in p.entries ==> Safe(announced, p.entries[s]) && AllowsKnown(p.entries[s]))
    && forall name :: name in p.slots && p.slots[name] !in Stale(p) ==>
         Agrees(announced, p.entries[p.slots[name]], p.rules)
  }

  ghost predicate Inv(announced: Tool -> bool, p: State) {
    LockSound(p) && EntriesSound(announced, p)
  }

  lemma {:induction false} CheckedSound(announced: Tool -> bool, entry: PhysicalApp, tools: seq<Tool>, rules: seq<Rule>)
    requires entry.spec.commands.Some? ==> forall tool :: tool in tools ==> tool.name in entry.spec.commands.value
    ensures var app := Checked(announced, entry, tools, rules);
            Agrees(announced, app, rules) && Safe(announced, app) && AllowsKnown(app)
  {
    CheckedAgrees(announced, entry, tools, rules);
    ValidToolsExact(tools);
  }

  lemma {:induction false} MoveKeeps(announced: Tool -> bool, p: State, t: nat, task: Task, q: State)
    requires Inv(announced, p) && q == Go(p, t, task).(lock := q.lock)
    requires HoldsLock(task) ==> (p.lock.None? || p.lock == Some(t)) && q.lock == Some(t)
    requires !HoldsLock(task) ==> q.lock == if p.lock == Some(t) then None else p.lock
    requires TaskSound(p, task)
    requires !task.Stored? && (task.Updating? ==> Stale(p) <= task.left)
    requires !task.Updating? && p.lock == Some(t) ==> Stale(p) == {}
    ensures Inv(announced, q)
  {
    hide Agrees, Safe, AllowsKnown, Lists;
  }

  /** An entry is replaced by one that keeps its spec and is sound. */
  lemma {:induction false} ReplaceKeeps(announced: Tool -> bool, p: State, s: nat, app: PhysicalApp, q: State)
    requires Inv(announced, p) && s in p.entries && q == p.(entries := p.entries[s := app])
    requires app.spec == p.entries[s].spec && Safe(announced, app) && AllowsKnown(app)
    requires s in Stale(p) || Agrees(announced, app, p.rules)
    ensures Inv(announced, q)
  {
    forall t | t in q.tasks ensures TaskSound(q, q.tasks[t]) {
      assert TaskSound(p, p.tasks[t]);
    }
  }

  lemma {:induction false} StoreKeeps(announced: Tool -> bool, p: State, t: nat, rules: seq<Rule>, q: State)
    requires Inv(announced, p) && t in p.tasks && p.tasks[t] == Storing(rules)
    requires q == Go(p, t, Stored(rules)).(rules := rules)
    ensures Inv(announced, q)
  {
    forall u | u in q.tasks ensures TaskSound(q, q.tasks[u]) {
      if u != t {
        assert TaskSound(p, p.tasks[u]) && !HoldsLock(p.tasks[u]);
      }
    }
    forall name | name in q.slots ensures q.slots[name] in Stale(q) {
      assert q.slots[name] in q.slots.Values;
    }
  }

  lemma {:induction false} UpdatedSound(announced: Tool -> bool, entry: PhysicalApp, rules: seq<Rule>)
    requires Safe(announced, entry) && AllowsKnown(entry)
    ensures var app := Updated(announced, entry, rules);
            app.spec == entry.spec && Agrees(announced, app, rules) && Safe(announced, app) && AllowsKnown(app)
  {
    CheckedSound(announced, entry, entry.tools, rules);
  }

  lemma {:induction false} UpdateKeeps(announced: Tool -> bool, p: State, t: nat, slot: nat, q: State)
    requires Inv(announced, p) && t in p.tasks && p.tasks[t].Updating? && slot in p.tasks[t].left && slot in p.entries
    requires var rules := p.tasks[t].rules;
             q == Go(p, t, Updating(rules, p.tasks[t].left - {slot}))
                  .(entries := p.entries[slot := Updated(announced, p.entries[slot], rules)])
    ensures Inv(announced, q)
  {
    hide Updated, Agrees, Safe, AllowsKnown, Lists;
    assert TaskSound(p, p.tasks[t]) && p.lock == Some(t);
    UpdatedSound(announced, p.entries[slot], p.rules);
    forall u | u in q.tasks ensures TaskSound(q, q.tasks[u]) {
      if u != t {
        assert TaskSound(p, p.tasks[u]);
      }
    }
  }

  lemma {:induction false} AddKeeps(announced: Tool -> bool, p: State, spec: AppSpec, slot: nat, q: State)
    requires Inv(announced, p) && Does(announced, p, Adds(spec, slot), q)
    ensures Inv(announced, q)
  {
    forall t | t in q.tasks ensures TaskSound(q, q.tasks[t]) {
      assert TaskSound(p, p.tasks[t]);
    }
    forall name | name in q.slots && q.slots[name] !in Stale(q)
      ensures Agrees(announced, q.entries[q.slots[name]], q.rules)
    {
      assert q.slots[name] in q.slots.Values;
      assert name != spec.name ==> q.slots[name] in p.slots.Values;
    }
  }

  lemma {:induction false} RemoveKeeps(announced: Tool -> bool, p: State, name: string, q: State)
    requires Inv(announced, p) && q == p.(slots := p.slots - {name})
    ensures Inv(announced, q)
  {
    forall t | t in q.tasks ensures TaskSound(q, q.tasks[t]) {
      assert TaskSound(p, p.tasks[t]);
    }
    forall other | other in q.slots && q.slots[other] !in Stale(q)
      ensures Agrees(announced, q.entries[q.slots[other]], q.rules)
    {
      assert q.slots[other] in p.slots.Values && q.slots[other] in q.slots.Values;
    }
  }

  lemma {:induction false} ReadyKeeps(announced: Tool -> bool, p: State, t: nat, q: State)
    requires Inv(announced, p) && t in p.tasks && p.tasks[t].Ready? && Acted(announced, p, t, None, 0, q)
    ensures Inv(announced, q)
  {
    var Ready(s, found, rules) := p.tasks[t];
    assert TaskSound(p, p.tasks[t]);

    if found.Some? {
      CheckedSound(announced, p.entries[s], found.value, rules);
    }

    var replaced := p.(entries := q.entries);
    ReplaceKeeps(announced, p, s, q.entries[s], replaced);
    MoveKeeps(announced, replaced, t, Changed, q);
  }

  lemma {:induction false} ActedKeeps(announced: Tool -> bool, p: State, t: nat, tools: Option<seq<Tool>>,
                                      slot: nat, q: State)
    requires Inv(announced, p) && t in p.tasks && Acted(announced, p, t, tools, slot, q)
    ensures Inv(announced, q)
  {
    hide Agrees, Safe, AllowsKnown, Lists, Checked, Updated;
    assert TaskSound(p, p.tasks[t]);

    match p.tasks[t] {
      case Storing(rules) => StoreKeeps(announced, p, t, rules, q);
      case Ready(_, _, _) => ReadyKeeps(announced, p, t, q);
      case Updating(rules, left) =>
        if left == {} {
          MoveKeeps(announced, p, t, Over, q);
        } else {
          UpdateKeeps(announced, p, t, slot, q);
        }
      case Over =>
      case _ => MoveKeeps(announced, p, t, q.tasks[t], q);
    }
  }

  lemma {:induction false} NextKeeps(announced: Tool -> bool, p: State, q: State)
    requires Inv(announced, p) && Next(announced, p, q)
    ensures Inv(announced, q)
  {
    var action :| Does(announced, p, action, q);

    match action {
      case Adds(spec, slot) => AddKeeps(announced, p, spec, slot, q);
      case Removes(name) => RemoveKeeps(announced, p, name, q);
      case MarksDown(name) => ReplaceKeeps(announced, p, p.slots[name], q.entries[p.slots[name]], q);
      case Checks(t, slot) => MoveKeeps(announced, p, t, Listing(slot), q);
      case Sets(t, rules) => MoveKeeps(announced, p, t, Setting(rules), q);
      case Acts(t, tools, slot) => ActedKeeps(announced, p, t, tools, slot, q);
    }
  }

  lemma {:induction false} RunInv(announced: Tool -> bool, trace: seq<State>, i: nat)
    requires Run(announced, trace) && i < |trace|
    ensures Inv(announced, trace[i])
  {
    if i > 0 {
      RunInv(announced, trace, i - 1);
      NextKeeps(announced, trace[i - 1], trace[i]);
    }
  }

  /** Whenever the rules lock is free, every live or refused app is what a check of its tools
      under the current rules computes; and at every moment, no live app allows a tool that
      runs code unless it is trusted to. */
  lemma {:induction false} RulesInForce(announced: Tool -> bool, trace: seq<State>, i: nat)
    requires Run(announced, trace) && i < |trace|
    ensures var p := trace[i];
            && (forall name :: name in p.slots ==>
                  p.slots[name] in p.entries && p.entries[p.slots[name]].spec.name == name)
            && (p.lock.None? ==> forall name :: name in p.slots ==>
                  Agrees(announced, p.entries[p.slots[name]], p.rules))
            && (forall s :: s in p.entries ==> Safe(announced, p.entries[s]) && AllowsKnown(p.entries[s]))
  {
    RunInv(announced, trace, i);
  }

  // ----- what a checked app is

  /** Whether a tool runs code, spelled out. */
  predicate Runs(announced: Tool -> bool, app: PhysicalApp, tool: Tool) {
    match app.spec.commands
    case Some(commands) => if tool.name in commands then commands[tool.name].runsCode else announced(tool)
    case None => announced(tool)
  }

  /** What these rules say of an app: which of its tools are allowed, whether it is live or refused,
      and whether new tools are on. */
  ghost predicate Follows(announced: Tool -> bool, app: PhysicalApp, rules: seq<Rule>) {
    && (app.state.Live? || app.state.Refused?)
    && (forall name :: name in app.allowed <==>
          && (exists tool :: tool in app.tools && tool.name == name)
          && !exists i: nat :: Decides(rules, i, app.spec.name, name) && !rules[i].on)
    && (app.state.Live? <==>
          app.spec.allowDangerous
          || forall tool :: tool in app.tools && tool.name in app.allowed ==> !Runs(announced, app, tool))
    && (!app.defaultOn <==> exists i: nat :: DecidesAll(rules, i, app.spec.name) && !rules[i].on)
  }

  lemma {:induction false} CheckedFollows(announced: Tool -> bool, entry: PhysicalApp, tools: seq<Tool>,
                                          rules: seq<Rule>)
    ensures var app := Checked(announced, entry, tools, rules);
            && Follows(announced, app, rules) && app.spec == entry.spec
            && forall tool :: tool in app.tools <==> tool in tools && ValidToolName(tool.name)
  {
    hide RuleMatches, GlobMatches, AllowedToolNames, AppDefaultOn, ValidToolName;
    var app := Checked(announced, entry, tools, rules);
    ValidToolsExact(tools);
    forall name
      ensures name in app.allowed <==>
              && (exists tool :: tool in app.tools && tool.name == name)
              && !exists i: nat :: Decides(rules, i, app.spec.name, name) && !rules[i].on
    {
      AllowedExactly(app.tools, rules, app.spec.name, name);
    }
    LastWholeDecides(rules, app.spec.name);
    assert forall tool :: RunsCode(announced, app.spec, tool) == Runs(announced, app, tool);
  }

  /** While the rules lock is free, every live or refused app follows the rules in force: a tool it
      listed is allowed exactly when no last matching rule turns it off, and the app is live exactly
      when it is trusted to run code or no allowed tool runs any. */
  lemma {:induction false} RulesFollowed(announced: Tool -> bool, trace: seq<State>, i: nat, name: string)
    requires Run(announced, trace) && i < |trace| && trace[i].lock.None? && name in trace[i].slots
    requires trace[i].slots[name] in trace[i].entries
    ensures var app := trace[i].entries[trace[i].slots[name]];
            && app.spec.name == name
            && (app.state.Live? || app.state.Refused? ==> Follows(announced, app, trace[i].rules))
  {
    hide Follows, Checked;
    RulesInForce(announced, trace, i);
    var app := trace[i].entries[trace[i].slots[name]];
    CheckedFollows(announced, app, app.tools, trace[i].rules);
  }

  // ----- what the actions do to an entry

  /** The order of the listing is kept. */
  lemma {:induction false} ValidToolsConcat(tools: seq<Tool>, more: seq<Tool>)
    ensures ValidTools(tools + more) == ValidTools(tools) + ValidTools(more)
  {
    hide ValidToolName;

    if tools == [] {
      assert tools + more == more;
      assert [] + ValidTools(more) == ValidTools(more);
    } else {
      var first := if ValidToolName(tools[0].name) then [tools[0]] else [];
      assert (tools + more)[1..] == tools[1..] + more;
      ValidToolsConcat(tools[1..], more);
      assert first + (ValidTools(tools[1..]) + ValidTools(more)) == first + ValidTools(tools[1..]) + ValidTools(more);
    }
  }

  /** A check that listed nothing leaves the app waiting with what it had; one that listed tools
      leaves it with those that have valid names, following the rules it read. No other entry
      changes. */
  lemma {:induction false} CheckExactly(announced: Tool -> bool, p: State, t: nat, q: State)
    requires t in p.tasks && p.tasks[t].Ready? && Acted(announced, p, t, None, 0, q)
    ensures var Ready(s, found, rules) := p.tasks[t];
            && s in p.entries && q.entries.Keys == p.entries.Keys && q.slots == p.slots && q.rules == p.rules
            && (forall other :: other in p.entries && other != s ==> q.entries[other] == p.entries[other])
            && match found
               case None => q.entries[s] == p.entries[s].(state := Waiting)
               case Some(tools) =>
                 && Follows(announced, q.entries[s], rules) && q.entries[s].spec == p.entries[s].spec
                 && forall tool :: tool in q.entries[s].tools <==> tool in tools && ValidToolName(tool.name)
  {
    hide Follows, Checked, ValidToolName;
    var Ready(s, found, rules) := p.tasks[t];

    if found.Some? {
      CheckedFollows(announced, p.entries[s], found.value, rules);
    }
  }

  /** Changed rules reach a live or refused app with the tools it had, and no other. */
  lemma {:induction false} UpdatedExactly(announced: Tool -> bool, entry: PhysicalApp, rules: seq<Rule>)
    requires forall tool :: tool in entry.tools ==> ValidToolName(tool.name)
    ensures var app := Updated(announced, entry, rules);
            if entry.state.Live? || entry.state.Refused? then
              && Follows(announced, app, rules) && app.spec == entry.spec
              && forall tool :: tool in app.tools <==> tool in entry.tools
            else app == entry
  {
    hide Follows, Checked, ValidToolName;
    CheckedFollows(announced, entry, entry.tools, rules);
  }

  /** A check of this slot that listed these tools, at this moment of the run. */
  ghost predicate ListedAt(announced: Tool -> bool, trace: seq<State>, j: nat, t: nat, s: nat, tools: seq<Tool>) {
    && j + 1 < |trace| && t in trace[j].tasks
    && (exists rules :: trace[j].tasks[t] == Ready(s, Some(tools), rules))
    && Acted(announced, trace[j], t, None, 0, trace[j + 1])
  }

  ghost predicate FromListing(announced: Tool -> bool, trace: seq<State>, i: nat, s: nat, app: PhysicalApp) {
    exists j: nat, t: nat, tools: seq<Tool> ::
      j < i && ListedAt(announced, trace, j, t, s, tools) &&
      forall tool :: tool in app.tools <==> tool in tools && ValidToolName(tool.name)
  }

  /** How one action can change an entry. */
  ghost predicate EntryMoves(announced: Tool -> bool, p: State, q: State, s: nat, was: PhysicalApp, app: PhysicalApp) {
    || app == was || app == WaitingFor(was)
    || (exists t: nat :: t in p.tasks && p.tasks[t].Ready? && p.tasks[t].slot == s && p.tasks[t].tools.Some?
                    && Acted(announced, p, t, None, 0, q))
    || ((was.state.Live? || was.state.Refused?) && exists rules :: app == Checked(announced, was, was.tools, rules))
  }

  lemma {:induction false} ActedMoves(announced: Tool -> bool, p: State, t: nat, tools: Option<seq<Tool>>, slot: nat,
                                      q: State, s: nat)
    requires t in p.tasks && Acted(announced, p, t, tools, slot, q) && s in p.entries
    ensures s in q.entries && EntryMoves(announced, p, q, s, p.entries[s], q.entries[s])
    ensures q.entries.Keys == p.entries.Keys
  {
    hide Checked, Lists;

    if p.tasks[t].Ready? {
      assert Acted(announced, p, t, None, 0, q);
    }
  }

  /** An entry is new and only starting, or one action moves it on. */
  lemma {:induction false} NextMoves(announced: Tool -> bool, p: State, q: State, s: nat)
    requires Next(announced, p, q) && s in q.entries
    ensures if s in p.entries then EntryMoves(announced, p, q, s, p.entries[s], q.entries[s])
            else q.entries[s].state.Starting?
  {
    hide Acted, EntryMoves;
    var action :| Does(announced, p, action, q);

    if action.Acts? {
      if s in p.entries {
        ActedMoves(announced, p, action.t, action.tools, action.slot, q, s);
      } else {
        ActedAddsNone(announced, p, action.t, action.tools, action.slot, q);
      }
    } else if s in p.entries {
      MovesPlainly(announced, p, q, s, p.entries[s], q.entries[s]);
    }
  }

  lemma {:induction false} ActedAddsNone(announced: Tool -> bool, p: State, t: nat, tools: Option<seq<Tool>>,
                                         slot: nat, q: State)
    requires t in p.tasks && Acted(announced, p, t, tools, slot, q)
    ensures q.entries.Keys == p.entries.Keys
  {
    hide Checked, Lists;
  }

  lemma {:induction false} MovesPlainly(announced: Tool -> bool, p: State, q: State, s: nat, was: PhysicalApp,
                                        app: PhysicalApp)
    requires app == was || app == WaitingFor(was)
    ensures EntryMoves(announced, p, q, s, was, app)
  {
  }

  lemma {:induction false} ListedNow(announced: Tool -> bool, trace: seq<State>, i: nat, t: nat, s: nat)
    requires i + 1 < |trace| && t in trace[i].tasks && trace[i].tasks[t].Ready? && trace[i].tasks[t].slot == s
    requires trace[i].tasks[t].tools.Some? && Acted(announced, trace[i], t, None, 0, trace[i + 1])
    ensures s in trace[i + 1].entries && FromListing(announced, trace, i + 1, s, trace[i + 1].entries[s])
  {
    hide Follows, Acted, ValidToolName;
    CheckExactly(announced, trace[i], t, trace[i + 1]);
    assert ListedAt(announced, trace, i, t, s, trace[i].tasks[t].tools.value);
  }

  lemma {:induction false} StillListed(announced: Tool -> bool, trace: seq<State>, i: nat, s: nat, was: PhysicalApp,
                                       app: PhysicalApp)
    requires FromListing(announced, trace, i, s, was)
    requires forall tool :: tool in app.tools <==> tool in was.tools && ValidToolName(tool.name)
    ensures FromListing(announced, trace, i + 1, s, app)
  {
    hide ListedAt, ValidToolName;
    var j: nat, t: nat, tools: seq<Tool> :| j < i && ListedAt(announced, trace, j, t, s, tools)
      && forall tool :: tool in was.tools <==> tool in tools && ValidToolName(tool.name);
    assert ListedAt(announced, trace, j, t, s, tools);
  }

  lemma {:induction false} SameListed(announced: Tool -> bool, trace: seq<State>, i: nat, s: nat, app: PhysicalApp)
    requires FromListing(announced, trace, i, s, app)
    ensures FromListing(announced, trace, i + 1, s, app)
  {
    hide ListedAt, ValidToolName;
  }

  /** In every run the tools of a live or refused app are exactly those, under valid names, that its
      source once listed to a check of this very slot. */
  lemma {:induction false} ToolsListed(announced: Tool -> bool, trace: seq<State>, i: nat, s: nat)
    requires Run(announced, trace) && i < |trace| && s in trace[i].entries
    requires trace[i].entries[s].state.Live? || trace[i].entries[s].state.Refused?
    ensures FromListing(announced, trace, i, s, trace[i].entries[s])
  {
    hide FromListing, Next, Checked, Acted;

    if i > 0 {
      var p, q := trace[i - 1], trace[i];
      assert Next(announced, p, q);
      NextMoves(announced, p, q, s);
      var was, app := p.entries[s], q.entries[s];

      if t: nat :| t in p.tasks && p.tasks[t].Ready? && p.tasks[t].slot == s && p.tasks[t].tools.Some?
                   && Acted(announced, p, t, None, 0, q) {
        ListedNow(announced, trace, i - 1, t, s);
      } else {
        ToolsListed(announced, trace, i - 1, s);

        if app == was {
          SameListed(announced, trace, i - 1, s, app);
        } else {
          var rules :| app == Checked(announced, was, was.tools, rules);
          CheckedFollows(announced, was, was.tools, rules);
          StillListed(announced, trace, i - 1, s, was, app);
        }
      }
    }
  }

  // ----- what gets done when nobody else is busy

  /** A check of an app that answers, with nobody else at the lock, ends with the app following the
      rules in force and with what its source listed; one that does not answer, with the app waiting. */
  lemma {:induction false} CheckAlone(announced: Tool -> bool, p: State, t: nat, s: nat, found: Option<seq<Tool>>)
    returns (trace: seq<State>)
    requires p.lock.None? && t !in p.tasks && s in p.entries && Lists(p.entries[s].spec, found)
    ensures |trace| == 7 && trace[0] == p && forall i :: 0 <= i < 6 ==> Next(announced, trace[i], trace[i + 1])
    ensures var q := trace[6];
            && q.lock.None? && q.slots == p.slots && q.rules == p.rules && s in q.entries
            && (found.None? ==> q.entries[s].state.Waiting?)
            && (found.Some? ==>
                  && Follows(announced, q.entries[s], p.rules)
                  && forall tool :: tool in q.entries[s].tools <==> tool in found.value && ValidToolName(tool.name))
  {
    hide Checked, Follows, Lists, ValidToolName;
    var one := Go(p, t, Listing(s));
    var two := Go(one, t, Listed(s, found));
    var three := Go(two, t, Locked(s, found)).(lock := Some(t));
    var four := Go(three, t, Ready(s, found, p.rules));
    var app := if found.None? then WaitingFor(p.entries[s]) else Checked(announced, p.entries[s], found.value, p.rules);
    var five := Go(four, t, Changed).(entries := p.entries[s := app]);
    var six := Go(five, t, Over).(lock := None);
    trace := [p, one, two, three, four, five, six];
    assert Does(announced, p, Checks(t, s), one);
    assert Does(announced, one, Acts(t, found, 0), two);
    assert Does(announced, two, Acts(t, None, 0), three);
    assert Does(announced, three, Acts(t, None, 0), four);
    assert Does(announced, four, Acts(t, None, 0), five);
    assert Does(announced, five, Acts(t, None, 0), six);
    CheckExactly(announced, four, t, five);
  }

  /** Consecutive states of one run. */
  ghost predicate Goes(announced: Tool -> bool, trace: seq<State>, p: State, q: State) {
    && trace != [] && trace[0] == p && trace[|trace| - 1] == q
    && forall i :: 0 <= i < |trace| - 1 ==> Next(announced, trace[i], trace[i + 1])
  }

  lemma {:induction false} GoesOn(announced: Tool -> bool, first: State, trace: seq<State>, p: State, q: State)
    requires Next(announced, first, p) && Goes(announced, trace, p, q)
    ensures Goes(announced, [first] + trace, first, q)
  {
    hide Next;
    var all := [first] + trace;
    forall i | 0 <= i < |all| - 1 ensures Next(announced, all[i], all[i + 1]) {
      assert all[i + 1] == trace[i];
      assert i > 0 ==> all[i] == trace[i - 1];
    }
  }

  /** The entry was brought under these rules. */
  ghost predicate BroughtUnder(announced: Tool -> bool, was: PhysicalApp, app: PhysicalApp, rules: seq<Rule>) {
    if was.state.Live? || was.state.Refused? then Follows(announced, app, rules) && app.spec == was.spec
    else app == was
  }

  lemma {:induction false} UpdateAlone(announced: Tool -> bool, p: State, t: nat, rules: seq<Rule>, left: set<nat>)
    returns (trace: seq<State>, q: State)
    requires t in p.tasks && p.tasks[t] == Updating(rules, left) && left <= p.entries.Keys
    ensures Goes(announced, trace, p, q) && q.lock.None? && q.slots == p.slots && q.rules == p.rules
    ensures q.entries.Keys == p.entries.Keys
    ensures forall s :: s in p.entries ==>
              if s in left then BroughtUnder(announced, p.entries[s], q.entries[s], rules)
              else q.entries[s] == p.entries[s]
    decreases |left|
  {
    hide Follows, Checked, Goes;

    if left == {} {
      q := Go(p, t, Over).(lock := None);
      assert Does(announced, p, Acts(t, None, 0), q);
      trace := [p] + [q];
      Arrived(announced, q);
      GoesOn(announced, p, [q], q, q);
    } else {
      var s :| s in left;
      var app := Updated(announced, p.entries[s], rules);
      var next := Go(p, t, Updating(rules, left - {s})).(entries := p.entries[s := app]);
      assert Does(announced, p, Acts(t, None, s), next);
      UpdatedUnder(announced, p.entries[s], rules);
      var rest;
      rest, q := UpdateAlone(announced, next, t, rules, left - {s});
      trace := [p] + rest;
      GoesOn(announced, p, rest, next, q);
    }
  }

  lemma {:induction false} Arrived(announced: Tool -> bool, q: State)
    ensures Goes(announced, [q], q, q)
  {
  }

  lemma {:induction false} UpdatedUnder(announced: Tool -> bool, entry: PhysicalApp, rules: seq<Rule>)
    ensures BroughtUnder(announced, entry, Updated(announced, entry, rules), rules)
  {
    hide Follows, Checked;
    CheckedFollows(announced, entry, entry.tools, rules);
  }

  /** `set_rules` with nobody else at the lock brings every live or refused app under the new rules. */
  lemma {:induction false} SetAlone(announced: Tool -> bool, p: State, t: nat, rules: seq<Rule>)
    returns (trace: seq<State>, q: State)
    requires p.lock.None? && t !in p.tasks && p.slots.Values <= p.entries.Keys
    ensures Goes(announced, trace, p, q) && q.lock.None? && q.slots == p.slots && q.rules == rules
    ensures q.entries.Keys == p.entries.Keys
    ensures forall name :: name in p.slots && p.slots[name] in p.entries ==>
              BroughtUnder(announced, p.entries[p.slots[name]], q.entries[p.slots[name]], rules)
  {
    hide BroughtUnder, Goes;
    var one := Go(p, t, Setting(rules));
    var two := Go(one, t, Storing(rules)).(lock := Some(t));
    var three := Go(two, t, Stored(rules)).(rules := rules);
    var four := Go(three, t, Updating(rules, p.slots.Values));
    assert Does(announced, p, Sets(t, rules), one);
    assert Does(announced, one, Acts(t, None, 0), two);
    assert Does(announced, two, Acts(t, None, 0), three);
    assert Does(announced, three, Acts(t, None, 0), four);
    trace, q := UpdateAlone(announced, four, t, rules, p.slots.Values);
    GoesOn(announced, three, trace, four, q);
    GoesOn(announced, two, [three] + trace, three, q);
    GoesOn(announced, one, [two] + ([three] + trace), two, q);
    GoesOn(announced, p, [one] + ([two] + ([three] + trace)), one, q);
    trace := [p] + ([one] + ([two] + ([three] + trace)));
    forall name | name in p.slots && p.slots[name] in p.entries
      ensures BroughtUnder(announced, p.entries[p.slots[name]], q.entries[p.slots[name]], rules)
    {
      assert p.slots[name] in p.slots.Values;
    }
  }
}
