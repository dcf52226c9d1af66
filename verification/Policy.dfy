/** Tool rules, from src/policy.rs. */
module Policy {
  import opened Prelude

  // ----- patterns

  predicate NoSlash(text: string) {
    forall c | c in text :: c != '/'
  }

  predicate GlobMatches(glob: string, text: string)
    decreases |glob|
  {
    if glob == [] then text == []
    else if glob[0] == '*' then
      exists skip | 0 <= skip <= |text| :: NoSlash(text[..skip]) && GlobMatches(glob[1..], text[skip..])
    else
      text != [] && text[0] != '/' && (glob[0] == '?' || glob[0] == text[0]) && GlobMatches(glob[1..], text[1..])
  }

  lemma {:induction false} ConcatMatches(first: string, second: string, left: string, right: string)
    requires GlobMatches(first, left) && GlobMatches(second, right)
    ensures GlobMatches(first + second, left + right)
    decreases |first|
  {
    if first == [] {
      assert first + second == second && left + right == right;
    } else {
      assert first + second == [first[0]] + (first[1..] + second);
      assert (first + second)[1..] == first[1..] + second;

      if first[0] == '*' {
        var skip :| 0 <= skip <= |left| && NoSlash(left[..skip]) && GlobMatches(first[1..], left[skip..]);
        ConcatMatches(first[1..], second, left[skip..], right);
        StarMatches(first[1..] + second, left, right, skip);
      } else {
        ConcatMatches(first[1..], second, left[1..], right);
        assert (left + right)[1..] == left[1..] + right;
      }
    }
  }

  lemma {:induction false} MatchSplits(first: string, second: string, text: string) returns (cut: nat)
    requires GlobMatches(first + second, text)
    ensures cut <= |text| && GlobMatches(first, text[..cut]) && GlobMatches(second, text[cut..])
    decreases |first|
  {
    if first == [] {
      assert first + second == second;
      cut := 0;
      assert text[0..] == text;
    } else {
      assert (first + second)[1..] == first[1..] + second;

      if first[0] == '*' {
        var skip :| 0 <= skip <= |text| && NoSlash(text[..skip]) && GlobMatches((first + second)[1..], text[skip..]);
        var rest := MatchSplits(first[1..], second, text[skip..]);
        cut := skip + rest;
        assert text[..cut][..skip] == text[..skip];
        assert text[..cut][skip..] == text[skip..][..rest];
        assert text[cut..] == text[skip..][rest..];
      } else {
        var rest := MatchSplits(first[1..], second, text[1..]);
        cut := 1 + rest;
        assert text[..cut][1..] == text[1..][..rest];
        assert text[cut..] == text[1..][rest..];
      }
    }
  }

  lemma {:induction false} StarMatches(rest: string, left: string, right: string, skip: nat)
    requires skip <= |left| && NoSlash(left[..skip]) && GlobMatches(rest, left[skip..] + right)
    ensures GlobMatches(['*'] + rest, left + right)
  {
    var text := left + right;
    assert (['*'] + rest)[1..] == rest;
    assert text[..skip] == left[..skip] && text[skip..] == left[skip..] + right;
    assert skip <= |text| && NoSlash(text[..skip]) && GlobMatches(rest, text[skip..]);
  }

  /** The texts a concatenated pattern matches are the concatenations of what its parts match. */
  lemma {:induction false} ConcatenationLanguage(first: string, second: string, text: string)
    ensures GlobMatches(first + second, text) <==>
            exists cut :: 0 <= cut <= |text| && GlobMatches(first, text[..cut]) && GlobMatches(second, text[cut..])
  {
    if GlobMatches(first + second, text) {
      var cut := MatchSplits(first, second, text);
    }

    if cut :| 0 <= cut <= |text| && GlobMatches(first, text[..cut]) && GlobMatches(second, text[cut..]) {
      ConcatMatches(first, second, text[..cut], text[cut..]);
      assert text[..cut] + text[cut..] == text;
    }
  }

  /** The language of one character; with ConcatenationLanguage this settles every pattern. */
  lemma {:induction false} OneCharacterLanguage(c: char, text: string)
    ensures GlobMatches([c], text) <==>
            if c == '*' then NoSlash(text)
            else |text| == 1 && text[0] != '/' && (c == '?' || c == text[0])
  {
    assert [c][1..] == [];
    assert text[..|text|] == text && text[|text|..] == [];
  }

  /** No pattern matches a text with a slash: a rule stays inside its app. */
  lemma {:induction false} MatchesStayInside(glob: string, text: string)
    requires GlobMatches(glob, text)
    ensures NoSlash(text)
    decreases |glob|
  {
    if glob != [] {
      if glob[0] == '*' {
        var skip :| 0 <= skip <= |text| && NoSlash(text[..skip]) && GlobMatches(glob[1..], text[skip..]);
        MatchesStayInside(glob[1..], text[skip..]);
        assert text == text[..skip] + text[skip..];
      } else {
        MatchesStayInside(glob[1..], text[1..]);
        assert text == [text[0]] + text[1..];
      }
    }
  }

  // ----- rules

  datatype Rule = Rule(app: string, tool: string, wholeApp: bool, on: bool)

  /** The pattern before and after its first slash; None if either is missing or there is another. */
  function Split(pattern: string): Option<(string, string)> {
    if pattern == "" then None
    else if pattern[0] == '/' then
      (if pattern[1..] != "" && NoSlash(pattern[1..]) then Some(("", pattern[1..])) else None)
    else match Split(pattern[1..])
      case None => None
      case Some((app, tool)) => Some(([pattern[0]] + app, tool))
  }

  predicate IsRulePattern(pattern: string) {
    Split(pattern).Some? && Split(pattern).value.0 != ""
  }

  /** The rules of the tools section, in its order; an entry that is no rule pattern is left out. */
  function RulesFrom(entries: seq<(string, bool)>): seq<Rule> {
    if entries == [] then []
    else
      var (pattern, on) := entries[0];
      var rest := RulesFrom(entries[1..]);
      if !IsRulePattern(pattern) then rest
      else [Rule(Split(pattern).value.0, Split(pattern).value.1, Split(pattern).value.1 == "*", on)] + rest
  }

  lemma {:induction false} NoSlashFirst(c: char, text: string)
    ensures NoSlash([c] + text) <==> c != '/' && NoSlash(text)
  {
    assert c in [c] + text && forall d :: d in text ==> d in [c] + text;
  }

  /** A rule pattern is an app, one slash and a tool, and says just that. */
  lemma {:induction false} SplitExactly(pattern: string, app: string, tool: string)
    ensures Split(pattern) == Some((app, tool)) <==>
            pattern == app + "/" + tool && NoSlash(app) && NoSlash(tool) && tool != ""
  {
    if pattern == "" || pattern[0] == '/' {
      SplitAtOnce(pattern, app, tool);
    } else if app == "" {
      assert (app + "/" + tool)[0] == '/';
    } else {
      SplitExactly(pattern[1..], app[1..], tool);
      assert app == [app[0]] + app[1..] && pattern == [pattern[0]] + pattern[1..];
      assert app + "/" + tool == [app[0]] + (app[1..] + "/" + tool);
      NoSlashFirst(app[0], app[1..]);
    }
  }

  lemma {:induction false} SplitAtOnce(pattern: string, app: string, tool: string)
    requires pattern == "" || pattern[0] == '/'
    ensures Split(pattern) == Some((app, tool)) <==>
            pattern == app + "/" + tool && NoSlash(app) && NoSlash(tool) && tool != ""
  {
    if app != "" {
      assert (app + "/" + tool)[0] == app[0] && app[0] in app;
    } else {
      assert (app + "/" + tool)[1..] == tool;
      assert pattern != "" ==> pattern == [pattern[0]] + pattern[1..];
    }
  }

  /** The last rule that matches decides; a tool no rule matches is on. */
  predicate ToolOn(rules: seq<Rule>, app: string, tool: string) {
    if rules == [] then true
    else
      var last := rules[|rules| - 1];
      if GlobMatches(last.app, app) && GlobMatches(last.tool, tool) then last.on
      else ToolOn(rules[..|rules| - 1], app, tool)
  }

  predicate AppDefaultOn(rules: seq<Rule>, app: string) {
    if rules == [] then true
    else
      var last := rules[|rules| - 1];
      if last.wholeApp && GlobMatches(last.app, app) then last.on
      else AppDefaultOn(rules[..|rules| - 1], app)
  }

  predicate RuleMatches(rule: Rule, app: string, tool: string) {
    GlobMatches(rule.app, app) && GlobMatches(rule.tool, tool)
  }

  /** Rule `i` is the last that matches. */
  ghost predicate Decides(rules: seq<Rule>, i: nat, app: string, tool: string) {
    && i < |rules| && RuleMatches(rules[i], app, tool)
    && forall j :: i < j < |rules| ==> !RuleMatches(rules[j], app, tool)
  }

  lemma {:induction false} LastRuleDecides(rules: seq<Rule>, app: string, tool: string)
    ensures !ToolOn(rules, app, tool) <==> exists i: nat :: Decides(rules, i, app, tool) && !rules[i].on
  {
    if rules != [] {
      var rest, last := rules[..|rules| - 1], rules[|rules| - 1];
      LastRuleDecides(rest, app, tool);

      if RuleMatches(last, app, tool) {
        assert Decides(rules, |rules| - 1, app, tool);
      } else {
        assert forall i: nat :: Decides(rules, i, app, tool) <==> Decides(rest, i, app, tool);
      }
    }
  }

  // ----- what the tools section says

  /** An entry of the tools section is about this tool of this app. */
  ghost predicate IsAbout(pattern: string, app: string, tool: string) {
    exists a: string, t: string :: Spells(pattern, a, t) && GlobMatches(a, app) && GlobMatches(t, tool)
  }

  /** An entry is about the whole app. */
  ghost predicate IsAboutAll(pattern: string, app: string) {
    exists a: string :: Spells(pattern, a, "*") && GlobMatches(a, app)
  }

  predicate Spells(pattern: string, a: string, t: string) {
    pattern == a + "/" + t && a != "" && t != "" && '/' !in a && '/' !in t
  }

  lemma {:induction false} OneEntry(pattern: string, on: bool, app: string, tool: string)
    ensures var rules := RulesFrom([(pattern, on)]);
            && |rules| <= 1 && (forall rule :: rule in rules ==> rule.on == on)
            && ((exists rule :: rule in rules && RuleMatches(rule, app, tool)) <==> IsAbout(pattern, app, tool))
            && ((exists rule :: rule in rules && rule.wholeApp && GlobMatches(rule.app, app)) <==>
                  IsAboutAll(pattern, app))
  {
    hide GlobMatches, Split;
    var rules := RulesFrom([(pattern, on)]);
    assert RulesFrom([(pattern, on)][1..]) == [];

    if IsRulePattern(pattern) {
      var (a, t) := Split(pattern).value;
      SplitExactly(pattern, a, t);
      assert Spells(pattern, a, t) && rules == [Rule(a, t, t == "*", on)];
      forall b, u | Spells(pattern, b, u) ensures a == b && t == u {
        SplitExactly(pattern, b, u);
      }
      assert rules[0] in rules;
    } else {
      forall b, u ensures !Spells(pattern, b, u) {
        SplitExactly(pattern, b, u);
      }
    }
  }

  lemma {:induction false} RulesConcat(entries: seq<(string, bool)>, more: seq<(string, bool)>)
    ensures RulesFrom(entries + more) == RulesFrom(entries) + RulesFrom(more)
  {
    if entries == [] {
      assert entries + more == more;
    } else {
      assert (entries + more)[1..] == entries[1..] + more;
      RulesConcat(entries[1..], more);
    }
  }

  /** Entry `i` is the last about the tool, and turns it off. */
  ghost predicate TurnsOff(entries: seq<(string, bool)>, i: nat, app: string, tool: string) {
    && i < |entries| && IsAbout(entries[i].0, app, tool) && !entries[i].1
    && forall j :: i < j < |entries| ==> !IsAbout(entries[j].0, app, tool)
  }

  ghost predicate TurnsAllOff(entries: seq<(string, bool)>, i: nat, app: string) {
    && i < |entries| && IsAboutAll(entries[i].0, app) && !entries[i].1
    && forall j :: i < j < |entries| ==> !IsAboutAll(entries[j].0, app)
  }

  lemma {:induction false} LastEntry(entries: seq<(string, bool)>, app: string, tool: string)
    requires entries != []
    ensures var (rest, last) := (entries[..|entries| - 1], entries[|entries| - 1]);
            && ((exists i: nat :: TurnsOff(entries, i, app, tool)) <==>
                  if IsAbout(last.0, app, tool) then !last.1 else exists i: nat :: TurnsOff(rest, i, app, tool))
            && ((exists i: nat :: TurnsAllOff(entries, i, app)) <==>
                  if IsAboutAll(last.0, app) then !last.1 else exists i: nat :: TurnsAllOff(rest, i, app))
  {
    hide IsAbout, IsAboutAll;
    var rest, n := entries[..|entries| - 1], |entries| - 1;
    assert IsAbout(entries[n].0, app, tool) && !entries[n].1 ==> TurnsOff(entries, n, app, tool);
    assert IsAboutAll(entries[n].0, app) && !entries[n].1 ==> TurnsAllOff(entries, n, app);
    assert !IsAbout(entries[n].0, app, tool) ==>
        forall i: nat :: TurnsOff(rest, i, app, tool) <==> TurnsOff(entries, i, app, tool);
    assert !IsAboutAll(entries[n].0, app) ==>
        forall i: nat :: TurnsAllOff(rest, i, app) <==> TurnsAllOff(entries, i, app);
  }

  /** What the rules of a last entry change. */
  lemma {:induction false} LastRules(rules: seq<Rule>, more: seq<Rule>, on: bool, app: string, tool: string)
    requires |more| <= 1 && forall rule :: rule in more ==> rule.on == on
    ensures ToolOn(rules + more, app, tool) ==
            if exists rule :: rule in more && RuleMatches(rule, app, tool) then on else ToolOn(rules, app, tool)
    ensures AppDefaultOn(rules + more, app) ==
            if exists rule :: rule in more && rule.wholeApp && GlobMatches(rule.app, app) then on
            else AppDefaultOn(rules, app)
  {
    hide GlobMatches;
    var all := rules + more;

    if more == [] {
      assert all == rules;
    } else {
      assert all[|all| - 1] == more[0] && all[..|all| - 1] == rules && more[0] in more;
      assert more == [more[0]];
    }
  }

  /** A tool is off exactly when the last entry that is about it says so. */
  lemma {:induction false} SettingDecides(entries: seq<(string, bool)>, app: string, tool: string)
    ensures !ToolOn(RulesFrom(entries), app, tool) <==> exists i: nat :: TurnsOff(entries, i, app, tool)
  {
    hide GlobMatches, IsAbout, IsAboutAll, RuleMatches, RulesFrom, ToolOn, AppDefaultOn, TurnsOff, TurnsAllOff;

    if entries == [] {
      NoEntries(app, tool);
    } else {
      var rest, last := entries[..|entries| - 1], entries[|entries| - 1];
      assert entries == rest + [last];
      RulesConcat(rest, [last]);
      OneEntry(last.0, last.1, app, tool);
      LastRules(RulesFrom(rest), RulesFrom([last]), last.1, app, tool);
      LastEntry(entries, app, tool);
      SettingDecides(rest, app, tool);
    }
  }

  lemma {:induction false} NoEntries(app: string, tool: string)
    ensures ToolOn(RulesFrom([]), app, tool) && AppDefaultOn(RulesFrom([]), app)
    ensures !(exists i: nat :: TurnsOff([], i, app, tool)) && !(exists i: nat :: TurnsAllOff([], i, app))
  {
  }

  /** New tools of an app are off exactly when the last entry about the whole app says so. */
  lemma {:induction false} DefaultDecides(entries: seq<(string, bool)>, app: string)
    ensures !AppDefaultOn(RulesFrom(entries), app) <==> exists i: nat :: TurnsAllOff(entries, i, app)
  {
    hide GlobMatches, IsAbout, IsAboutAll, RuleMatches, RulesFrom, ToolOn, AppDefaultOn, TurnsOff, TurnsAllOff;

    if entries == [] {
      NoEntries(app, "");
    } else {
      var rest, last := entries[..|entries| - 1], entries[|entries| - 1];
      assert entries == rest + [last];
      RulesConcat(rest, [last]);
      OneEntry(last.0, last.1, app, "");
      LastRules(RulesFrom(rest), RulesFrom([last]), last.1, app, "");
      LastEntry(entries, app, "");
      DefaultDecides(rest, app);
    }
  }

  // ----- tools

  /** A tool as its server announces it; `description` stands for the rest of the announcement. */
  datatype Tool = Tool(name: string, description: string)

  predicate ValidToolName(name: string) {
    && 0 < |name| <= 128
    && forall c | c in name :: 'a' <= c <= 'z' || 'A' <= c <= 'Z' || '0' <= c <= '9' || c in "_.-"
  }

  function AllowedToolNames(tools: seq<Tool>, rules: seq<Rule>, app: string): set<string> {
    set tool | tool in tools && ValidToolName(tool.name) && ToolOn(rules, app, tool.name) :: tool.name
  }

  /** A tool is allowed exactly when it is announced under a valid name and no rule that decides about
      it turns it off. */
  lemma {:induction false} AllowedExactly(tools: seq<Tool>, rules: seq<Rule>, app: string, name: string)
    ensures name in AllowedToolNames(tools, rules, app) <==>
            && (exists tool :: tool in tools && tool.name == name) && ValidToolName(name)
            && !exists i: nat :: Decides(rules, i, app, name) && !rules[i].on
  {
    hide Decides, ToolOn, ValidToolName;
    LastRuleDecides(rules, app, name);
  }

  /** Rule `i` is the last about the whole app. */
  ghost predicate DecidesAll(rules: seq<Rule>, i: nat, app: string) {
    && i < |rules| && rules[i].wholeApp && GlobMatches(rules[i].app, app)
    && forall j :: i < j < |rules| ==> !(rules[j].wholeApp && GlobMatches(rules[j].app, app))
  }

  lemma {:induction false} LastWholeDecides(rules: seq<Rule>, app: string)
    ensures !AppDefaultOn(rules, app) <==> exists i: nat :: DecidesAll(rules, i, app) && !rules[i].on
  {
    if rules != [] {
      var rest, last := rules[..|rules| - 1], rules[|rules| - 1];
      LastWholeDecides(rest, app);

      if last.wholeApp && GlobMatches(last.app, app) {
        assert DecidesAll(rules, |rules| - 1, app);
      } else {
        assert forall i: nat :: DecidesAll(rules, i, app) <==> DecidesAll(rest, i, app);
      }
    }
  }
}
