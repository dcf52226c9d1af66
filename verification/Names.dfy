/** Names that appear in addresses and tool lists, from src/core.rs. A name is the sequence of
    the bytes of its text; no byte of a character outside ASCII passes the tests here. */
module Names {

  const RESERVED_NAMES := ["porchlight", "oauth", ".well-known"]

  predicate IsLowerOrDigit(c: char) {
    'a' <= c <= 'z' || '0' <= c <= '9'
  }

  predicate IsAppName(name: string) {
    && 0 < |name| <= 40
    && IsLowerOrDigit(name[0])
    && forall c | c in name[1..] :: IsLowerOrDigit(c) || c == '-'
  }

  predicate IsUsableName(name: string) {
    IsAppName(name) && name !in RESERVED_NAMES
  }

  function ExposedName(app: string, tool: string): string {
    if tool == app then app else app + "_" + tool
  }

  function ResourceUri(app: string, tool: string): string {
    "porchlight://" + app + "/" + tool
  }

  lemma AppNameCharacters(name: string)
    requires IsAppName(name)
    ensures '_' !in name && '/' !in name
  {
    assert name == [name[0]] + name[1..];
  }

  /** A separator that neither left part holds cuts the text in one way. */
  lemma CutOnce(a: string, x: string, b: string, y: string, c: char)
    requires c !in a && c !in b
    requires a + [c] + x == b + [c] + y
    ensures a == b && x == y
  {
    var whole := a + [c] + x;
    assert whole[|a|] == c && whole[|b|] == c;
    assert |a| == |b|;
    assert a == whole[..|a|] && b == whole[..|b|];
    assert x == whole[|a| + 1..] && y == whole[|b| + 1..];
  }

  lemma Underscored(app: string, tool: string)
    requires IsAppName(app)
    ensures '_' in ExposedName(app, tool) <==> tool != app
  {
    AppNameCharacters(app);

    if tool != app {
      assert ExposedName(app, tool)[|app|] == '_';
    }
  }

  /** No two tools of apps with usable names share an exposed name. */
  lemma ExposedNameInjective(app: string, tool: string, app': string, tool': string)
    requires IsAppName(app) && IsAppName(app')
    ensures ExposedName(app, tool) == ExposedName(app', tool') <==> app == app' && tool == tool'
  {
    AppNameCharacters(app);
    AppNameCharacters(app');

    Underscored(app, tool);
    Underscored(app', tool');

    if ExposedName(app, tool) == ExposedName(app', tool') && tool != app {
      CutOnce(app, tool, app', tool', '_');
    }
  }

  lemma ResourceUriInjective(app: string, tool: string, app': string, tool': string)
    requires IsAppName(app) && IsAppName(app')
    ensures ResourceUri(app, tool) == ResourceUri(app', tool') <==> app == app' && tool == tool'
  {
    AppNameCharacters(app);
    AppNameCharacters(app');

    if ResourceUri(app, tool) == ResourceUri(app', tool') {
      assert app + "/" + tool == ResourceUri(app, tool)[13..];
      assert app' + "/" + tool' == ResourceUri(app', tool')[13..];
      CutOnce(app, tool, app', tool', '/');
    }
  }

  /** An exposed name reads back: without an underscore it is an app whose tool bears its name;
      otherwise the app is before the first underscore and the tool after it. */
  lemma ExposedReads(app: string, tool: string)
    requires IsAppName(app)
    ensures var exposed := ExposedName(app, tool);
            if '_' !in exposed then exposed == app == tool
            else
              && tool != app && |app| < |exposed| && '_' !in exposed[..|app|]
              && exposed[..|app|] == app && exposed[|app|] == '_' && exposed[|app| + 1..] == tool
  {
    AppNameCharacters(app);
    Underscored(app, tool);

    if tool != app {
      assert ExposedName(app, tool)[..|app|] == app;
    }
  }

  /** And so does an address: the app is before the first slash after "porchlight://". */
  lemma UriReads(app: string, tool: string)
    requires IsAppName(app)
    ensures var uri := ResourceUri(app, tool);
            && |uri| > 13 + |app| && uri[..13] == "porchlight://" && uri[13..13 + |app|] == app
            && '/' !in uri[13..13 + |app|] && uri[13 + |app|] == '/' && uri[13 + |app| + 1..] == tool
  {
    AppNameCharacters(app);
    var rest := app + "/" + tool;
    assert ResourceUri(app, tool) == "porchlight://" + rest;
    assert rest[..|app|] == app;
  }
}
