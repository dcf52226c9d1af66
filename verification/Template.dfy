/** Command templates, from src/sources/commands/template.rs. */
module Template {
  import opened Prelude

  datatype Part = Text(text: string) | Input(name: string)

  type Word = seq<Part>

  datatype LookupKind = Env | File

  datatype Parsed = Ok(word: Word) | Missing(kind: LookupKind, name: string)

  // ----- what a word says

  datatype Reference = ToLookup(kind: LookupKind, name: string) | ToInput(name: string)

  predicate IsWordChar(c: char) {
    'a' <= c <= 'z' || 'A' <= c <= 'Z' || '0' <= c <= '9' || c == '_'
  }

  function ReferenceOf(inner: string): Option<Reference> {
    if "env:" < inner then Some(ToLookup(Env, inner[4..]))
    else if "file:" < inner then Some(ToLookup(File, inner[5..]))
    else if inner != "" && forall c | c in inner :: IsWordChar(c) then Some(ToInput(inner))
    else None
  }

  function Prefix(kind: LookupKind): string {
    if kind.Env? then "env:" else "file:"
  }

  function Inner(reference: Reference): string {
    match reference
    case ToLookup(kind, name) => Prefix(kind) + name
    case ToInput(name) => name
  }

  function Find(text: string, c: char): (at: Option<nat>)
    ensures at.Some? ==> at.value < |text| && text[at.value] == c && c !in text[..at.value]
    ensures at.None? ==> c !in text
  {
    if text == "" then None
    else if text[0] == c then Some(0)
    else match Find(text[1..], c)
      case None => assert text == [text[0]] + text[1..]; None
      case Some(at) => assert text[..at + 1] == [text[0]] + text[1..][..at]; Some(at + 1)
  }

  datatype Token = Plain(text: string) | Refers(reference: Reference)

  /** A word as plain texts and references, before anything is looked up. */
  function Tokens(word: string): seq<Token>
    decreases |word|
  {
    match Find(word, '{')
    case None => [Plain(word)]
    case Some(opening) =>
      var after := word[opening + 1..];
      match Closed(after)
      case Some((reference, tail)) => [Plain(word[..opening]), Refers(reference)] + Tokens(tail)
      case None => [Plain(word[..opening]), Plain("{")] + Tokens(after)
  }

  /** The reference that a brace opens, and what follows it. */
  function Closed(after: string): (r: Option<(Reference, string)>)
    ensures r.Some? ==> |r.value.1| < |after|
  {
    match Find(after, '}')
    case None => None
    case Some(closing) =>
      match ReferenceOf(after[..closing])
      case None => None
      case Some(reference) => Some((reference, after[closing + 1..]))
  }

  // ----- what is built from it

  function PushText(word: Word, text: string): Word {
    if text == "" then word
    else if word != [] && word[|word| - 1].Text? then word[|word| - 1 := Text(word[|word| - 1].text + text)]
    else word + [Text(text)]
  }

  function Build(word: Word, tokens: seq<Token>, lookup: (LookupKind, string) -> Option<string>): Parsed
    decreases |tokens|
  {
    if tokens == [] then Ok(word)
    else match tokens[0]
      case Plain(text) => Build(PushText(word, text), tokens[1..], lookup)
      case Refers(ToInput(name)) => Build(word + [Input(name)], tokens[1..], lookup)
      case Refers(ToLookup(kind, name)) =>
        match lookup(kind, name)
        case None => Missing(kind, name)
        case Some(value) => Build(PushText(word, value), tokens[1..], lookup)
  }

  /** The loop of `parse_word`. */
  method ParseWord(word: string, lookup: (LookupKind, string) -> Option<string>) returns (r: Parsed)
    ensures r == Build([], Tokens(word), lookup)
  {
    var parts: Word := [];
    var rest := word;
    var opening := Find(rest, '{');

    while opening.Some?
      invariant opening == Find(rest, '{')
      invariant Build([], Tokens(word), lookup) == Build(parts, Tokens(rest), lookup)
      decreases |rest|
    {
      var before := rest[..opening.value];
      var after := rest[opening.value + 1..];
      var found := Closed(after);
      TokenStep(rest, parts, lookup);
      parts := PushText(parts, before);

      match found {
        case Some((ToInput(name), tail)) =>
          parts := parts + [Input(name)];
          rest := tail;
        case Some((ToLookup(kind, name), tail)) =>
          var value := lookup(kind, name);

          if value.None? {
            return Missing(kind, name);
          }

          parts := PushText(parts, value.value);
          rest := tail;
        case None =>
          parts := PushText(parts, "{");
          rest := after;
      }

      opening := Find(rest, '{');
    }

    BuildPlain(parts, rest, [], lookup);
    assert [Plain(rest)] + [] == [Plain(rest)];
    return Ok(PushText(parts, rest));
  }

  lemma {:induction false} BuildPlain(word: Word, text: string, more: seq<Token>,
                                      lookup: (LookupKind, string) -> Option<string>)
    ensures Build(word, [Plain(text)] + more, lookup) == Build(PushText(word, text), more, lookup)
  {
  }

  /** One turn of the loop, on tokens. */
  lemma {:induction false} TokenStep(rest: string, word: Word, lookup: (LookupKind, string) -> Option<string>)
    requires Find(rest, '{').Some?
    ensures var opening := Find(rest, '{').value;
            var after := rest[opening + 1..];
            var next := PushText(word, rest[..opening]);
            Build(word, Tokens(rest), lookup) ==
            match Closed(after)
            case None => Build(PushText(next, "{"), Tokens(after), lookup)
            case Some((ToInput(name), tail)) => Build(next + [Input(name)], Tokens(tail), lookup)
            case Some((ToLookup(kind, name), tail)) =>
              match lookup(kind, name)
              case None => Missing(kind, name)
              case Some(value) => Build(PushText(next, value), Tokens(tail), lookup)
  {
    hide PushText, Find, ReferenceOf, Closed;
    var opening := Find(rest, '{').value;
    var after := rest[opening + 1..];
    var next := PushText(word, rest[..opening]);
    var found := Closed(after);
    var later := Tokens(if found.Some? then found.value.1 else after);
    var second := if found.Some? then Refers(found.value.0) else Plain("{");
    assert Tokens(rest) == [Plain(rest[..opening])] + ([second] + later);
    BuildPlain(word, rest[..opening], [second] + later, lookup);
    assert ([second] + later)[1..] == later;
  }

  // ----- what comes out

  function Shown(part: Part): string {
    match part
    case Text(text) => text
    case Input(name) => "{" + name + "}"
  }

  function Literal(word: Word): string {
    if word == [] then "" else Literal(word[..|word| - 1]) + Shown(word[|word| - 1])
  }

  function InputParts(word: Word): seq<string> {
    if word == [] then []
    else InputParts(word[..|word| - 1]) + if word[|word| - 1].Input? then [word[|word| - 1].name] else []
  }

  /** No text part is empty, and no two are next to each other. */
  predicate Compact(word: Word) {
    && (forall i | 0 <= i < |word| :: word[i].Text? ==> word[i].text != "")
    && forall i | 0 <= i < |word| - 1 :: word[i].Text? ==> word[i + 1].Input?
  }

  lemma {:induction false} PartAdds(word: Word, part: Part)
    ensures Literal(word + [part]) == Literal(word) + Shown(part)
    ensures InputParts(word + [part]) == InputParts(word) + if part.Input? then [part.name] else []
  {
    assert (word + [part])[..|word|] == word;
  }

  lemma {:induction false} LastText(rest: Word, last: string, text: string)
    requires text != ""
    ensures PushText(rest + [Text(last)], text) == rest + [Text(last + text)]
  {
    var word := rest + [Text(last)];
    assert word[|word| - 1] == Text(last);
    assert word[|word| - 1 := Text(last + text)] == rest + [Text(last + text)];
  }

  lemma {:induction false} LongerText(rest: Word, last: string, text: string)
    ensures Literal(rest + [Text(last + text)]) == Literal(rest + [Text(last)]) + text
    ensures InputParts(rest + [Text(last + text)]) == InputParts(rest + [Text(last)])
  {
    hide Literal, InputParts;
    PartAdds(rest, Text(last + text));
    PartAdds(rest, Text(last));
    assert Literal(rest) + (last + text) == Literal(rest) + last + text;
  }

  lemma {:induction false} PushTextAdds(word: Word, text: string)
    ensures Literal(PushText(word, text)) == Literal(word) + text
    ensures InputParts(PushText(word, text)) == InputParts(word)
  {
    hide Literal, InputParts;

    if text == "" {
      assert Literal(word) + text == Literal(word);
    } else if word != [] && word[|word| - 1].Text? {
      var rest, last := word[..|word| - 1], word[|word| - 1].text;
      assert word == rest + [Text(last)];
      LastText(rest, last, text);
      LongerText(rest, last, text);
    } else {
      PartAdds(word, Text(text));
      assert InputParts(word) + [] == InputParts(word);
    }
  }

  lemma {:induction false} PushTextCompact(word: Word, text: string)
    requires Compact(word)
    ensures Compact(PushText(word, text))
  {
  }

  /** What a token stands for. */
  function Meant(token: Token, lookup: (LookupKind, string) -> Option<string>): string {
    match token
    case Plain(text) => text
    case Refers(ToInput(name)) => "{" + name + "}"
    case Refers(ToLookup(kind, name)) => match lookup(kind, name) case None => "" case Some(value) => value
  }

  function AllMeant(tokens: seq<Token>, lookup: (LookupKind, string) -> Option<string>): string {
    if tokens == [] then "" else Meant(tokens[0], lookup) + AllMeant(tokens[1..], lookup)
  }

  function InputTokens(tokens: seq<Token>): seq<string> {
    if tokens == [] then []
    else
      (if tokens[0].Refers? && tokens[0].reference.ToInput? then [tokens[0].reference.name] else []) +
      InputTokens(tokens[1..])
  }

  ghost predicate Finds(tokens: seq<Token>, lookup: (LookupKind, string) -> Option<string>) {
    forall kind, name | Refers(ToLookup(kind, name)) in tokens :: lookup(kind, name).Some?
  }

  function Next(word: Word, token: Token, lookup: (LookupKind, string) -> Option<string>): Word {
    match token
    case Plain(text) => PushText(word, text)
    case Refers(ToInput(name)) => word + [Input(name)]
    case Refers(ToLookup(kind, name)) => PushText(word, Meant(token, lookup))
  }

  lemma MeantInput(token: Token, lookup: (LookupKind, string) -> Option<string>)
    ensures token.Plain? ==> Meant(token, lookup) == token.text
    ensures token.Refers? && token.reference.ToInput? ==> Meant(token, lookup) == Shown(Input(token.reference.name))
  {
  }

  lemma {:induction false} NextAdds(word: Word, token: Token, lookup: (LookupKind, string) -> Option<string>)
    ensures var next := Next(word, token, lookup);
            && Literal(next) == Literal(word) + Meant(token, lookup)
            && InputParts(next) == InputParts(word) + InputTokens([token])
            && (Compact(word) ==> Compact(next))
  {
    hide Literal, InputParts, PushText, Meant;
    assert InputTokens([token][1..]) == [];
    assert InputParts(word) + [] == InputParts(word);
    MeantInput(token, lookup);

    if token.Refers? && token.reference.ToInput? {
      PartAdds(word, Input(token.reference.name));
    } else {
      PushTextAdds(word, Meant(token, lookup));

      if Compact(word) {
        PushTextCompact(word, Meant(token, lookup));
      }
    }
  }

  lemma {:induction false} BuildNone(word: Word, lookup: (LookupKind, string) -> Option<string>)
    ensures Build(word, [], lookup) == Ok(word) && Finds([], lookup)
    ensures Literal(word) + AllMeant([], lookup) == Literal(word)
    ensures InputParts(word) + InputTokens([]) == InputParts(word)
  {
  }

  lemma {:induction false} BuildStep(word: Word, tokens: seq<Token>, lookup: (LookupKind, string) -> Option<string>)
    requires tokens != []
    ensures Finds([tokens[0]], lookup) ==>
              Build(word, tokens, lookup) == Build(Next(word, tokens[0], lookup), tokens[1..], lookup)
    ensures !Finds([tokens[0]], lookup) ==> Build(word, tokens, lookup).Missing?
  {
    assert tokens[0] in [tokens[0]];
  }

  lemma {:induction false} TokensFirst(tokens: seq<Token>, lookup: (LookupKind, string) -> Option<string>)
    requires tokens != []
    ensures AllMeant(tokens, lookup) == Meant(tokens[0], lookup) + AllMeant(tokens[1..], lookup)
    ensures InputTokens(tokens) == InputTokens([tokens[0]]) + InputTokens(tokens[1..])
  {
    assert InputTokens([tokens[0]][1..]) == [];
  }

  lemma {:induction false} BuildAdds(word: Word, tokens: seq<Token>, lookup: (LookupKind, string) -> Option<string>)
    ensures var r := Build(word, tokens, lookup);
            && (r.Ok? <==> Finds(tokens, lookup))
            && (r.Ok? ==>
                  && Literal(r.word) == Literal(word) + AllMeant(tokens, lookup)
                  && InputParts(r.word) == InputParts(word) + InputTokens(tokens)
                  && (Compact(word) ==> Compact(r.word)))
    decreases |tokens|
  {
    hide Build, Next, Meant, InputTokens, AllMeant, Finds, Literal, InputParts, Compact;

    if tokens == [] {
      BuildNone(word, lookup);
    } else {
      var next := Next(word, tokens[0], lookup);
      var (meant, more) := (Meant(tokens[0], lookup), AllMeant(tokens[1..], lookup));
      NextAdds(word, tokens[0], lookup);
      BuildStep(word, tokens, lookup);
      BuildAdds(next, tokens[1..], lookup);
      FindsFirst(tokens, lookup);
      TokensFirst(tokens, lookup);
      assert Literal(word) + meant + more == Literal(word) + (meant + more);
      assert InputParts(word) + InputTokens([tokens[0]]) + InputTokens(tokens[1..]) ==
             InputParts(word) + (InputTokens([tokens[0]]) + InputTokens(tokens[1..]));
    }
  }

  lemma {:induction false} FindsFirst(tokens: seq<Token>, lookup: (LookupKind, string) -> Option<string>)
    requires tokens != []
    ensures Finds(tokens, lookup) <==> Finds([tokens[0]], lookup) && Finds(tokens[1..], lookup)
  {
    assert tokens == [tokens[0]] + tokens[1..];
  }

  /** A lookup that answers every reference with its own text. */
  function Keep(kind: LookupKind, name: string): Option<string> {
    Some("{" + Prefix(kind) + name + "}")
  }

  lemma {:induction false} ReferenceInner(inner: string)
    requires ReferenceOf(inner).Some?
    ensures Inner(ReferenceOf(inner).value) == inner
  {
    if "env:" < inner {
      assert inner == inner[..4] + inner[4..];
    } else if "file:" < inner {
      assert inner == inner[..5] + inner[5..];
    }
  }

  lemma {:induction false} KeptReference(reference: Reference)
    ensures Meant(Refers(reference), Keep) == "{" + Inner(reference) + "}"
  {
    if reference.ToLookup? {
      assert "{" + Prefix(reference.kind) + reference.name + "}" == "{" + Inner(reference) + "}";
    }
  }

  lemma {:induction false} MeantPair(first: Token, second: Token, more: seq<Token>,
                                     lookup: (LookupKind, string) -> Option<string>)
    ensures AllMeant([first, second] + more, lookup) ==
            Meant(first, lookup) + (Meant(second, lookup) + AllMeant(more, lookup))
  {
    assert ([first, second] + more)[1..] == [second] + more;
    assert ([second] + more)[1..] == more;
  }

  lemma {:induction false} SpellsReference(word: string, opening: nat, closing: nat)
    requires opening < |word| && word[opening] == '{'
    requires var after := word[opening + 1..]; closing < |after| && after[closing] == '}'
    ensures var after := word[opening + 1..];
            word == word[..opening] + (("{" + after[..closing] + "}") + after[closing + 1..])
  {
    var after := word[opening + 1..];
    assert word == word[..opening] + (['{'] + after);
    assert after == after[..closing] + (['}'] + after[closing + 1..]);
    assert ['{'] + (after[..closing] + (['}'] + after[closing + 1..])) ==
           ("{" + after[..closing] + "}") + after[closing + 1..];
  }

  /** The tokens of a word spell it. */
  lemma {:induction false} TokensSpell(word: string)
    ensures AllMeant(Tokens(word), Keep) == word
    decreases |word|
  {
    hide AllMeant, ReferenceOf, Inner, Find;
    var opening := Find(word, '{');

    if opening.None? {
      SpellsPlain(word);
    } else {
      var before, after := word[..opening.value], word[opening.value + 1..];
      var found := Closed(after);

      if found.None? {
        TokensSpell(after);
        MeantPair(Plain(before), Plain("{"), Tokens(after), Keep);
        assert word == before + (['{'] + after);
      } else {
        var closing := Find(after, '}').value;
        var (reference, tail) := found.value;
        ReferenceInner(after[..closing]);
        KeptReference(reference);
        TokensSpell(tail);
        MeantPair(Plain(before), Refers(reference), Tokens(tail), Keep);
        SpellsReference(word, opening.value, closing);
      }
    }
  }

  lemma {:induction false} SpellsPlain(word: string)
    ensures AllMeant([Plain(word)], Keep) == word
  {
    assert [Plain(word)][1..] == [];
    assert word + "" == word;
  }

  /** Parsing loses nothing: when every lookup answers with its own reference, the literal of
      what is parsed is the word. */
  lemma {:induction false} ParsedSpells(word: string)
    ensures var r := Build([], Tokens(word), Keep); r.Ok? && Literal(r.word) == word
  {
    BuildAdds([], Tokens(word), Keep);
    TokensSpell(word);
    assert "" + word == word;
  }

  /** A looked-up value never becomes an input, whatever it holds: any two lookups that find
      everything give the same inputs. */
  lemma {:induction false} InputsIndependent(word: string, one: (LookupKind, string) -> Option<string>,
                                             other: (LookupKind, string) -> Option<string>)
    ensures var (a, b) := (Build([], Tokens(word), one), Build([], Tokens(word), other));
            a.Ok? && b.Ok? ==> InputParts(a.word) == InputParts(b.word)
  {
    BuildAdds([], Tokens(word), one);
    BuildAdds([], Tokens(word), other);
  }

  /** What is parsed holds no empty text and no two texts in a row; it fails exactly when a
      reference isn't found; and it reads as the word with every reference replaced by its value. */
  lemma {:induction false} ParsedSound(word: string, lookup: (LookupKind, string) -> Option<string>)
    ensures var r := Build([], Tokens(word), lookup);
            && (r.Ok? <==> Finds(Tokens(word), lookup))
            && (r.Ok? ==> Compact(r.word) && Literal(r.word) == AllMeant(Tokens(word), lookup))
  {
    BuildAdds([], Tokens(word), lookup);
    assert "" + AllMeant(Tokens(word), lookup) == AllMeant(Tokens(word), lookup);
  }

  // ----- what a word says

  /** A reference that braces can hold. */
  predicate Proper(reference: Reference) {
    match reference
    case ToLookup(_, name) => name != ""
    case ToInput(name) => name != "" && forall c | c in name :: IsWordChar(c)
  }

  /** Between braces stands a reference exactly when it is "env:" or "file:" and a name, or a word of
      letters, digits and underscores. */
  lemma {:induction false} ReferenceExactly(inner: string, reference: Reference)
    ensures ReferenceOf(inner) == Some(reference) <==> inner == Inner(reference) && Proper(reference)
  {
    if reference.ToLookup? {
      var prefix := Prefix(reference.kind);
      assert inner == Inner(reference) ==> inner[..|prefix|] == prefix && inner[|prefix|..] == reference.name;
      assert "env:"[0] != "file:"[0];
    } else if inner == Inner(reference) && Proper(reference) {
      HasColon(inner);
    }

    if ReferenceOf(inner) == Some(reference) {
      ReferenceInner(inner);
    }
  }

  lemma {:induction false} HasColon(inner: string)
    ensures "env:" < inner || "file:" < inner ==> exists c :: c in inner && !IsWordChar(c)
  {
    if "env:" < inner {
      assert inner[3] == "env:"[3] && inner[3] in inner;
    } else if "file:" < inner {
      assert inner[4] == "file:"[4] && inner[4] in inner && !IsWordChar(':');
    }
  }

  function Spelled(token: Token): string {
    match token
    case Plain(text) => text
    case Refers(reference) => "{" + Inner(reference) + "}"
  }

  function Spell(tokens: seq<Token>): string {
    if tokens == [] then "" else Spelled(tokens[0]) + Spell(tokens[1..])
  }

  predicate Written(token: Token) {
    match token
    case Plain(text) => '{' !in text
    case Refers(reference) => Proper(reference) && '}' !in Inner(reference)
  }

  lemma {:induction false} PushTwice(word: Word, text: string, more: string)
    ensures PushText(word, text + more) == PushText(PushText(word, text), more)
  {
    if text == "" {
      assert text + more == more;
    } else if more == "" {
      assert text + more == text;
    } else if word != [] && word[|word| - 1].Text? {
      var rest, last := word[..|word| - 1], word[|word| - 1].text;
      assert word == rest + [Text(last)];
      LastText(rest, last, text + more);
      LastText(rest, last, text);
      LastText(rest, last + text, more);
      assert last + (text + more) == last + text + more;
    } else {
      LastText(word, text, more);
    }
  }

  lemma {:induction false} FindLater(text: string, more: string, c: char)
    requires c !in text
    ensures Find(text + more, c) == match Find(more, c) case None => None case Some(at) => Some(|text| + at)
  {
    if text == "" {
      assert text + more == more;
    } else {
      assert (text + more)[1..] == text[1..] + more;
      assert text[0] in text;
      FindLater(text[1..], more, c);
    }
  }

  /** Plain text before anything is plain text. */
  lemma {:induction false} PlainFirst(text: string, more: string, word: Word,
                                      lookup: (LookupKind, string) -> Option<string>)
    requires '{' !in text
    ensures Build(word, Tokens(text + more), lookup) == Build(PushText(word, text), Tokens(more), lookup)
  {
    hide PushText, Find, ReferenceOf, Closed;
    FindLater(text, more, '{');
    var opening := Find(more, '{');

    if opening.None? {
      BuildPlain(word, text + more, [], lookup);
      BuildPlain(PushText(word, text), more, [], lookup);
      assert [Plain(text + more)] + [] == [Plain(text + more)] && [Plain(more)] + [] == [Plain(more)];
      PushTwice(word, text, more);
    } else {
      var k := opening.value;
      assert (text + more)[|text| + k + 1..] == more[k + 1..];
      assert (text + more)[..|text| + k] == text + more[..k];
      TokenStep(text + more, word, lookup);
      TokenStep(more, PushText(word, text), lookup);
      PushTwice(word, text, more[..k]);
    }
  }

  lemma {:induction false} ClosedExactly(reference: Reference, tail: string)
    requires Proper(reference) && '}' !in Inner(reference)
    ensures Closed(Inner(reference) + "}" + tail) == Some((reference, tail))
  {
    hide ReferenceOf, Inner;
    var inner := Inner(reference);
    var after := inner + ("}" + tail);
    assert inner + "}" + tail == after;
    FindLater(inner, "}" + tail, '}');
    assert Find("}" + tail, '}') == Some(0);
    assert after[..|inner|] == inner && after[|inner| + 1..] == tail;
    ReferenceExactly(inner, reference);
  }

  /** A word parses as the texts and references that it is written from: inputs become inputs, and what
      environment and files answer becomes text. */
  lemma {:induction false} WrittenParses(tokens: seq<Token>, word: Word, lookup: (LookupKind, string) -> Option<string>)
    requires forall token :: token in tokens ==> Written(token)
    ensures Build(word, Tokens(Spell(tokens)), lookup) == Build(word, tokens, lookup)
    decreases |tokens|
  {
    hide PushText, Find, Closed, Inner, Proper, ReferenceOf;

    if tokens == [] {
      NothingWritten(word, lookup);
    } else {
      var rest := Spell(tokens[1..]);
      assert tokens[0] in tokens;

      match tokens[0] {
        case Plain(text) =>
          PlainFirst(text, rest, word, lookup);
          WrittenParses(tokens[1..], PushText(word, text), lookup);
        case Refers(reference) =>
          ReferenceFirst(reference, rest, word, lookup);
          match reference {
            case ToInput(name) => WrittenParses(tokens[1..], word + [Input(name)], lookup);
            case ToLookup(kind, name) =>
              var value := lookup(kind, name);
              if value.Some? {
                WrittenParses(tokens[1..], PushText(word, value.value), lookup);
              }
          }
      }
    }
  }

  lemma {:induction false} NothingWritten(word: Word, lookup: (LookupKind, string) -> Option<string>)
    ensures Build(word, Tokens(""), lookup) == Ok(word) == Build(word, [], lookup)
  {
    BuildPlain(word, "", [], lookup);
    assert [Plain("")] + [] == [Plain("")];
  }

  lemma {:induction false} ReferenceFirst(reference: Reference, rest: string, word: Word,
                                          lookup: (LookupKind, string) -> Option<string>)
    requires Written(Refers(reference))
    ensures Build(word, Tokens(Spelled(Refers(reference)) + rest), lookup) ==
            match reference
            case ToInput(name) => Build(word + [Input(name)], Tokens(rest), lookup)
            case ToLookup(kind, name) =>
              match lookup(kind, name)
              case None => Missing(kind, name)
              case Some(value) => Build(PushText(word, value), Tokens(rest), lookup)
  {
    hide Inner, Proper, Closed, ReferenceOf;
    var inner := Inner(reference);
    var text := Spelled(Refers(reference)) + rest;
    assert text[0] == '{' && text[1..] == inner + "}" + rest;
    ClosedExactly(reference, rest);
    TokenStep(text, word, lookup);
    assert text[..0] == "";
  }

  /** A brace that opens no reference stands for itself. */
  lemma {:induction false} BraceStays(before: string, after: string, word: Word,
                                      lookup: (LookupKind, string) -> Option<string>)
    requires '{' !in before
    requires forall reference, tail :: Proper(reference) && '}' !in Inner(reference) ==>
               after != Inner(reference) + "}" + tail
    ensures Build(word, Tokens(before + "{" + after), lookup) ==
            Build(PushText(PushText(word, before), "{"), Tokens(after), lookup)
  {
    hide PushText, Inner, Proper, ReferenceOf;
    var text := before + ("{" + after);
    assert before + "{" + after == text;
    FindLater(before, "{" + after, '{');
    assert Find("{" + after, '{') == Some(0);
    assert text[|before| + 1..] == after && text[..|before|] == before;
    NoReference(after);
    TokenStep(text, word, lookup);
  }

  lemma {:induction false} NoReference(after: string)
    requires forall reference, tail :: Proper(reference) && '}' !in Inner(reference) ==>
               after != Inner(reference) + "}" + tail
    ensures Closed(after).None?
  {
    hide ReferenceOf, Inner, Proper;
    var closing := Find(after, '}');

    if closing.Some? && ReferenceOf(after[..closing.value]).Some? {
      var inner, tail := after[..closing.value], after[closing.value + 1..];
      var reference := ReferenceOf(inner).value;
      assert after == inner + "}" + tail;
      assert '}' !in inner;
      ReferenceExactly(inner, reference);
    }
  }
}
