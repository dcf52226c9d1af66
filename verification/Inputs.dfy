/** Checking what a client gives for a command's inputs, and filling its words: from
    src/sources/commands/inputs.rs and src/sources/commands/template.rs. */
module Inputs {
  import opened Prelude
  import T = Template

  const MAX_INPUT := 4_096

  datatype InputType = StringType | IntegerType | NumberType | BooleanType

  datatype Input = Input(
    kind: Option<InputType>, choices: Option<seq<string>>, min: Option<real>, max: Option<real>,
    optional: bool, flag: Option<string>)

  /** A JSON value; `text` is how a number or any other value is written. */
  datatype Value = Str(value: string) | Bool(on: bool) | Number(number: real, text: string) | Other(text: string)

  type Inputs = map<string, Input>

  type Values = map<string, Value>

  predicate IsOpen(input: Option<Input>) {
    match input
    case None => true
    case Some(i) => i.choices.None? && i.flag.None? && (i.kind.None? || i.kind == Some(StringType))
  }

  predicate IsOptional(input: Option<Input>) {
    input.Some? && input.value.optional
  }

  // ----- checking

  predicate IsSeparator(c: char) {
    c == '/' || c == '\\'
  }

  /** The texts between separators. */
  function Segments(text: string): (segments: seq<string>)
    ensures segments != []
  {
    if text == "" then [""]
    else
      var rest := Segments(text[1..]);
      if IsSeparator(text[0]) then [""] + rest else [[text[0]] + rest[0]] + rest[1..]
  }

  predicate HasDots(text: string) {
    ".." in Segments(text)
  }

  /** Two dots with a slash, a backslash or an end of the text on either side. */
  predicate DotsAt(text: string, i: nat) {
    && i + 2 <= |text| && text[i] == '.' && text[i + 1] == '.'
    && (i == 0 || text[i - 1] == '/' || text[i - 1] == '\\')
    && (i + 2 == |text| || text[i + 2] == '/' || text[i + 2] == '\\')
  }

  lemma {:induction false} DotsFirst(text: string)
    ensures Segments(text)[0] == ".." <==> DotsAt(text, 0)
    ensures Segments(text)[0] == "." <==> text != "" && text[0] == '.' && (|text| == 1 || IsSeparator(text[1]))
    ensures Segments(text)[0] == "" <==> text == "" || IsSeparator(text[0])
  {
    if text != "" {
      DotsFirst(text[1..]);
      var rest := Segments(text[1..]);

      if !IsSeparator(text[0]) {
        assert ".." == "." + "." && "." == "." + "";
        Prepended(text[0], rest[0], '.', ".");
        Prepended(text[0], rest[0], '.', "");
      }
    }
  }

  lemma {:induction false} Prepended(c: char, rest: string, d: char, tail: string)
    ensures [c] + rest == [d] + tail <==> c == d && rest == tail
  {
    assert ([c] + rest)[1..] == rest && ([d] + tail)[1..] == tail;
    assert ([c] + rest)[0] == c && ([d] + tail)[0] == d;
  }

  lemma {:induction false} DotsLater(text: string)
    ensures ".." in Segments(text)[1..] <==> exists i :: i > 0 && DotsAt(text, i)
  {
    if text != "" {
      var rest := text[1..];
      DotsLater(rest);
      DotsFirst(rest);
      forall i | i > 1 ensures DotsAt(text, i) <==> DotsAt(rest, i - 1) {
      }

      if IsSeparator(text[0]) {
        assert Segments(text)[1..] == Segments(rest);
        assert Segments(rest) == [Segments(rest)[0]] + Segments(rest)[1..];
        assert DotsAt(text, 1) <==> DotsAt(rest, 0);
      } else {
        assert Segments(text)[1..] == Segments(rest)[1..];
        assert !DotsAt(text, 1);
      }

      if i :| i > 0 && DotsAt(rest, i) {
        assert DotsAt(text, i + 1);
      }
    }
  }

  /** A ".." segment is two dots between slashes, backslashes or ends. */
  lemma {:induction false} DotsExactly(text: string)
    ensures HasDots(text) <==> exists i :: DotsAt(text, i)
  {
    DotsFirst(text);
    DotsLater(text);
    assert Segments(text) == [Segments(text)[0]] + Segments(text)[1..];

    if i :| DotsAt(text, i) {
      assert i == 0 || i > 0;
    }
  }

  predicate CheckNumber(value: Value, input: Input, integer: bool, starts: bool) {
    && value.Number?
    && (integer ==> value.number == value.number.Floor as real)
    && (input.min.Some? ==> value.number >= input.min.value)
    && (input.max.Some? ==> value.number <= input.max.value)
    && (starts ==> value.number >= 0.0)
  }

  predicate CheckText(value: Value, choices: Option<seq<string>>, starts: bool) {
    && value.Str?
    && match choices
       case Some(allowed) => value.value in allowed
       case None =>
         && |value.value| <= MAX_INPUT
         && (starts ==> value.value != "" && value.value[0] != '-')
         && !HasDots(value.value)
  }

  predicate CheckValue(value: Value, input: Option<Input>, starts: bool) {
    var kind := if input.Some? then input.value.kind else None;
    match kind
    case Some(BooleanType) => value.Bool?
    case Some(IntegerType) => CheckNumber(value, input.value, true, starts)
    case Some(NumberType) => CheckNumber(value, input.value, false, starts)
    case _ => CheckText(value, if input.Some? then input.value.choices else None, starts)
  }

  /** What an open text input can hold once checked. */
  lemma OpenChecked(value: Value, input: Option<Input>, starts: bool)
    requires IsOpen(input) && CheckValue(value, input, starts)
    ensures value.Str? && |value.value| <= MAX_INPUT && !HasDots(value.value)
    ensures starts ==> value.value != "" && value.value[0] != '-'
  {
  }

  predicate StartsWord(words: seq<T.Word>, name: string) {
    exists k | 0 <= k < |words| :: words[k] != [] && words[k][0] == T.Input(name)
  }

  predicate Names(words: seq<T.Word>, name: string) {
    exists k | 0 <= k < |words| :: T.Input(name) in words[k]
  }

  /** Every input the parts name, in order, as often as they name it. */
  function NamesIn(word: T.Word): seq<string> {
    if word == [] then []
    else NamesIn(word[..|word| - 1]) + if word[|word| - 1].Input? then [word[|word| - 1].name] else []
  }

  function AllNames(words: seq<T.Word>): seq<string> {
    if words == [] then [] else AllNames(words[..|words| - 1]) + NamesIn(words[|words| - 1])
  }

  /** The first `x` stands before every `y`. */
  ghost predicate Before(names: seq<string>, x: string, y: string) {
    exists p :: 0 <= p < |names| && names[p] == x && y !in names[..p]
  }

  /** `some` holds each of `all` once, in the order in which they first stand there. */
  ghost predicate EachOnce(some: seq<string>, all: seq<string>) {
    && (forall name :: name in some <==> name in all)
    && (forall i, j :: 0 <= i < j < |some| ==> some[i] != some[j] && Before(all, some[i], some[j]))
  }

  lemma {:induction false} OneMore(some: seq<string>, all: seq<string>, name: string)
    requires EachOnce(some, all)
    ensures EachOnce(if name in some then some else some + [name], all + [name])
  {
    var more := if name in some then some else some + [name];
    forall i, j | 0 <= i < j < |more| ensures Before(all + [name], more[i], more[j]) {
      if j < |some| {
        var p :| 0 <= p < |all| && all[p] == some[i] && some[j] !in all[..p];
        assert (all + [name])[p] == some[i] && (all + [name])[..p] == all[..p];
      } else {
        assert some[i] in some && some[i] in all;
        var p :| 0 <= p < |all| && all[p] == some[i];
        assert (all + [name])[p] == some[i] && (all + [name])[..p] == all[..p];
      }
    }
  }

  lemma {:induction false} NamesInNext(word: T.Word, k: nat)
    requires k < |word|
    ensures NamesIn(word[..k + 1]) == NamesIn(word[..k]) + if word[k].Input? then [word[k].name] else []
    ensures NamesIn(word[..0]) == []
  {
    assert word[..k + 1][..k] == word[..k];
  }

  lemma {:induction false} NamesMeant(words: seq<T.Word>)
    ensures forall name :: name in AllNames(words) <==> Names(words, name)
  {
    if words != [] {
      var rest, last := words[..|words| - 1], words[|words| - 1];
      NamesMeant(rest);
      NamesInMeant(last);
      NamesGrow(words, |rest|);
      assert words[..|rest| + 1] == words;
    }
  }

  lemma {:induction false} NamesInMeant(word: T.Word)
    ensures forall name :: name in NamesIn(word) <==> T.Input(name) in word
  {
    if word != [] {
      NamesInMeant(word[..|word| - 1]);
      assert word == word[..|word| - 1] + [word[|word| - 1]];
    }
  }

  /** The inputs the words name, each once, in the order they first appear. */
  method InputsOf(words: seq<T.Word>) returns (names: seq<string>)
    ensures EachOnce(names, AllNames(words))
    ensures forall name :: name in names <==> Names(words, name)
  {
    hide EachOnce;
    names := [];
    assert EachOnce([], AllNames(words[..0])) by { NothingNamed(); }

    for i := 0 to |words|
      invariant EachOnce(names, AllNames(words[..i]))
    {
      ghost var before := AllNames(words[..i]);
      assert before + [] == before && words[i][..0] == [];

      for k := 0 to |words[i]|
        invariant EachOnce(names, before + NamesIn(words[i][..k]))
      {
        var part := words[i][k];
        ghost var all := before + NamesIn(words[i][..k]);
        NamesInNext(words[i], k);

        if part.Input? {
          OneMore(names, all, part.name);
          assert all + [part.name] == before + NamesIn(words[i][..k + 1]);
        } else {
          assert all == before + NamesIn(words[i][..k + 1]);
        }

        if part.Input? && part.name !in names {
          names := names + [part.name];
        }
      }

      assert words[i][..|words[i]|] == words[i];
      assert words[..i + 1][..i] == words[..i];
    }

    assert words[..|words|] == words;
    NamesMeant(words);
    OnceMeans(names, AllNames(words));
  }

  lemma {:induction false} NothingNamed()
    ensures EachOnce([], AllNames([]))
  {
  }

  lemma {:induction false} OnceMeans(some: seq<string>, all: seq<string>)
    requires EachOnce(some, all)
    ensures forall name :: name in some <==> name in all
  {
  }

  lemma {:induction false} NamesGrow(words: seq<T.Word>, i: nat)
    requires i < |words|
    ensures forall name :: Names(words[..i + 1], name) <==> Names(words[..i], name) || T.Input(name) in words[i]
  {
    var more := words[..i + 1];
    forall name | Names(words[..i], name) ensures Names(more, name) {
      var k :| 0 <= k < i && T.Input(name) in words[..i][k];
      assert T.Input(name) in more[k];
    }
    forall name | T.Input(name) in words[i] ensures Names(more, name) {
      assert T.Input(name) in more[i];
    }
    forall name | Names(more, name) ensures Names(words[..i], name) || T.Input(name) in words[i] {
      var k :| 0 <= k < |more| && T.Input(name) in more[k];
      assert k < i ==> T.Input(name) in words[..i][k];
    }
  }

  /** Whether a value given, or not given, for a named input passes. */
  predicate Passes(words: seq<T.Word>, inputs: Inputs, given: Values, name: string) {
    var input := Lookup(inputs, name);
    if name in given then CheckValue(given[name], input, StartsWord(words, name)) else IsOptional(input)
  }

  /** Accepts exactly when every input the words name passes, and then keeps exactly the values
      given for those. `given` is None when the arguments are not an object. */
  method Validate(words: seq<T.Word>, inputs: Inputs, given: Option<Values>) returns (r: Option<Values>)
    ensures r.Some? <==> given.Some? && forall name :: Names(words, name) ==> Passes(words, inputs, given.value, name)
    ensures r.Some? ==> Accepted(words, inputs, given.value, r.value)
  {
    if given.None? {
      return None;
    }

    var names := InputsOf(words);
    var values: Values := map[];

    for i := 0 to |names|
      invariant forall k :: 0 <= k < i ==> Passes(words, inputs, given.value, names[k])
      invariant forall name :: name in values <==> name in names[..i] && name in given.value
      invariant forall name :: name in values ==> values[name] == given.value[name]
    {
      var name := names[i];
      assert name in names && names[..i + 1] == names[..i] + [name];
      var input := Lookup(inputs, name);

      if name !in given.value {
        if !IsOptional(input) {
          return None;
        }
      } else {
        if !CheckValue(given.value[name], input, StartsWord(words, name)) {
          return None;
        }

        values := values[name := given.value[name]];
      }
    }

    assert names[..|names|] == names;
    return Some(values);
  }

  ghost predicate Accepted(words: seq<T.Word>, inputs: Inputs, given: Values, values: Values) {
    && (forall name :: Names(words, name) ==> Passes(words, inputs, given, name))
    && (forall name :: name in values <==> Names(words, name) && name in given)
    && forall name :: name in values ==> values[name] == given[name]
  }

  // ----- what clients are told

  /** The schema `property` publishes for one input; `noDash` is the pattern that wants a first
      character other than "-". */
  datatype Schema =
    | BooleanSchema
    | NumberSchema(integer: bool, minimum: Option<real>, maximum: Option<real>)
    | TextSchema(choices: Option<seq<string>>, maxLength: Option<nat>, noDash: bool)

  function Larger(a: Option<real>, b: Option<real>): Option<real> {
    if a.None? then b else if b.None? then a else Some(if a.value < b.value then b.value else a.value)
  }

  function Property(input: Option<Input>, starts: bool): Schema {
    var kind := if input.Some? then input.value.kind else None;
    match kind
    case Some(BooleanType) => BooleanSchema
    case Some(IntegerType) =>
      NumberSchema(true, Larger(input.value.min, if starts then Some(0.0) else None), input.value.max)
    case Some(NumberType) =>
      NumberSchema(false, Larger(input.value.min, if starts then Some(0.0) else None), input.value.max)
    case _ =>
      var choices := if input.Some? then input.value.choices else None;
      if choices.Some? then TextSchema(choices, None, false) else TextSchema(None, Some(MAX_INPUT), starts)
  }

  /** What JSON Schema says a value has to meet. */
  predicate Conforms(schema: Schema, value: Value) {
    match schema
    case BooleanSchema => value.Bool?
    case NumberSchema(integer, minimum, maximum) =>
      && value.Number? && (integer ==> value.number.Floor as real == value.number)
      && (minimum.Some? ==> value.number >= minimum.value) && (maximum.Some? ==> value.number <= maximum.value)
    case TextSchema(choices, maxLength, noDash) =>
      && value.Str? && (choices.Some? ==> value.value in choices.value)
      && (maxLength.Some? ==> |value.value| <= maxLength.value)
      && (noDash ==> value.value != "" && value.value[0] != '-')
  }

  /** An open input is one whose schema is any text, and that is no flag. */
  lemma {:induction false} OpenExactly(input: Option<Input>, starts: bool)
    ensures IsOpen(input) <==>
            && Property(input, starts).TextSchema? && Property(input, starts).choices.None?
            && (input.Some? ==> input.value.flag.None?)
  {
  }

  /** The check and the published schema agree on every value but a text with a ".." segment,
      which no schema rules out. */
  lemma {:induction false} SchemaAgrees(value: Value, input: Option<Input>, starts: bool)
    ensures CheckValue(value, input, starts) <==>
            && Conforms(Property(input, starts), value)
            && (Property(input, starts).TextSchema? && Property(input, starts).choices.None? ==> !HasDots(value.value))
  {
    hide HasDots;
  }

  /** A value passes exactly when it meets the schema that is published for its place and has no ".."
      segment where any text is open; a missing one exactly when the input is optional. */
  lemma {:induction false} PassesExactly(words: seq<T.Word>, inputs: Inputs, given: Values, name: string)
    ensures Passes(words, inputs, given, name) <==>
            if name in given then
              var starts := exists k :: 0 <= k < |words| && words[k] != [] && words[k][0] == T.Input(name);
              var schema := Property(Lookup(inputs, name), starts);
              && Conforms(schema, given[name])
              && (schema.TextSchema? && schema.choices.None? ==> !HasDots(given[name].value))
            else name in inputs && inputs[name].optional
  {
    hide HasDots, Property, CheckValue, Conforms;

    if name in given {
      SchemaAgrees(given[name], Lookup(inputs, name), StartsWord(words, name));
    }
  }

  /** The object schema: every named input conforms or is optional and left out, and if any input
      is named there is nothing else. */
  ghost predicate ConformsAll(words: seq<T.Word>, inputs: Inputs, given: Values) {
    && (forall name | name in given :: Names(words, name) || forall other :: !Names(words, other))
    && forall k, part | 0 <= k < |words| && part in words[k] :: part.Input? ==>
         if part.name in given
         then Conforms(Property(Lookup(inputs, part.name), StartsWord(words, part.name)), given[part.name])
         else IsOptional(Lookup(inputs, part.name))
  }

  /** Arguments that follow the published schema and hold no ".." segment are accepted. */
  lemma {:induction false} SchemaSuffices(words: seq<T.Word>, inputs: Inputs, given: Values, name: string)
    requires ConformsAll(words, inputs, given) && Names(words, name)
    requires name in given && given[name].Str? ==> !HasDots(given[name].value)
    ensures Passes(words, inputs, given, name)
  {
    hide HasDots, Property, CheckValue;
    var k :| 0 <= k < |words| && T.Input(name) in words[k];

    if name in given {
      SchemaAgrees(given[name], Lookup(inputs, name), StartsWord(words, name));
    }
  }

  // ----- filling

  function ValueText(value: Value): string {
    match value
    case Str(text) => text
    case Bool(on) => if on then "true" else "false"
    case Number(_, text) => text
    case Other(text) => text
  }

  function PartText(part: T.Part, values: Values): string {
    match part
    case Text(text) => text
    case Input(name) => if name in values then ValueText(values[name]) else ""
  }

  function Concat(word: T.Word, values: Values): string {
    if word == [] then "" else PartText(word[0], values) + Concat(word[1..], values)
  }

  predicate Lacks(word: T.Word, values: Values) {
    exists k | 0 <= k < |word| :: word[k].Input? && word[k].name !in values
  }

  /** The flag of a word that is one flag input. */
  function FlagOf(word: T.Word, inputs: Inputs): Option<string> {
    if |word| == 1 && word[0].Input? && word[0].name in inputs then inputs[word[0].name].flag else None
  }

  function FillWord(word: T.Word, values: Values, inputs: Inputs): Option<string> {
    if Lacks(word, values) then None
    else if FlagOf(word, inputs).Some? then
      (if Lookup(values, word[0].name) == Some(Bool(true)) then FlagOf(word, inputs) else None)
    else Some(Concat(word, values))
  }

  function Fill(words: seq<T.Word>, values: Values, inputs: Inputs): seq<string> {
    if words == [] then []
    else
      var rest := Fill(words[..|words| - 1], values, inputs);
      match FillWord(words[|words| - 1], values, inputs)
      case None => rest
      case Some(argument) => rest + [argument]
  }

  // ----- what a filled command is

  /** How many of the first `k` words give an argument. */
  function Given(words: seq<T.Word>, values: Values, inputs: Inputs, k: nat): nat
    requires k <= |words|
  {
    if k == 0 then 0
    else Given(words, values, inputs, k - 1) + if FillWord(words[k - 1], values, inputs).Some? then 1 else 0
  }

  lemma {:induction false} FillStep(words: seq<T.Word>, values: Values, inputs: Inputs, n: nat)
    requires 0 < n <= |words|
    ensures var argument := FillWord(words[n - 1], values, inputs);
            Fill(words[..n], values, inputs) ==
            Fill(words[..n - 1], values, inputs) + if argument.Some? then [argument.value] else []
  {
    hide FillWord;
    assert words[..n][..n - 1] == words[..n - 1];
  }

  lemma {:induction false} FillCounts(words: seq<T.Word>, values: Values, inputs: Inputs, n: nat)
    requires n <= |words|
    ensures |Fill(words[..n], values, inputs)| == Given(words, values, inputs, n)
  {
    hide FillWord;

    if n > 0 {
      FillCounts(words, values, inputs, n - 1);
      FillStep(words, values, inputs, n);
    }
  }

  /** Each word gives at most one argument, and they come in the order of the words. */
  lemma {:induction false} FillInOrder(words: seq<T.Word>, values: Values, inputs: Inputs, n: nat, k: nat)
    requires k < n <= |words|
    ensures var argument := FillWord(words[k], values, inputs);
            argument.Some? ==>
              && Given(words, values, inputs, k) < |Fill(words[..n], values, inputs)|
              && Fill(words[..n], values, inputs)[Given(words, values, inputs, k)] == argument.value
  {
    hide FillWord, Fill;
    FillStep(words, values, inputs, n);

    if k < n - 1 {
      FillInOrder(words, values, inputs, n - 1, k);
    } else {
      FillCounts(words, values, inputs, k);
    }
  }

  /** The arguments are those of the words that give one: none is added, none is repeated. */
  lemma {:induction false} FillWhole(words: seq<T.Word>, values: Values, inputs: Inputs)
    ensures |Fill(words, values, inputs)| == Given(words, values, inputs, |words|) <= |words|
    ensures forall k :: 0 <= k < |words| && FillWord(words[k], values, inputs).Some? ==>
              && Given(words, values, inputs, k) < |Fill(words, values, inputs)|
              && Fill(words, values, inputs)[Given(words, values, inputs, k)] ==
                   FillWord(words[k], values, inputs).value
  {
    hide FillWord, Fill;
    assert words[..|words|] == words;
    FillCounts(words, values, inputs, |words|);
    GivenBounded(words, values, inputs, |words|);
    forall k | 0 <= k < |words| && FillWord(words[k], values, inputs).Some?
      ensures Given(words, values, inputs, k) < |Fill(words, values, inputs)|
      ensures Fill(words, values, inputs)[Given(words, values, inputs, k)] == FillWord(words[k], values, inputs).value
    {
      FillInOrder(words, values, inputs, |words|, k);
    }
  }

  lemma {:induction false} GivenBounded(words: seq<T.Word>, values: Values, inputs: Inputs, k: nat)
    requires k <= |words|
    ensures Given(words, values, inputs, k) <= k
  {
    hide FillWord;

    if k > 0 {
      GivenBounded(words, values, inputs, k - 1);
    }
  }

  /** The word is one input that stands for a flag. */
  predicate IsFlag(word: T.Word, inputs: Inputs) {
    |word| == 1 && word[0].Input? && word[0].name in inputs && inputs[word[0].name].flag.Some?
  }

  /** How a value is written in an argument. */
  predicate WrittenAs(value: Value, text: string) {
    match value
    case Str(given) => text == given
    case Bool(on) => if on then text == "true" else text == "false"
    case Number(_, digits) => text == digits
    case Other(other) => text == other
  }

  function Flat(pieces: seq<string>): string {
    if pieces == [] then "" else pieces[0] + Flat(pieces[1..])
  }

  /** `pieces` are the word's own texts and, for its inputs, their values as written. */
  ghost predicate ArePieces(pieces: seq<string>, word: T.Word, values: Values) {
    && |pieces| == |word|
    && (forall i | 0 <= i < |word| :: word[i].Text? ==> pieces[i] == word[i].text)
    && forall i | 0 <= i < |word| && word[i].Input? ::
         word[i].name in values && WrittenAs(values[word[i].name], pieces[i])
  }

  lemma {:induction false} ConcatPieces(word: T.Word, values: Values) returns (pieces: seq<string>)
    requires !Lacks(word, values)
    ensures ArePieces(pieces, word, values) && Concat(word, values) == Flat(pieces)
  {
    pieces := [];

    if word != [] {
      assert forall i :: 0 <= i < |word[1..]| ==> word[1..][i] == word[i + 1];
      var rest := ConcatPieces(word[1..], values);
      pieces := [PartText(word[0], values)] + rest;
      assert pieces[1..] == rest;
    }
  }

  /** What argument a word gives: none if a value is missing; the flag, exactly if its value is true; or
      else the word's texts and the values of its inputs as they are written, one after the other. */
  lemma {:induction false} FillExactly(word: T.Word, values: Values, inputs: Inputs)
    ensures (exists i :: 0 <= i < |word| && word[i].Input? && word[i].name !in values) ==>
              FillWord(word, values, inputs).None?
    ensures (forall i :: 0 <= i < |word| && word[i].Input? ==> word[i].name in values) ==>
              if IsFlag(word, inputs) then
                FillWord(word, values, inputs) ==
                if values[word[0].name] == Bool(true) then inputs[word[0].name].flag else None
              else
                exists pieces :: ArePieces(pieces, word, values) && FillWord(word, values, inputs) == Some(Flat(pieces))
  {
    hide Concat, ArePieces, Flat;

    if !Lacks(word, values) {
      var pieces := ConcatPieces(word, values);
    }
  }

  /** A word is dropped only when it names an optional input that was not given, or is a flag
      that was not set. */
  lemma {:induction false} DroppedExactly(words: seq<T.Word>, inputs: Inputs, given: Values, values: Values, k: nat)
    requires Accepted(words, inputs, given, values) && k < |words|
    ensures FillWord(words[k], values, inputs).None? <==>
              || (exists name :: T.Input(name) in words[k] && name !in given && name in inputs && inputs[name].optional)
              || (IsFlag(words[k], inputs) && Lookup(given, words[k][0].name) != Some(Bool(true)))
  {
    var word := words[k];

    if Lacks(word, values) {
      var i :| 0 <= i < |word| && word[i].Input? && word[i].name !in values;
      assert T.Input(word[i].name) in words[k];
      assert Names(words, word[i].name) && Passes(words, inputs, given, word[i].name);
    } else {
      forall name | T.Input(name) in word ensures name in given && Names(words, name) {
        var i :| 0 <= i < |word| && word[i] == T.Input(name);
        assert word[i].name in values;
      }

      if FlagOf(word, inputs).Some? {
        assert word[0] in word;
      }
    }
  }

  /** An argument whose word begins with an open text input can't be taken for an option. */
  lemma {:induction false} NeverAnOption(words: seq<T.Word>, inputs: Inputs, given: Values, values: Values, k: nat)
    requires Accepted(words, inputs, given, values) && k < |words|
    requires words[k] != [] && words[k][0].Input? && IsOpen(Lookup(inputs, words[k][0].name))
    ensures var argument := FillWord(words[k], values, inputs);
            argument.Some? ==> argument.value != "" && argument.value[0] != '-'
  {
    var word, name := words[k], words[k][0].name;

    if FillWord(word, values, inputs).Some? {
      assert !Lacks(word, values) && word[0] in word;
      assert T.Input(name) in words[k] && Names(words, name) && StartsWord(words, name);
      assert Passes(words, inputs, given, name);
      OpenChecked(values[name], Lookup(inputs, name), true);
    }
  }

  // ----- no way up

  lemma {:induction false} SegmentsFirst(c: char, text: string)
    ensures var rest := Segments(text);
            Segments([c] + text) == if IsSeparator(c) then [""] + rest else [[c] + rest[0]] + rest[1..]
  {
    assert ([c] + text)[1..] == text;
  }

  lemma {:induction false} SegmentsSplit(left: string, c: char, right: string)
    requires IsSeparator(c)
    ensures Segments(left + [c] + right) == Segments(left) + Segments(right)
  {
    hide Segments;
    SegmentsFirst(c, right);

    if left == "" {
      assert left + [c] + right == [c] + right;
      NoSegments();
    } else {
      var rest, more := Segments(left[1..]), Segments(right);
      SegmentsSplit(left[1..], c, right);
      SegmentsFirst(left[0], left[1..]);
      SegmentsFirst(left[0], left[1..] + [c] + right);
      assert left == [left[0]] + left[1..];
      assert left + [c] + right == [left[0]] + (left[1..] + [c] + right);
      assert (rest + more)[0] == rest[0] && (rest + more)[1..] == rest[1..] + more;
    }
  }

  lemma {:induction false} NoSegments()
    ensures Segments("") == [""]
  {
  }

  predicate EndsApart(text: string) {
    text != "" && IsSeparator(text[|text| - 1])
  }

  predicate BeginsApart(text: string) {
    text != "" && IsSeparator(text[0])
  }

  /** Where a separator stands at the seam, no segment crosses it. */
  lemma {:induction false} Seam(left: string, right: string)
    requires EndsApart(left) || BeginsApart(right)
    ensures HasDots(left + right) <==> HasDots(left) || HasDots(right)
  {
    if EndsApart(left) {
      var l, c := left[..|left| - 1], left[|left| - 1];
      assert left == l + [c] + "" && left + right == l + [c] + right;
      SegmentsSplit(l, c, "");
      SegmentsSplit(l, c, right);
    } else {
      var c, r := right[0], right[1..];
      assert right == "" + [c] + r && left + right == left + [c] + r;
      SegmentsSplit("", c, r);
      SegmentsSplit(left, c, r);
    }
  }

  /** Only texts and open inputs, each input between separators or at an end of the word. */
  ghost predicate Fenced(word: T.Word, inputs: Inputs) {
    forall i | 0 <= i < |word| && word[i].Input? ::
      && IsOpen(Lookup(inputs, word[i].name))
      && (i > 0 ==> word[i - 1].Text? && EndsApart(word[i - 1].text))
      && (i < |word| - 1 ==> word[i + 1].Text? && BeginsApart(word[i + 1].text))
  }

  ghost predicate Harmless(word: T.Word, values: Values) {
    forall i | 0 <= i < |word| && word[i].Input? :: !HasDots(PartText(word[i], values))
  }

  predicate TextHasDots(word: T.Word) {
    exists i | 0 <= i < |word| :: word[i].Text? && HasDots(word[i].text)
  }

  lemma {:induction false} ConcatBegins(word: T.Word, values: Values)
    requires word != [] && word[0].Text? && word[0].text != ""
    ensures var all := Concat(word, values); all != "" && all[0] == word[0].text[0]
  {
  }

  lemma {:induction false} ConcatDots(word: T.Word, values: Values, inputs: Inputs)
    requires T.Compact(word) && Fenced(word, inputs) && Harmless(word, values)
    ensures HasDots(Concat(word, values)) <==> TextHasDots(word)
  {
    if word == [] {
      assert Segments("") == [""];
    } else {
      var first, rest := word[0], word[1..];
      RestFenced(word, values, inputs);
      ConcatDots(rest, values, inputs);
      TextDotsFirst(word);

      if rest == [] {
        assert PartText(first, values) + "" == PartText(first, values);
        assert Segments("") == [""];
      } else {
        if first.Input? {
          assert word[1] == rest[0];
          ConcatBegins(rest, values);
        } else {
          assert word[1].Input?;
        }

        Seam(PartText(first, values), Concat(rest, values));
      }
    }
  }

  lemma {:induction false} RestFenced(word: T.Word, values: Values, inputs: Inputs)
    requires word != [] && T.Compact(word) && Fenced(word, inputs) && Harmless(word, values)
    ensures T.Compact(word[1..]) && Fenced(word[1..], inputs) && Harmless(word[1..], values)
  {
    var rest := word[1..];
    forall i | 0 <= i < |rest| ensures rest[i] == word[i + 1] {
    }
  }

  lemma {:induction false} TextDotsFirst(word: T.Word)
    requires word != []
    ensures TextHasDots(word) <==> (word[0].Text? && HasDots(word[0].text)) || TextHasDots(word[1..])
  {
    var rest := word[1..];

    if TextHasDots(rest) {
      var i :| 0 <= i < |rest| && rest[i].Text? && HasDots(rest[i].text);
      assert word[i + 1] == rest[i];
    }

    if i :| 0 < i < |word| && word[i].Text? && HasDots(word[i].text) {
      assert rest[i - 1] == word[i];
    }
  }

  /** An argument made of texts and fenced open inputs has a ".." segment exactly when the
      template's own text has one. */
  lemma {:induction false} NoWayUp(words: seq<T.Word>, inputs: Inputs, given: Values, values: Values, k: nat)
    requires Accepted(words, inputs, given, values) && k < |words|
    requires T.Compact(words[k]) && Fenced(words[k], inputs)
    ensures var argument := FillWord(words[k], values, inputs);
            argument.Some? ==> (HasDots(argument.value) <==> TextHasDots(words[k]))
  {
    var word := words[k];

    if FillWord(word, values, inputs).Some? {
      forall i | 0 <= i < |word| && word[i].Input? ensures !HasDots(PartText(word[i], values)) {
        var name := word[i].name;
        assert !Lacks(word, values) && name in values;
        assert word[i] in word && T.Input(name) in words[k] && Names(words, name);
        assert Passes(words, inputs, given, name);
        OpenChecked(values[name], Lookup(inputs, name), StartsWord(words, name));
      }
      NotAFlag(word, inputs);
      ConcatDots(word, values, inputs);
    }
  }

  lemma {:induction false} NotAFlag(word: T.Word, inputs: Inputs)
    requires Fenced(word, inputs)
    ensures FlagOf(word, inputs).None?
  {
    if |word| == 1 && word[0].Input? {
      assert IsOpen(Lookup(inputs, word[0].name));
    }
  }
}
