/** The edit distance that suggests a known key for a mistyped one, from src/config.rs. */
module Distance {

  function Min(a: nat, b: nat): nat {
    if a < b then a else b
  }

  /** The textbook recursion on the last characters. */
  function EditDistance(left: string, right: string): nat
    decreases |left| + |right|
  {
    if left == "" then |right|
    else if right == "" then |left|
    else
      var l, r := left[..|left| - 1], right[..|right| - 1];
      var differs := if left[|left| - 1] == right[|right| - 1] then 0 else 1;
      Min(Min(EditDistance(l, right) + 1, EditDistance(left, r) + 1), EditDistance(l, r) + differs)
  }

  /** The distances from `left` to the prefixes of `right`. */
  predicate IsRow(row: seq<nat>, left: string, right: string, upTo: nat)
    requires upTo <= |right|
  {
    |row| == upTo + 1 && forall j :: 0 <= j <= upTo ==> row[j] == EditDistance(left, right[..j])
  }

  lemma {:induction false} NextCell(left: string, right: string, row: nat, column: nat)
    requires row < |left| && column < |right|
    ensures EditDistance(left[..row + 1], right[..column + 1]) ==
            Min(Min(EditDistance(left[..row], right[..column + 1]) + 1,
                    EditDistance(left[..row + 1], right[..column]) + 1),
                EditDistance(left[..row], right[..column]) + if left[row] == right[column] then 0 else 1)
  {
    assert left[..row + 1][..row] == left[..row];
    assert right[..column + 1][..column] == right[..column];
  }

  /** The two-row loop. */
  method Levenshtein(left: string, right: string) returns (distance: nat)
    ensures distance == EditDistance(left, right)
  {
    var previous: seq<nat> := [];

    for column := 0 to |right| + 1
      invariant |previous| == column && forall j :: 0 <= j < column ==> previous[j] == j
    {
      previous := previous + [column];
    }

    for row := 0 to |left|
      invariant IsRow(previous, left[..row], right, |right|)
    {
      var current: seq<nat> := [row + 1];

      for column := 0 to |right|
        invariant IsRow(current, left[..row + 1], right, column)
      {
        hide EditDistance;
        NextCell(left, right, row, column);
        var above := previous[column + 1];
        var diagonal := previous[column];
        var beside := current[|current| - 1];
        var substitution := diagonal + if left[row] != right[column] then 1 else 0;
        current := current + [Min(Min(above + 1, beside + 1), substitution)];
      }

      previous := current;
    }

    assert left[..|left|] == left && right[..|right|] == right;
    distance := previous[|previous| - 1];
  }

  // ----- scripts

  datatype Edit = Insert(at: nat, c: char) | Delete(at: nat) | Substitute(at: nat, c: char)

  predicate Fits(edit: Edit, text: string) {
    match edit
    case Insert(at, _) => at <= |text|
    case Delete(at) => at < |text|
    case Substitute(at, _) => at < |text|
  }

  function Apply(edit: Edit, text: string): string
    requires Fits(edit, text)
  {
    match edit
    case Insert(at, c) => text[..at] + [c] + text[at..]
    case Delete(at) => text[..at] + [] + text[at + 1..]
    case Substitute(at, c) => text[..at] + [c] + text[at + 1..]
  }

  /** The script turns one text into the other. */
  predicate Turns(script: seq<Edit>, left: string, right: string)
    decreases |script|
  {
    if script == [] then left == right
    else Fits(script[0], left) && Turns(script[1..], Apply(script[0], left), right)
  }

  // ----- no script is shorter

  lemma {:induction false} Zero(text: string)
    ensures EditDistance(text, text) == 0
  {
    if text != "" {
      Zero(text[..|text| - 1]);
    }
  }

  /** One character on the right costs at most one. */
  lemma {:induction false} RightGrows(left: string, right: string)
    requires right != ""
    ensures EditDistance(left, right) <= EditDistance(left, right[..|right| - 1]) + 1
  {
  }

  lemma {:induction false} LeftGrows(left: string, right: string)
    requires left != ""
    ensures EditDistance(left, right) <= EditDistance(left[..|left| - 1], right) + 1
  {
  }

  /** Replacing up to one character by up to one, anywhere, changes the distance by at most one. */
  lemma {:induction false} OneEdit(x: string, u: string, v: string, y: string, right: string)
    requires |u| <= 1 && |v| <= 1
    ensures EditDistance(x + u + y, right) <= EditDistance(x + v + y, right) + 1
    decreases |y| + |right|
  {
    var a, b := x + u + y, x + v + y;

    if y == "" {
      assert a == x + u && b == x + v;
      OneEditAtEnd(x, u, v, right);
    } else if right != "" {
      var shorter, r := y[..|y| - 1], right[..|right| - 1];
      assert a[..|a| - 1] == x + u + shorter && b[..|b| - 1] == x + v + shorter;
      OneEdit(x, u, v, shorter, right);
      OneEdit(x, u, v, y, r);
      OneEdit(x, u, v, shorter, r);
    }
  }

  lemma {:induction false} OneEditAtEnd(x: string, u: string, v: string, right: string)
    requires |u| <= 1 && |v| <= 1
    ensures EditDistance(x + u, right) <= EditDistance(x + v, right) + 1
    decreases |right|
  {
    assert u == "" ==> x + u == x;
    assert v == "" ==> x + v == x;
    assert u != "" ==> (x + u)[..|x|] == x;
    assert v != "" ==> (x + v)[..|x|] == x;

    if u != "" {
      LeftGrows(x + u, right);
    }

    if right != "" && v != "" {
      var r := right[..|right| - 1];
      OneEditAtEnd(x, u, v, r);
      RightGrows(x + u, right);
      RightGrows(x, right);
    }
  }

  lemma {:induction false} EditCosts(edit: Edit, text: string, right: string)
    requires Fits(edit, text)
    ensures EditDistance(text, right) <= EditDistance(Apply(edit, text), right) + 1
  {
    match edit {
      case Insert(at, c) =>
        assert text == text[..at] + "" + text[at..];
        OneEdit(text[..at], "", [c], text[at..], right);
      case Delete(at) =>
        assert text == text[..at] + [text[at]] + text[at + 1..];
        OneEdit(text[..at], [text[at]], "", text[at + 1..], right);
      case Substitute(at, c) =>
        assert text == text[..at] + [text[at]] + text[at + 1..];
        OneEdit(text[..at], [text[at]], [c], text[at + 1..], right);
    }
  }

  lemma {:induction false} NoneShorter(script: seq<Edit>, left: string, right: string)
    requires Turns(script, left, right)
    ensures EditDistance(left, right) <= |script|
    decreases |script|
  {
    if script == [] {
      Zero(left);
    } else {
      EditCosts(script[0], left, right);
      NoneShorter(script[1..], Apply(script[0], left), right);
    }
  }

  // ----- a script that short exists

  /** A script leaves whatever follows its text alone. */
  lemma {:induction false} TurnsBefore(script: seq<Edit>, left: string, right: string, ending: string)
    requires Turns(script, left, right)
    ensures Turns(script, left + ending, right + ending)
    decreases |script|
  {
    hide Apply, Fits;

    if script != [] {
      ApplyBefore(script[0], left, ending);
      TurnsBefore(script[1..], Apply(script[0], left), right, ending);
    }
  }

  lemma {:induction false} ApplyBefore(edit: Edit, text: string, ending: string)
    requires Fits(edit, text)
    ensures Fits(edit, text + ending) && Apply(edit, text + ending) == Apply(edit, text) + ending
  {
    var at := edit.at;
    assert (text + ending)[..at] == text[..at];
    assert (text + ending)[at..] == text[at..] + ending;

    if !edit.Insert? {
      assert (text + ending)[at + 1..] == text[at + 1..] + ending;
    }
  }

  lemma {:induction false} TurnsThen(script: seq<Edit>, left: string, middle: string, last: Edit)
    requires Turns(script, left, middle) && Fits(last, middle)
    ensures Turns(script + [last], left, Apply(last, middle))
    decreases |script|
  {
    if script == [] {
      assert [last][1..] == [];
    } else {
      TurnsThen(script[1..], Apply(script[0], left), middle, last);
      assert (script + [last])[1..] == script[1..] + [last];
    }
  }

  lemma {:induction false} InsertLast(script: seq<Edit>, left: string, right: string)
    requires right != "" && Turns(script, left, right[..|right| - 1])
    ensures Turns(script + [Insert(|right| - 1, right[|right| - 1])], left, right)
  {
    var r, last := right[..|right| - 1], Insert(|right| - 1, right[|right| - 1]);
    TurnsThen(script, left, r, last);
    assert Apply(last, r) == right;
  }

  lemma {:induction false} DeleteLast(script: seq<Edit>, left: string, right: string)
    requires left != "" && Turns(script, left[..|left| - 1], right)
    ensures Turns([Delete(|left| - 1)] + script, left, right)
  {
    assert Apply(Delete(|left| - 1), left) == left[..|left| - 1];
    assert ([Delete(|left| - 1)] + script)[1..] == script;
  }

  lemma {:induction false} KeepLast(script: seq<Edit>, left: string, right: string)
    requires left != "" && right != "" && Turns(script, left[..|left| - 1], right[..|right| - 1])
    ensures Turns(script, left[..|left| - 1] + [right[|right| - 1]], right)
  {
    hide Turns;
    TurnsBefore(script, left[..|left| - 1], right[..|right| - 1], [right[|right| - 1]]);
    assert right[..|right| - 1] + [right[|right| - 1]] == right;
  }

  lemma {:induction false} SubstituteLast(script: seq<Edit>, left: string, right: string)
    requires left != "" && right != "" && Turns(script, left[..|left| - 1], right[..|right| - 1])
    ensures left[|left| - 1] == right[|right| - 1] ==> Turns(script, left, right)
    ensures Turns([Substitute(|left| - 1, right[|right| - 1])] + script, left, right)
  {
    var edit := Substitute(|left| - 1, right[|right| - 1]);
    KeepLast(script, left, right);
    assert left[..|left| - 1] + [left[|left| - 1]] == left;
    assert Apply(edit, left) == left[..|left| - 1] + [right[|right| - 1]];
    TurnsFirst(edit, script, left, right);
  }

  lemma {:induction false} TurnsFirst(edit: Edit, script: seq<Edit>, left: string, right: string)
    requires Fits(edit, left) && Turns(script, Apply(edit, left), right)
    ensures Turns([edit] + script, left, right)
  {
    assert ([edit] + script)[1..] == script;
  }

  lemma {:induction false} Shortest(left: string, right: string) returns (script: seq<Edit>)
    ensures Turns(script, left, right) && |script| == EditDistance(left, right)
    decreases |left| + |right|
  {
    hide Turns;

    if left == "" && right == "" {
      script := [];
      NoScript(left);
    } else if left == "" || (right != "" && EditDistance(left, right) == EditDistance(left, right[..|right| - 1]) + 1) {
      var rest := Shortest(left, right[..|right| - 1]);
      InsertLast(rest, left, right);
      script := rest + [Insert(|right| - 1, right[|right| - 1])];
    } else if right == "" || EditDistance(left, right) == EditDistance(left[..|left| - 1], right) + 1 {
      var rest := Shortest(left[..|left| - 1], right);
      DeleteLast(rest, left, right);
      script := [Delete(|left| - 1)] + rest;
    } else {
      var rest := Shortest(left[..|left| - 1], right[..|right| - 1]);
      SubstituteLast(rest, left, right);
      script := if left[|left| - 1] == right[|right| - 1] then rest
                else [Substitute(|left| - 1, right[|right| - 1])] + rest;
    }
  }

  lemma {:induction false} NoScript(text: string)
    ensures Turns([], text, text)
  {
  }

  /** The distance is the length of a shortest script of insertions, deletions and substitutions. */
  lemma {:induction false} DistanceIsShortest(left: string, right: string)
    ensures exists script :: Turns(script, left, right) && |script| == EditDistance(left, right)
    ensures forall script :: Turns(script, left, right) ==> EditDistance(left, right) <= |script|
  {
    var shortest := Shortest(left, right);
    forall script | Turns(script, left, right) ensures EditDistance(left, right) <= |script| {
      NoneShorter(script, left, right);
    }
  }
}
