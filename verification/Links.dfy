/** Link plans and their signatures, from src/links.rs. A name is the sequence of the bytes of
    its text, as Rust's `len` and `sort` see it. */
module Links {

  datatype LinkPlan =
    | Direct(name: string, app: string)
    | Commands(name: string, apps: seq<string>, membership: seq<string>)

  function Members(plan: LinkPlan): set<string> {
    match plan
    case Direct(_, app) => {app}
    case Commands(_, _, membership) => set m | m in membership
  }

  // ----- the order `sort` uses

  predicate LexLe(a: string, b: string) {
    a == [] || (b != [] && (a[0] < b[0] || (a[0] == b[0] && LexLe(a[1..], b[1..]))))
  }

  lemma {:induction false} LexTotal(a: string, b: string)
    ensures LexLe(a, b) || LexLe(b, a)
    ensures LexLe(a, b) && LexLe(b, a) ==> a == b
  {
    if a != [] && b != [] && a[0] == b[0] {
      LexTotal(a[1..], b[1..]);
      assert a == [a[0]] + a[1..] && b == [b[0]] + b[1..];
    }
  }

  lemma {:induction false} LexTransitive(a: string, b: string, c: string)
    requires LexLe(a, b) && LexLe(b, c)
    ensures LexLe(a, c)
  {
    if a != [] && a[0] == b[0] && b[0] == c[0] {
      LexTransitive(a[1..], b[1..], c[1..]);
    }
  }

  /** The first member is least, and the rest is sorted. */
  ghost predicate Sorted(s: seq<string>) {
    s == [] || ((forall x :: x in multiset(s[1..]) ==> LexLe(s[0], x)) && Sorted(s[1..]))
  }

  function Insert(x: string, s: seq<string>): seq<string> {
    if s == [] || LexLe(x, s[0]) then [x] + s else [s[0]] + Insert(x, s[1..])
  }

  function Sort(s: seq<string>): seq<string> {
    if s == [] then [] else Insert(s[0], Sort(s[1..]))
  }

  lemma TailMultiset(s: seq<string>)
    requires s != []
    ensures multiset(s) == multiset(s[1..]) + multiset{s[0]}
  {
    assert s == [s[0]] + s[1..];
  }

  lemma {:induction false} InsertSorts(x: string, s: seq<string>)
    requires Sorted(s)
    ensures Sorted(Insert(x, s)) && multiset(Insert(x, s)) == multiset(s) + multiset{x}
  {
    if s == [] {
    } else {
      assert s == [s[0]] + s[1..];
      LexTotal(x, s[0]);

      if LexLe(x, s[0]) {
        forall y | y in multiset(s) ensures LexLe(x, y) {
          if y != s[0] {
            LexTransitive(x, s[0], y);
          }
        }
        assert ([x] + s)[1..] == s;
      } else {
        InsertSorts(x, s[1..]);
        assert ([s[0]] + Insert(x, s[1..]))[1..] == Insert(x, s[1..]);
      }
    }
  }

  lemma {:induction false} SortSorts(s: seq<string>)
    ensures Sorted(Sort(s)) && multiset(Sort(s)) == multiset(s)
  {
    if s != [] {
      SortSorts(s[1..]);
      InsertSorts(s[0], Sort(s[1..]));
      TailMultiset(s);
    }
  }

  lemma SortedLeast(s: seq<string>, x: string)
    requires Sorted(s) && s != [] && x in multiset(s)
    ensures LexLe(s[0], x)
  {
    TailMultiset(s);
    LexTotal(x, x);
  }

  /** A multiset has one sorted listing. */
  lemma {:induction false} SortedUnique(a: seq<string>, b: seq<string>)
    requires Sorted(a) && Sorted(b) && multiset(a) == multiset(b)
    ensures a == b
  {
    if a == [] {
      assert |multiset(b)| == 0;
    } else {
      assert |multiset(a)| == |multiset(b)|;
      TailMultiset(a);
      TailMultiset(b);
      SortedLeast(a, b[0]);
      SortedLeast(b, a[0]);
      LexTotal(a[0], b[0]);
      assert multiset(a[1..]) == multiset(a) - multiset{a[0]};
      assert multiset(b[1..]) == multiset(b) - multiset{b[0]};
      SortedUnique(a[1..], b[1..]);
      assert a == [a[0]] + a[1..] && b == [b[0]] + b[1..];
    }
  }

  // ----- the length-prefixed encoding

  function Digit(d: nat): char
    requires d < 10
  {
    "0123456789"[d]
  }

  function Decimal(n: nat): (text: string)
    ensures forall c | c in text :: '0' <= c <= '9'
  {
    if n < 10 then [Digit(n)] else Decimal(n / 10) + [Digit(n % 10)]
  }

  /** The number that decimal digits write. */
  function Written(text: string): nat
    requires forall c | c in text :: '0' <= c <= '9'
  {
    if text == "" then 0
    else
      var rest, last := text[..|text| - 1], text[|text| - 1];
      assert last in text && forall c :: c in rest ==> c in text;
      Written(rest) * 10 + (last as int - '0' as int)
  }

  lemma {:induction false} DecimalWrites(n: nat)
    ensures Written(Decimal(n)) == n && (n > 0 ==> Decimal(n)[0] != '0')
  {
    var text := Decimal(n);
    assert text[|text| - 1] == Digit(n % 10);
    DigitWrites(n % 10);

    if n >= 10 {
      DecimalWrites(n / 10);
      assert text[..|text| - 1] == Decimal(n / 10);
    } else {
      assert text[..|text| - 1] == "";
    }
  }

  lemma {:induction false} DigitWrites(d: nat)
    requires d < 10
    ensures Digit(d) as int - '0' as int == d
  {
  }

  lemma {:induction false} DecimalInjective(m: nat, n: nat)
    requires Decimal(m) == Decimal(n)
    ensures m == n
  {
    DecimalWrites(m);
    DecimalWrites(n);
  }

  function Prefixed(text: string): string {
    Decimal(|text|) + ":" + text
  }

  function Encode(members: seq<string>): string {
    if members == [] then "" else Prefixed(members[0]) + Encode(members[1..])
  }

  /** The first colon ends the length, whatever the texts after it hold. */
  lemma HeaderUnique(m: nat, x: string, n: nat, y: string)
    requires Decimal(m) + ":" + x == Decimal(n) + ":" + y
    ensures m == n && x == y
  {
    var a, b := Decimal(m), Decimal(n);
    var whole := a + ":" + x;
    assert whole[|a|] == ':' && whole[|b|] == ':';
    assert ':' !in a && ':' !in b;
    assert |a| == |b|;
    assert a == whole[..|a|] && b == whole[..|b|];
    assert x == whole[|a| + 1..] && y == whole[|b| + 1..];
    DecimalInjective(m, n);
  }

  lemma {:induction false} EncodeInjective(a: seq<string>, b: seq<string>)
    requires Encode(a) == Encode(b)
    ensures a == b
  {
    if a != [] && b != [] {
      var x, y := a[0] + Encode(a[1..]), b[0] + Encode(b[1..]);
      assert Encode(a) == Decimal(|a[0]|) + ":" + x;
      assert Encode(b) == Decimal(|b[0]|) + ":" + y;
      HeaderUnique(|a[0]|, x, |b[0]|, y);
      assert a[0] == x[..|a[0]|] && b[0] == y[..|b[0]|];
      assert Encode(a[1..]) == x[|a[0]|..] && Encode(b[1..]) == y[|b[0]|..];
      EncodeInjective(a[1..], b[1..]);
    }
  }

  function Signature(plan: LinkPlan): string {
    match plan
    case Direct(_, app) => "direct:" + Prefixed(app)
    case Commands(_, _, membership) => "commands:" + Encode(Sort(membership))
  }

  /** The same kind of plan over the same app, or over the same members with the same multiplicities. */
  predicate SameMembership(p: LinkPlan, q: LinkPlan) {
    match (p, q)
    case (Direct(_, a), Direct(_, b)) => a == b
    case (Commands(_, _, a), Commands(_, _, b)) => multiset(a) == multiset(b)
    case _ => false
  }

  /** A signature says exactly who is on the link: names may hold digits, colons or commas. */
  lemma SignatureExact(p: LinkPlan, q: LinkPlan)
    ensures Signature(p) == Signature(q) <==> SameMembership(p, q)
  {
    match (p, q) {
      case (Direct(_, a), Direct(_, b)) =>
        if Signature(p) == Signature(q) {
          assert Prefixed(a) == Signature(p)[7..] && Prefixed(b) == Signature(q)[7..];
          HeaderUnique(|a|, a, |b|, b);
        }
      case (Commands(_, _, a), Commands(_, _, b)) =>
        SortSorts(a);
        SortSorts(b);

        if Signature(p) == Signature(q) {
          assert Encode(Sort(a)) == Signature(p)[9..] && Encode(Sort(b)) == Signature(q)[9..];
          EncodeInjective(Sort(a), Sort(b));
        } else if multiset(a) == multiset(b) {
          SortedUnique(Sort(a), Sort(b));
        }
      case _ =>
        assert Signature(p)[0] != Signature(q)[0];
    }
  }

  lemma SameSignatureSameMembers(p: LinkPlan, q: LinkPlan)
    requires Signature(p) == Signature(q)
    ensures Members(p) == Members(q)
  {
    SignatureExact(p, q);

    if p.Commands? {
      assert forall m :: m in p.membership <==> m in multiset(p.membership);
      assert forall m :: m in q.membership <==> m in multiset(q.membership);
    }
  }
}
