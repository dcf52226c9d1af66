/** The rotating log of src/sources/process.rs. */
module Logs {
  import opened Bytes

  const MAX_LOG_BYTES := 1024 * 1024

  /** The two files: the one rotated away, and the one written to. */
  datatype Files = Files(previous: seq<Byte>, current: seq<Byte>)

  /** How the file system answers during one turn of the loop of `append`. Removing an absent
      file counts as a success. A failed write leaves `wrote` bytes behind. */
  datatype Disk = Disk(removes: bool, renames: bool, drops: bool, opens: bool, writes: bool, wrote: nat)

  function Kept(files: Files): seq<Byte> {
    files.previous + files.current
  }

  /** The files hold the last bytes that were written. */
  predicate Suffix(files: Files, all: seq<Byte>) {
    |Kept(files)| <= |all| && Kept(files) == all[|all| - |Kept(files)|..]
  }

  /** What `rotate` does to the files. */
  function Rotated(files: Files, d: Disk): Files {
    var previous := if d.removes then [] else files.previous;
    if d.renames then Files(files.current, [])
    else Files(previous, if d.drops then [] else files.current)
  }

  /** A rotation that can't leave a gap. */
  predicate Tidy(d: Disk) {
    d.renames || d.removes || !d.drops
  }

  lemma {:induction false} RotationTidy(files: Files, all: seq<Byte>, d: Disk)
    requires Suffix(files, all) && Tidy(d)
    ensures Suffix(Rotated(files, d), all)
  {
    var cut := |all| - |Kept(files)|;
    assert files.current == all[cut + |files.previous|..];
  }

  /** The one bad case: the current file is deleted because it could not be renamed, and the
      previous one is still there. Then, and only then, the files may hold a gap. */
  lemma {:induction false} RotationExact(d: Disk)
    ensures Tidy(d) <==> forall files, all :: Suffix(files, all) ==> Suffix(Rotated(files, d), all)
  {
    if Tidy(d) {
      forall files, all | Suffix(files, all) ensures Suffix(Rotated(files, d), all) {
        RotationTidy(files, all, d);
      }
    } else {
      var files := Files([1], [2]);
      assert Kept(files) == [1, 2] && Suffix(files, [1, 2]);
      assert Kept(Rotated(files, d)) == [1] && [1, 2][1..] == [2];
      assert !Suffix(Rotated(files, d), [1, 2]);
    }
  }

  lemma {:induction false} WriteKeeps(files: Files, all: seq<Byte>, bytes: seq<Byte>)
    requires Suffix(files, all)
    ensures Suffix(files.(current := files.current + bytes), all + bytes)
    ensures Kept(files.(current := files.current + bytes)) == Kept(files) + bytes
  {
    var after := files.(current := files.current + bytes);
    assert Kept(after) == Kept(files) + bytes;
    var cut := |all| - |Kept(files)|;
    assert (all + bytes)[cut..] == all[cut..] + bytes;
  }

  // ----- turns of the loop

  /** A log: its files, the count it keeps of the current one, and every byte ever written. */
  datatype State = State(files: Files, written: nat, all: seq<Byte>)

  /** How many bytes of `rest` there is room for. */
  function Room(written: nat, rest: seq<Byte>): nat {
    var room := if written < MAX_LOG_BYTES then MAX_LOG_BYTES - written else 0;
    if |rest| < room then |rest| else room
  }

  /** The rotation at the start of a turn, if there is one, and whether the turn goes on. */
  function Begun(s: State, d: Disk): (State, bool) {
    if s.written < MAX_LOG_BYTES then (s, true)
    else (s.(files := Rotated(s.files, d), written := if d.opens then 0 else s.written), d.opens)
  }

  /** How many bytes a write leaves in the file. */
  function Reaches(n: nat, d: Disk): (k: nat)
    ensures k <= n
  {
    if d.writes || n <= d.wrote then n else d.wrote
  }

  function Wrote(s: State, rest: seq<Byte>, d: Disk): State {
    var n := Room(s.written, rest);
    var bytes := rest[..Reaches(n, d)];
    State(s.files.(current := s.files.current + bytes), if d.writes then s.written + n else s.written, s.all + bytes)
  }

  /** One turn: rotate if the file is full, and write what there is room for. */
  function Turned(s: State, rest: seq<Byte>, d: Disk): State {
    var (begun, goesOn) := Begun(s, d);
    if goesOn then Wrote(begun, rest, d) else begun
  }

  predicate TurnWorks(s: State, d: Disk) {
    Begun(s, d).1 && d.writes
  }

  /** How many bytes a turn that works takes. */
  function Taken(s: State, rest: seq<Byte>): nat {
    Room(if s.written < MAX_LOG_BYTES then s.written else 0, rest)
  }

  // ----- the count

  /** The count is right; or the file is missing, and the next turn will rotate before it writes. */
  predicate Counted(s: State) {
    s.written == |s.files.current| || (s.files.current == [] && s.written >= MAX_LOG_BYTES)
  }

  /** The rotation, if it opens a file, renames, drops or finds an empty current one; and the
      write, if there is one, is whole or leaves nothing. */
  predicate Accounts(s: State, d: Disk) {
    || (s.written >= MAX_LOG_BYTES && !d.opens)
    || (&& (s.written >= MAX_LOG_BYTES ==> d.renames || d.drops || s.files.current == [])
        && (d.writes || d.wrote == 0))
  }

  /** Exactly then one turn keeps the count. */
  lemma {:induction false} CountExactly(s: State, rest: seq<Byte>, d: Disk)
    requires Counted(s) && rest != []
    ensures Counted(Turned(s, rest, d)) <==> Accounts(s, d)
  {
  }

  function Larger(a: nat, b: nat): nat {
    if a < b then b else a
  }

  /** With the count kept, the cap is kept: a file only grows within it. */
  lemma {:induction false} CapKept(s: State, rest: seq<Byte>, d: Disk)
    requires Counted(s) && rest != [] && Accounts(s, d)
    ensures |Turned(s, rest, d).files.current| <= Larger(MAX_LOG_BYTES, |s.files.current|)
    ensures |Turned(s, rest, d).files.previous| <= Larger(|s.files.previous|, |s.files.current|)
    ensures TurnWorks(s, d) ==> |Turned(s, rest, d).files.current| <= MAX_LOG_BYTES
  {
  }

  // ----- what is kept

  /** Nothing was dropped, or a whole capful was kept aside. */
  predicate Retains(s: State) {
    Suffix(s.files, s.all) && (Kept(s.files) == s.all || |s.files.previous| >= MAX_LOG_BYTES)
  }

  lemma {:induction false} TurnSuffix(s: State, rest: seq<Byte>, d: Disk)
    requires Suffix(s.files, s.all) && Tidy(d)
    ensures Suffix(Turned(s, rest, d).files, Turned(s, rest, d).all)
  {
    hide Suffix, Rotated, Kept;
    var (begun, goesOn) := Begun(s, d);
    RotationTidy(s.files, s.all, d);

    if goesOn {
      WriteKeeps(begun.files, begun.all, rest[..Reaches(Room(begun.written, rest), d)]);
    }
  }

  /** A rotation that renames and reopens keeps the last capful, even if writes fail. */
  lemma {:induction false} TurnRetains(s: State, rest: seq<Byte>, d: Disk)
    requires Retains(s) && |s.files.current| >= s.written && d.renames && d.opens
    ensures var after := Turned(s, rest, d); Retains(after) && |after.files.current| >= after.written
  {
    hide Suffix, Kept;
    TurnSuffix(s, rest, d);
    var begun := Begun(s, d).0;
    RotationTidy(s.files, s.all, d);
    WriteKeeps(begun.files, begun.all, rest[..Reaches(Room(begun.written, rest), d)]);
  }

  // ----- whole appends

  /** `disk` says how the file system answers at each turn. */
  function Appended(s: State, rest: seq<Byte>, disk: nat -> Disk, t: nat): (State, bool)
    decreases |rest|
  {
    if rest == [] then (s, true)
    else if !TurnWorks(s, disk(t)) then (Turned(s, rest, disk(t)), false)
    else Appended(Turned(s, rest, disk(t)), rest[Taken(s, rest)..], disk, t + 1)
  }

  ghost predicate AlwaysTidy(disk: nat -> Disk) {
    forall t: nat :: Tidy(disk(t))
  }

  ghost predicate AlwaysRenames(disk: nat -> Disk) {
    forall t: nat :: disk(t).renames && disk(t).opens
  }

  /** Every turn of this append accounts for what it does. */
  ghost predicate AlwaysAccounts(s: State, rest: seq<Byte>, disk: nat -> Disk, t: nat)
    decreases |rest|
  {
    rest == [] ||
    (&& Accounts(s, disk(t))
     && (TurnWorks(s, disk(t)) ==> AlwaysAccounts(Turned(s, rest, disk(t)), rest[Taken(s, rest)..], disk, t + 1)))
  }

  lemma {:induction false} TurnWrites(s: State, rest: seq<Byte>, d: Disk) returns (n: nat)
    ensures n <= |rest| && Turned(s, rest, d).all == s.all + rest[..n]
    ensures TurnWorks(s, d) ==> n == Taken(s, rest)
  {
    var (begun, goesOn) := Begun(s, d);
    n := if goesOn then Reaches(Room(begun.written, rest), d) else 0;
    assert s.all + rest[..0] == s.all;
  }

  /** A prefix of the bytes is written, and on success all of them. */
  lemma {:induction false} AppendedPrefix(s: State, rest: seq<Byte>, disk: nat -> Disk, t: nat)
    ensures var (after, ok) := Appended(s, rest, disk, t);
            exists n | 0 <= n <= |rest| :: after.all == s.all + rest[..n] && (ok ==> n == |rest|)
    decreases |rest|
  {
    hide Turned, TurnWorks;
    var (after, ok) := Appended(s, rest, disk, t);

    if rest == [] {
      assert after.all == s.all + rest[..0];
    } else {
      var n := TurnWrites(s, rest, disk(t));

      if TurnWorks(s, disk(t)) {
        AppendedPrefix(Turned(s, rest, disk(t)), rest[n..], disk, t + 1);
        var m :| 0 <= m <= |rest[n..]| && after.all == Turned(s, rest, disk(t)).all + rest[n..][..m]
                 && (ok ==> m == |rest[n..]|);
        assert rest[..n] + rest[n..][..m] == rest[..n + m];
        assert after.all == s.all + rest[..n + m];
      }
    }
  }

  lemma {:induction false} AppendedSuffix(s: State, rest: seq<Byte>, disk: nat -> Disk, t: nat)
    requires Suffix(s.files, s.all) && AlwaysTidy(disk)
    ensures var after := Appended(s, rest, disk, t).0; Suffix(after.files, after.all)
    decreases |rest|
  {
    hide Turned, TurnWorks, Suffix;

    if rest != [] {
      TurnSuffix(s, rest, disk(t));

      if TurnWorks(s, disk(t)) {
        AppendedSuffix(Turned(s, rest, disk(t)), rest[Taken(s, rest)..], disk, t + 1);
      }
    }
  }

  /** While every turn accounts, the count and the cap hold after every append. */
  lemma {:induction false} AppendedCapped(s: State, rest: seq<Byte>, disk: nat -> Disk, t: nat)
    requires Counted(s) && AlwaysAccounts(s, rest, disk, t)
    ensures var (after, ok) := Appended(s, rest, disk, t);
            && Counted(after) && |after.files.current| <= Larger(MAX_LOG_BYTES, |s.files.current|)
            && |after.files.previous| <= Larger(MAX_LOG_BYTES, Larger(|s.files.previous|, |s.files.current|))
            && (ok && rest != [] ==> |after.files.current| <= MAX_LOG_BYTES)
    decreases |rest|
  {
    hide Turned, TurnWorks, Accounts, Counted;

    if rest != [] {
      CountExactly(s, rest, disk(t));
      CapKept(s, rest, disk(t));

      if TurnWorks(s, disk(t)) {
        AppendedCapped(Turned(s, rest, disk(t)), rest[Taken(s, rest)..], disk, t + 1);
      }
    }
  }

  lemma {:induction false} AppendedRetains(s: State, rest: seq<Byte>, disk: nat -> Disk, t: nat)
    requires Retains(s) && |s.files.current| >= s.written && AlwaysRenames(disk)
    ensures var after := Appended(s, rest, disk, t).0; Retains(after) && |after.files.current| >= after.written
    decreases |rest|
  {
    hide Turned, TurnWorks, Retains;

    if rest != [] {
      TurnRetains(s, rest, disk(t));

      if TurnWorks(s, disk(t)) {
        AppendedRetains(Turned(s, rest, disk(t)), rest[Taken(s, rest)..], disk, t + 1);
      }
    }
  }

  lemma {:induction false} AppendedMeans(s: State, bytes: seq<Byte>, disk: nat -> Disk)
    ensures var (after, ok) := Appended(s, bytes, disk, 0);
            && (exists n | 0 <= n <= |bytes| :: after.all == s.all + bytes[..n] && (ok ==> n == |bytes|))
            && (Suffix(s.files, s.all) && AlwaysTidy(disk) ==> Suffix(after.files, after.all))
            && (Counted(s) && AlwaysAccounts(s, bytes, disk, 0) ==>
                  && Counted(after) && |after.files.current| <= Larger(MAX_LOG_BYTES, |s.files.current|)
                  && (ok && bytes != [] ==> |after.files.current| <= MAX_LOG_BYTES))
            && (Retains(s) && |s.files.current| >= s.written && AlwaysRenames(disk) ==> Retains(after))
  {
    hide Appended, Suffix, Retains, Counted, AlwaysAccounts;
    AppendedPrefix(s, bytes, disk, 0);

    if Suffix(s.files, s.all) && AlwaysTidy(disk) {
      AppendedSuffix(s, bytes, disk, 0);
    }

    if Counted(s) && AlwaysAccounts(s, bytes, disk, 0) {
      AppendedCapped(s, bytes, disk, 0);
    }

    if Retains(s) && |s.files.current| >= s.written && AlwaysRenames(disk) {
      AppendedRetains(s, bytes, disk, 0);
    }
  }

  // ----- file systems that break the cap

  /** A file system that behaves the same at every turn. */
  predicate Steady(d: Disk) {
    (d.renames || d.drops || !d.opens) && (d.writes || d.wrote == 0)
  }

  /** Every turn of every counted log keeps the count if and only if the file system is steady. */
  lemma {:induction false} SteadyExactly(d: Disk)
    ensures Steady(d) <==>
            forall s, rest: seq<Byte> :: Counted(s) && rest != [] ==> Counted(Turned(s, rest, d))
  {
    hide Turned;

    if Steady(d) {
      forall s, rest: seq<Byte> | Counted(s) && rest != [] ensures Counted(Turned(s, rest, d)) {
        CountExactly(s, rest, d);
      }
    } else {
      var byte: Byte := 0;
      var size := if d.writes || d.wrote == 0 then MAX_LOG_BYTES else 0;
      var full := State(Files([], seq(size, i => byte)), size, []);
      CountExactly(full, [byte], d);
    }
  }

  /** A directory that can't be written to: the file can't be moved or removed, but it opens. */
  predicate Locked(d: Disk) {
    !d.removes && !d.renames && !d.drops && d.opens && d.writes
  }

  /** Then the file grows by everything that is appended, without any bound. */
  lemma {:induction false} GrowsForever(s: State, rest: seq<Byte>, disk: nat -> Disk, t: nat)
    requires forall k: nat :: Locked(disk(k))
    ensures var (after, ok) := Appended(s, rest, disk, t);
            ok && after.files.current == s.files.current + rest
    decreases |rest|
  {
    if rest == [] {
      assert s.files.current + rest == s.files.current;
    } else {
      assert Locked(disk(t));
      var n := Taken(s, rest);
      var next := Turned(s, rest, disk(t));
      assert next.files.current == s.files.current + rest[..n];
      GrowsForever(next, rest[n..], disk, t + 1);
      assert s.files.current + rest[..n] + rest[n..] == s.files.current + rest;
    }
  }

  class Log {
    var files: Files
    var written: nat
    ghost var all: seq<Byte>

    ghost function View(): State
      reads this
    {
      State(files, written, all)
    }

    /** A log left by an earlier run is carried on, even if it is over the cap. When the size of its
        file can't be read it is taken for empty, and is counted only if it is. */
    constructor (files: Files, measured: bool)
      ensures View() == State(files, if measured then |files.current| else 0, Kept(files)) && Retains(View())
      ensures Counted(View()) <==> measured || files.current == []
    {
      this.files := files;
      written := if measured then |files.current| else 0;
      all := Kept(files);
    }

    method Rotate(d: Disk) returns (ok: bool)
      modifies this`files, this`written
      ensures files == Rotated(old(files), d) && ok == d.opens
      ensures written == if ok then 0 else old(written)
    {
      var previous := if d.removes then [] else files.previous;

      if d.renames {
        files := Files(files.current, []);
      } else {
        files := Files(previous, if d.drops then [] else files.current);
      }

      if !d.opens {
        return false;
      }

      written := 0;
      return true;
    }

    /** One turn: rotate if the file is full, and write what there is room for. */
    method Turn(rest: seq<Byte>, d: Disk) returns (n: nat, ok: bool)
      requires rest != []
      modifies this
      ensures View() == Turned(old(View()), rest, d) && ok == TurnWorks(old(View()), d)
      ensures ok ==> n == Taken(old(View()), rest) && 0 < n <= |rest|
    {
      n, ok := 0, true;

      if written >= MAX_LOG_BYTES {
        ok := Rotate(d);
      }

      if ok {
        var room := if written < MAX_LOG_BYTES then MAX_LOG_BYTES - written else 0;
        n := if |rest| < room then |rest| else room;
        var reached := if d.writes || n <= d.wrote then n else d.wrote;
        files := files.(current := files.current + rest[..reached]);
        all := all + rest[..reached];
        ok := d.writes;

        if ok {
          written := written + n;
        }
      }
    }

    /** The files hold the last bytes written as long as every rotation is tidy; the cap holds as
        long as every turn accounts for what it does; and as long as the file can be renamed and
        reopened, the last MAX_LOG_BYTES bytes are still there. */
    method Append(bytes: seq<Byte>, disk: nat -> Disk) returns (ok: bool)
      modifies this
      ensures (View(), ok) == Appended(old(View()), bytes, disk, 0)
      ensures exists n | 0 <= n <= |bytes| :: all == old(all) + bytes[..n] && (ok ==> n == |bytes|)
      ensures old(Suffix(files, all)) && AlwaysTidy(disk) ==> Suffix(files, all)
      ensures old(Counted(View())) && AlwaysAccounts(old(View()), bytes, disk, 0) ==>
                && Counted(View()) && |files.current| <= Larger(MAX_LOG_BYTES, |old(files).current|)
                && (ok && bytes != [] ==> |files.current| <= MAX_LOG_BYTES)
      ensures old(Retains(View()) && |files.current| >= written) && AlwaysRenames(disk) ==> Retains(View())
    {
      hide Suffix, Retains, Counted, AlwaysAccounts, Turned, TurnWorks;
      ghost var was := View();
      var rest := bytes;
      var turn: nat := 0;
      ok := true;

      while rest != []
        invariant ok && Appended(was, bytes, disk, 0) == Appended(View(), rest, disk, turn)
        decreases |rest|
      {
        var n;
        n, ok := Turn(rest, disk(turn));

        if !ok {
          break;
        }

        rest := rest[n..];
        turn := turn + 1;
      }

      AppendedMeans(was, bytes, disk);
    }
  }

  /** What retaining means for a reader of the log. */
  lemma {:induction false} LastBytesKept(s: State)
    requires Retains(s)
    ensures var n := if |s.all| < MAX_LOG_BYTES then |s.all| else MAX_LOG_BYTES;
            |Kept(s.files)| >= n && Kept(s.files)[|Kept(s.files)| - n..] == s.all[|s.all| - n..]
  {
    var n := if |s.all| < MAX_LOG_BYTES then |s.all| else MAX_LOG_BYTES;
    var kept := Kept(s.files);
    var cut := |s.all| - |kept|;
    assert s.all[cut..][|kept| - n..] == s.all[|s.all| - n..];
  }
}
