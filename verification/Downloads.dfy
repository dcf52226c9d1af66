/** The download slots of src/client_metadata.rs. */
module Downloads {
  import opened Windows

  const MAX_DOWNLOADS_PER_MINUTE := 20
  const WIDTH := 60_000

  /** `recent` is what the daemon holds; `granted` is every slot ever granted. */
  datatype Ledger = Ledger(granted: seq<int>, recent: seq<int>)

  predicate HasRoom(recent: seq<int>, now: int) {
    |Since(recent, now - WIDTH)| < MAX_DOWNLOADS_PER_MINUTE
  }

  function Taken(recent: seq<int>, now: int): seq<int> {
    Since(recent, now - WIDTH) + if HasRoom(recent, now) then [now] else []
  }

  class ClientMetadata {
    var downloads: seq<int>

    constructor ()
      ensures downloads == []
    {
      downloads := [];
    }

    method TakeDownloadSlot(now: int) returns (ok: bool)
      modifies this
      ensures ok == HasRoom(old(downloads), now) && downloads == Taken(old(downloads), now)
    {
      var recent: seq<int> := [];
      assert downloads[..|downloads|] == downloads;

      for i := 0 to |downloads|
        invariant recent == Since(downloads[..i], now - WIDTH)
        invariant downloads == old(downloads)
      {
        assert downloads[..i + 1][..i] == downloads[..i];

        if downloads[i] >= now - WIDTH {
          recent := recent + [downloads[i]];
        }
      }

      downloads := recent;

      if |downloads| >= MAX_DOWNLOADS_PER_MINUTE {
        return false;
      }

      downloads := downloads + [now];
      return true;
    }
  }

  function Step(before: Ledger, now: int): Ledger {
    Ledger(before.granted + if HasRoom(before.recent, now) then [now] else [], Taken(before.recent, now))
  }

  /** The clock readings, in the order their calls get the lock. */
  function Run(readings: seq<int>): Ledger {
    if readings == [] then Ledger([], []) else Step(Run(readings[..|readings| - 1]), readings[|readings| - 1])
  }

  predicate InOrder(readings: seq<int>) {
    forall i, j :: 0 <= i < j < |readings| ==> readings[i] <= readings[j]
  }

  ghost predicate Sound(ledger: Ledger, latest: int) {
    && Bounded(ledger.granted, WIDTH, MAX_DOWNLOADS_PER_MINUTE)
    && NoLater(ledger.granted, latest)
    && ledger.recent == Since(ledger.granted, latest - WIDTH)
  }

  /** A slot is granted exactly when fewer than the limit were granted in the minute up to now,
      counted over all of history. */
  lemma {:induction false} Decides(before: Ledger, latest: int, now: int)
    requires Sound(before, latest) && latest <= now
    ensures Since(before.recent, now - WIDTH) == Since(before.granted, now - WIDTH)
    ensures HasRoom(before.recent, now) <==>
            InWindow(before.granted, now - WIDTH, WIDTH) < MAX_DOWNLOADS_PER_MINUTE
  {
    SinceTwice(before.granted, latest - WIDTH, now - WIDTH);
    SinceCounts(before.granted, now - WIDTH, WIDTH);
  }

  lemma {:induction false} StepSound(before: Ledger, latest: int, now: int)
    requires Sound(before, latest) && latest <= now
    ensures Sound(Step(before, now), now)
  {
    Decides(before, latest, now);

    if HasRoom(before.recent, now) {
      PushBounded(before.granted, now, WIDTH, MAX_DOWNLOADS_PER_MINUTE);
      SincePush(before.granted, now, now - WIDTH);
    } else {
      assert before.granted + [] == before.granted;
      assert Since(before.granted, now - WIDTH) + [] == Since(before.granted, now - WIDTH);
    }
  }

  /** With readings that never go back, no minute holds more slots than the limit. */
  lemma {:induction false} RunSound(readings: seq<int>, latest: int)
    requires InOrder(readings) && (readings != [] ==> readings[|readings| - 1] <= latest)
    ensures Bounded(Run(readings).granted, WIDTH, MAX_DOWNLOADS_PER_MINUTE)
    ensures Sound(Run(readings), if readings == [] then latest else readings[|readings| - 1])
  {
    hide Step, Sound;

    if readings == [] {
      NothingGranted(latest);
    } else {
      var rest, now := readings[..|readings| - 1], readings[|readings| - 1];
      RunSound(rest, now);
      StepSound(Run(rest), if rest == [] then now else rest[|rest| - 1], now);
    }

    SoundBounded(Run(readings), if readings == [] then latest else readings[|readings| - 1]);
  }

  lemma {:induction false} NothingGranted(latest: int)
    ensures Sound(Ledger([], []), latest)
  {
  }

  lemma {:induction false} SoundBounded(ledger: Ledger, latest: int)
    requires Sound(ledger, latest)
    ensures Bounded(ledger.granted, WIDTH, MAX_DOWNLOADS_PER_MINUTE)
  {
  }

  // ----- readings that arrive late

  function Repeat(at: int, n: nat): seq<int> {
    if n == 0 then [] else Repeat(at, n - 1) + [at]
  }

  lemma {:induction false} RepeatCounts(at: int, n: nat)
    ensures |Repeat(at, n)| == n && forall k :: 0 <= k < n ==> Repeat(at, n)[k] == at
    ensures InWindow(Repeat(at, n), at, WIDTH) == n
  {
    if n > 0 {
      RepeatCounts(at, n - 1);
      Push(Repeat(at, n - 1), at, at, WIDTH);
    }
  }

  lemma {:induction false} RepeatSince(at: int, n: nat, from: int)
    ensures Since(Repeat(at, n), from) == if at >= from then Repeat(at, n) else []
  {
    if n > 0 {
      RepeatSince(at, n - 1, from);
      SincePush(Repeat(at, n - 1), at, from);
    }
  }

  lemma {:induction false} RepeatGranted(at: int, n: nat)
    requires n <= MAX_DOWNLOADS_PER_MINUTE
    ensures Run(Repeat(at, n)) == Ledger(Repeat(at, n), Repeat(at, n))
  {
    if n > 0 {
      var fewer := Repeat(at, n - 1);
      RepeatGranted(at, n - 1);
      RepeatCounts(at, n - 1);
      RepeatSince(at, n - 1, at - WIDTH);
      RunPush(fewer, at);
    }
  }

  lemma {:induction false} RunPush(readings: seq<int>, now: int)
    ensures Run(readings + [now]) == Step(Run(readings), now)
  {
    assert (readings + [now])[..|readings|] == readings;
  }

  /** The clock is read before the lock is taken, so a call may arrive with a reading older than
      one already used. The limit is safe after that call, whatever came before, exactly when
      this doesn't happen. */
  lemma {:induction false} SafeExactly(latest: int, now: int)
    ensures now >= latest <==>
            forall readings :: InOrder(readings + [latest]) ==>
              Bounded(Run(readings + [latest] + [now]).granted, WIDTH, MAX_DOWNLOADS_PER_MINUTE)
  {
    if now >= latest {
      forall readings | InOrder(readings + [latest])
        ensures Bounded(Run(readings + [latest] + [now]).granted, WIDTH, MAX_DOWNLOADS_PER_MINUTE)
      {
        var all := readings + [latest];
        assert forall i :: 0 <= i <= |readings| ==> all[i] <= all[|readings|];
        RunSound(all + [now], now);
      }
    } else {
      OverfilledLate(latest, now);
    }
  }

  /** Twenty slots at the start of the late call's minute, pruned by a call with a newer reading. */
  lemma {:induction false} OverfilledLate(latest: int, now: int)
    requires now < latest
    ensures var readings := Repeat(now - WIDTH, MAX_DOWNLOADS_PER_MINUTE);
            && InOrder(readings + [latest])
            && !Bounded(Run(readings + [latest] + [now]).granted, WIDTH, MAX_DOWNLOADS_PER_MINUTE)
  {
    hide Repeat, Run, InWindow;
    var start := now - WIDTH;
    var many := Repeat(start, MAX_DOWNLOADS_PER_MINUTE);
    RepeatGranted(start, MAX_DOWNLOADS_PER_MINUTE);
    RepeatCounts(start, MAX_DOWNLOADS_PER_MINUTE);
    RepeatSince(start, MAX_DOWNLOADS_PER_MINUTE, latest - WIDTH);
    RunPush(many, latest);
    RunPush(many + [latest], now);
    SincePush([], latest, start);
    assert Since([], start) + [latest] == [latest];
    assert Run(many + [latest]) == Ledger(many + [latest], [] + [latest]);
    assert [] + [latest] == [latest];
    Push(many, latest, start, WIDTH);
    Push(many + [latest], now, start, WIDTH);
    assert InWindow(many + [latest] + [now], start, WIDTH) > MAX_DOWNLOADS_PER_MINUTE;
  }
}
