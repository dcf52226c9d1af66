/** The audit throttle of src/gateway.rs: it forgets keys when it holds too many. The clock is
    read before the lock is taken, so a call may arrive with a reading older than one already
    used; then, and only then, forgetting can change what it decides. */
module Throttles {

  const MANY := 10_000

  /** A call, in the order of the lock, or what it recorded. */
  datatype Call = Call(key: string, at: int)

  // ----- what is held, and what was ever recorded

  function LastHeld(last: map<string, int>, key: string): int {
    if key in last then last[key] else 0
  }

  predicate Admits(interval: int, last: map<string, int>, call: Call) {
    call.at - LastHeld(last, call.key) >= interval
  }

  function Fresh(interval: int, last: map<string, int>, now: int): map<string, int> {
    map key | key in last && now - last[key] < interval :: last[key]
  }

  function Noted(interval: int, last: map<string, int>, call: Call): map<string, int> {
    if Admits(interval, last, call)
    then (if |last| > MANY then Fresh(interval, last, call.at) else last)[call.key := call.at]
    else last
  }

  class Throttle {
    const interval: int
    var last: map<string, int>

    constructor (interval: int)
      ensures this.interval == interval && last == map[]
    {
      this.interval := interval;
      last := map[];
    }

    method ShouldRecord(key: string, now: int) returns (ok: bool)
      modifies this
      ensures ok == Admits(interval, old(last), Call(key, now))
      ensures last == Noted(interval, old(last), Call(key, now))
    {
      if now - LastHeld(last, key) < interval {
        return false;
      }

      if |last| > MANY {
        last := Fresh(interval, last, now);
      }

      last := last[key := now];
      return true;
    }
  }

  /** When a key was last recorded; zero if never. */
  function LastOf(recorded: seq<Call>, key: string): int {
    if recorded == [] then 0
    else
      var last := recorded[|recorded| - 1];
      if last.key == key then last.at else LastOf(recorded[..|recorded| - 1], key)
  }

  predicate Seen(recorded: seq<Call>, key: string) {
    exists k | 0 <= k < |recorded| :: recorded[k].key == key
  }

  /** What a throttle that never forgets would decide. */
  predicate AdmitsByAll(interval: int, recorded: seq<Call>, call: Call) {
    call.at - LastOf(recorded, call.key) >= interval
  }

  /** One key is recorded at gaps of at least the interval. */
  predicate Spaced(recorded: seq<Call>, interval: int) {
    forall i, j | 0 <= i < j < |recorded| :: recorded[i].key == recorded[j].key ==>
      recorded[j].at - recorded[i].at >= interval
  }

  datatype Memory = Memory(last: map<string, int>, recorded: seq<Call>)

  function Step(interval: int, m: Memory, call: Call): Memory {
    Memory(Noted(interval, m.last, call), m.recorded + if Admits(interval, m.last, call) then [call] else [])
  }

  function Run(interval: int, calls: seq<Call>): Memory {
    if calls == [] then Memory(map[], []) else Step(interval, Run(interval, calls[..|calls| - 1]), calls[|calls| - 1])
  }

  predicate InOrder(calls: seq<Call>) {
    forall i, j :: 0 <= i < j < |calls| ==> calls[i].at <= calls[j].at
  }

  lemma {:induction false} LastPush(recorded: seq<Call>, call: Call, other: string)
    ensures LastOf(recorded + [call], other) == if other == call.key then call.at else LastOf(recorded, other)
  {
    assert (recorded + [call])[..|recorded|] == recorded;
  }

  lemma {:induction false} SeenPush(recorded: seq<Call>, call: Call, other: string)
    ensures Seen(recorded + [call], other) <==> other == call.key || Seen(recorded, other)
  {
    var more := recorded + [call];
    assert more[|recorded|].key == call.key;

    if Seen(recorded, other) {
      var k :| 0 <= k < |recorded| && recorded[k].key == other;
      assert more[k].key == other;
    }
  }

  /** The last record of a key is the latest of it. */
  lemma {:induction false} LastLatest(recorded: seq<Call>, key: string, interval: int)
    requires Spaced(recorded, interval) && interval >= 0
    ensures forall k :: 0 <= k < |recorded| && recorded[k].key == key ==> recorded[k].at <= LastOf(recorded, key)
    ensures Seen(recorded, key) ==> exists k :: 0 <= k < |recorded| && recorded[k] == Call(key, LastOf(recorded, key))
    ensures !Seen(recorded, key) ==> LastOf(recorded, key) == 0
  {
    if recorded != [] {
      var rest := recorded[..|recorded| - 1];
      LastLatest(rest, key, interval);
      assert Seen(rest, key) ==> Seen(recorded, key);

      if recorded[|recorded| - 1].key != key && Seen(recorded, key) {
        assert Seen(rest, key);
        var k :| 0 <= k < |rest| && rest[k] == Call(key, LastOf(rest, key));
        assert recorded[k] == Call(key, LastOf(recorded, key));
      }
    }
  }

  // ----- calls in order

  ghost predicate Paced(recorded: seq<Call>, interval: int, latest: int) {
    && interval >= 0 && Spaced(recorded, interval)
    && forall k :: 0 <= k < |recorded| ==> interval <= recorded[k].at <= latest
  }

  /** What is held is right, and what was forgotten is an interval old. */
  ghost predicate Held(last: map<string, int>, recorded: seq<Call>, interval: int, latest: int) {
    && (forall key :: key in last ==> Seen(recorded, key) && last[key] == LastOf(recorded, key))
    && forall key :: Seen(recorded, key) && key !in last ==> latest - LastOf(recorded, key) >= interval
  }

  ghost predicate Sound(m: Memory, interval: int, latest: int) {
    Paced(m.recorded, interval, latest) && Held(m.last, m.recorded, interval, latest)
  }

  /** The calls on which forgetting can't matter: the reading is not older than the latest used,
      or is so early that nothing is admitted at it, or nothing can have been forgotten yet. */
  predicate Harmless(interval: int, latest: int, now: int) {
    now >= latest || now < interval || latest < 2 * interval
  }

  /** Deciding from what is held is deciding from everything. */
  lemma {:induction false} SameDecision(m: Memory, interval: int, latest: int, call: Call)
    requires Sound(m, interval, latest) && Harmless(interval, latest, call.at)
    ensures Admits(interval, m.last, call) <==> AdmitsByAll(interval, m.recorded, call)
  {
    LastLatest(m.recorded, call.key, interval);
  }

  lemma {:induction false} FreshHeld(last: map<string, int>, recorded: seq<Call>, interval: int, latest: int, now: int)
    requires Held(last, recorded, interval, latest) && latest <= now
    ensures Held(last, recorded, interval, now) && Held(Fresh(interval, last, now), recorded, interval, now)
  {
  }

  lemma {:induction false} RecordHeld(last: map<string, int>, recorded: seq<Call>, interval: int, call: Call)
    requires Held(last, recorded, interval, call.at)
    ensures Held(last[call.key := call.at], recorded + [call], interval, call.at)
  {
    hide Seen, LastOf;
    var more := recorded + [call];
    forall other
      ensures LastOf(more, other) == if other == call.key then call.at else LastOf(recorded, other)
      ensures Seen(more, other) <==> other == call.key || Seen(recorded, other)
    {
      LastPush(recorded, call, other);
      SeenPush(recorded, call, other);
    }
  }

  /** A call admitted by everything keeps the gaps, whenever it arrives. */
  lemma {:induction false} RecordSpaced(recorded: seq<Call>, interval: int, latest: int, call: Call)
    requires Paced(recorded, interval, latest) && AdmitsByAll(interval, recorded, call)
    ensures Spaced(recorded + [call], interval) && call.at >= interval
  {
    LastLatest(recorded, call.key, interval);
    var more := recorded + [call];
    forall i, j | 0 <= i < j < |more| && more[i].key == more[j].key ensures more[j].at - more[i].at >= interval {
      assert more[i] == recorded[i];
      assert j < |recorded| ==> more[j] == recorded[j];
    }
    NotNegative(recorded, interval, latest, call.key);
  }

  lemma {:induction false} NotNegative(recorded: seq<Call>, interval: int, latest: int, key: string)
    requires Paced(recorded, interval, latest)
    ensures LastOf(recorded, key) >= 0
  {
    LastLatest(recorded, key, interval);
  }

  lemma {:induction false} StepSound(m: Memory, interval: int, latest: int, call: Call)
    requires Sound(m, interval, latest) && latest <= call.at
    ensures Sound(Step(interval, m, call), interval, call.at)
  {
    hide Held, LastOf, Spaced;
    SameDecision(m, interval, latest, call);
    FreshHeld(m.last, m.recorded, interval, latest, call.at);

    if Admits(interval, m.last, call) {
      RecordSpaced(m.recorded, interval, latest, call);
      RecordHeld(if |m.last| > MANY then Fresh(interval, m.last, call.at) else m.last, m.recorded, interval, call);
    } else {
      assert m.recorded + [] == m.recorded;
    }
  }

  /** With readings that never go back, one key is recorded at gaps of at least the interval. */
  lemma {:induction false} RunSound(interval: int, calls: seq<Call>, latest: int)
    requires interval >= 0 && InOrder(calls) && (calls != [] ==> calls[|calls| - 1].at <= latest)
    ensures Sound(Run(interval, calls), interval, if calls == [] then latest else calls[|calls| - 1].at)
  {
    hide Step, Sound;

    if calls == [] {
      NothingRecorded(interval, latest);
    } else {
      var rest, call := calls[..|calls| - 1], calls[|calls| - 1];
      RunSound(interval, rest, call.at);
      StepSound(Run(interval, rest), interval, if rest == [] then call.at else rest[|rest| - 1].at, call);
    }
  }

  lemma {:induction false} NothingRecorded(interval: int, latest: int)
    requires interval >= 0
    ensures Sound(Memory(map[], []), interval, latest)
  {
  }

  // ----- a call that arrives late

  /** After these calls and this one, the decision was that of everything and the gaps are kept. */
  ghost predicate Right(interval: int, calls: seq<Call>, call: Call) {
    var m := Run(interval, calls);
    && (Admits(interval, m.last, call) <==> AdmitsByAll(interval, m.recorded, call))
    && Spaced(Step(interval, m, call).recorded, interval)
  }

  lemma {:induction false} RightIfHarmless(interval: int, calls: seq<Call>, last: Call, call: Call)
    requires interval >= 0 && InOrder(calls + [last]) && Harmless(interval, last.at, call.at)
    ensures Right(interval, calls + [last], call)
  {
    var m := Run(interval, calls + [last]);
    RunSound(interval, calls + [last], last.at);
    SameDecision(m, interval, last.at, call);

    if Admits(interval, m.last, call) {
      RecordSpaced(m.recorded, interval, last.at, call);
    } else {
      assert m.recorded + [] == m.recorded;
    }
  }

  /** A key of its own for every number. */
  function Name(n: nat): string
    ensures |Name(n)| == n
  {
    if n == 0 then "" else Name(n - 1) + "x"
  }

  function Crowd(n: nat, at: int): seq<Call>
    ensures |Crowd(n, at)| == n
  {
    if n == 0 then [] else Crowd(n - 1, at) + [Call(Name(n - 1), at)]
  }

  lemma {:induction false} CrowdAt(n: nat, at: int, k: nat)
    requires k < n
    ensures Crowd(n, at)[k] == Call(Name(k), at)
  {
    if k < n - 1 {
      CrowdAt(n - 1, at, k);
    }
  }

  lemma {:induction false} RunPush(interval: int, calls: seq<Call>, call: Call)
    ensures Run(interval, calls + [call]) == Step(interval, Run(interval, calls), call)
  {
    assert (calls + [call])[..|calls|] == calls;
  }

  lemma {:induction false} NewKey(interval: int, m: Memory, call: Call)
    requires call.key !in m.last && |m.last| <= MANY && interval <= call.at
    ensures Step(interval, m, call) == Memory(m.last[call.key := call.at], m.recorded + [call])
    ensures |m.last[call.key := call.at]| == |m.last| + 1
  {
    assert m.last[call.key := call.at].Keys == m.last.Keys + {call.key};
    assert |m.last[call.key := call.at].Keys| == |m.last.Keys| + 1;
  }

  lemma {:induction false} CrowdHeld(interval: int, n: nat, at: int)
    requires n <= MANY + 1 && interval <= at
    ensures var m := Run(interval, Crowd(n, at));
            && m.recorded == Crowd(n, at) && |m.last| == n
            && (forall key :: key in m.last ==> |key| < n && m.last[key] == at)
  {
    hide Step, Name;

    if n > 0 {
      CrowdHeld(interval, n - 1, at);
      var call := Call(Name(n - 1), at);
      RunPush(interval, Crowd(n - 1, at), call);
      NewKey(interval, Run(interval, Crowd(n - 1, at)), call);
    }
  }

  /** Enough keys to make the throttle forget, recorded an interval before `latest`; then a new
      key at `latest`. */
  function Forgotten(interval: int, latest: int): seq<Call> {
    Crowd(MANY + 1, latest - interval)
  }

  lemma {:induction false} ForgottenHeld(interval: int, latest: int)
    requires 0 <= interval && 2 * interval <= latest
    ensures var m := Run(interval, Forgotten(interval, latest) + [Call(Name(MANY + 1), latest)]);
            && m.last == map[Name(MANY + 1) := latest]
            && m.recorded == Forgotten(interval, latest) + [Call(Name(MANY + 1), latest)]
    ensures InOrder(Forgotten(interval, latest) + [Call(Name(MANY + 1), latest)])
  {
    hide Crowd, Run, Name;
    var at, call := latest - interval, Call(Name(MANY + 1), latest);
    CrowdHeld(interval, MANY + 1, at);
    var before := Run(interval, Crowd(MANY + 1, at));
    RunPush(interval, Crowd(MANY + 1, at), call);
    assert call.key !in before.last;
    assert Fresh(interval, before.last, latest) == map[];
    var crowd := Crowd(MANY + 1, at);
    forall k | 0 <= k < |crowd| ensures crowd[k].at == at {
      CrowdAt(MANY + 1, at, k);
    }
  }

  /** The first of those keys again, by a late call: it is admitted, although it was recorded less
      than an interval before. */
  lemma {:induction false} RecordedTwice(interval: int, latest: int, now: int)
    requires interval >= 0 && !Harmless(interval, latest, now)
    ensures InOrder(Forgotten(interval, latest) + [Call(Name(MANY + 1), latest)])
    ensures var m := Run(interval, Forgotten(interval, latest) + [Call(Name(MANY + 1), latest)]);
            && Admits(interval, m.last, Call(Name(0), now))
            && !AdmitsByAll(interval, m.recorded, Call(Name(0), now))
            && !Spaced(Step(interval, m, Call(Name(0), now)).recorded, interval)
  {
    hide Crowd, Run, Name, LastOf;
    var crowd, call, late := Forgotten(interval, latest), Call(Name(MANY + 1), latest), Call(Name(0), now);
    ForgottenHeld(interval, latest);
    CrowdAt(MANY + 1, latest - interval, 0);
    LastPush(crowd, call, Name(0));
    CrowdFirst(MANY + 1, latest - interval);
    assert |Name(0)| != |Name(MANY + 1)|;
    var recorded := crowd + [call] + [late];
    assert recorded[0] == Call(Name(0), latest - interval) && recorded[|crowd| + 1] == late;
  }

  lemma {:induction false} CrowdFirst(n: nat, at: int)
    requires n > 0
    ensures LastOf(Crowd(n, at), Name(0)) == at
  {
    LastPush(Crowd(n - 1, at), Call(Name(n - 1), at), Name(0));

    if n > 1 {
      CrowdFirst(n - 1, at);
      assert |Name(n - 1)| != |Name(0)|;
    }
  }

  /** Whatever orderly calls came before, a call decides as if nothing had been forgotten, and
      keeps the gaps, exactly when it is not late; or when the readings are so close to zero that
      lateness can't show. */
  lemma {:induction false} RightExactly(interval: int, latest: int, now: int)
    requires interval >= 0
    ensures Harmless(interval, latest, now) <==>
            forall calls, key, other :: InOrder(calls + [Call(key, latest)]) ==>
              Right(interval, calls + [Call(key, latest)], Call(other, now))
  {
    hide Right;

    if Harmless(interval, latest, now) {
      forall calls, key, other | InOrder(calls + [Call(key, latest)])
        ensures Right(interval, calls + [Call(key, latest)], Call(other, now))
      {
        RightIfHarmless(interval, calls, Call(key, latest), Call(other, now));
      }
    } else {
      WrongIfLate(interval, latest, now);
    }
  }

  lemma {:induction false} WrongIfLate(interval: int, latest: int, now: int)
    requires interval >= 0 && !Harmless(interval, latest, now)
    ensures InOrder(Forgotten(interval, latest) + [Call(Name(MANY + 1), latest)])
    ensures !Right(interval, Forgotten(interval, latest) + [Call(Name(MANY + 1), latest)], Call(Name(0), now))
  {
    RecordedTwice(interval, latest, now);
  }
}
