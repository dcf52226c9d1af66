/** Client registrations: `allow_registration` of src/auth.rs over `registration_try_record` of
    src/store.rs. */
module Registrations {
  import opened Prelude
  import opened Windows
  import opened Access
  import Tables = Store

  const MAX_REGISTRATIONS_PER_HOUR := 30
  const MAX_REGISTRATIONS_PER_SOURCE := 5

  datatype Hit = Hit(ip: string, at: int)

  /** The moments of the hits from one source, or from all. */
  function TimesOf(hits: seq<Hit>, ip: Option<string>): seq<int> {
    if hits == [] then []
    else
      var last := hits[|hits| - 1];
      TimesOf(hits[..|hits| - 1], ip) + if ip == None || ip == Some(last.ip) then [last.at] else []
  }

  function HitsSince(hits: seq<Hit>, from: int): seq<Hit> {
    if hits == [] then []
    else
      var last := hits[|hits| - 1];
      HitsSince(hits[..|hits| - 1], from) + if last.at >= from then [last] else []
  }

  lemma {:induction false} TimesPush(hits: seq<Hit>, hit: Hit, ip: Option<string>)
    ensures TimesOf(hits + [hit], ip) == TimesOf(hits, ip) + if ip == None || ip == Some(hit.ip) then [hit.at] else []
  {
    assert (hits + [hit])[..|hits|] == hits;
  }

  lemma {:induction false} HitsPush(hits: seq<Hit>, hit: Hit, from: int)
    ensures HitsSince(hits + [hit], from) == HitsSince(hits, from) + if hit.at >= from then [hit] else []
  {
    assert (hits + [hit])[..|hits|] == hits;
  }

  /** Pruning hits prunes their moments. */
  lemma {:induction false} TimesSince(hits: seq<Hit>, from: int, ip: Option<string>)
    ensures TimesOf(HitsSince(hits, from), ip) == Since(TimesOf(hits, ip), from)
  {
    if hits != [] {
      var rest, last := hits[..|hits| - 1], hits[|hits| - 1];
      TimesSince(rest, from, ip);

      if last.at >= from {
        TimesPush(HitsSince(rest, from), last, ip);
      } else {
        assert HitsSince(rest, from) + [] == HitsSince(rest, from);
      }

      if ip == None || ip == Some(last.ip) {
        SincePush(TimesOf(rest, ip), last.at, from);
      } else {
        assert TimesOf(rest, ip) + [] == TimesOf(rest, ip);
      }

      assert Since(TimesOf(rest, ip), from) + [] == Since(TimesOf(rest, ip), from);
    }
  }

  lemma {:induction false} SinceAgain(hits: seq<Hit>, from: int, later: int)
    ensures HitsSince(HitsSince(hits, from), later) == HitsSince(hits, if from < later then later else from)
  {
    if hits != [] {
      var rest, last := hits[..|hits| - 1], hits[|hits| - 1];
      SinceAgain(rest, from, later);

      if last.at >= from {
        HitsPush(HitsSince(rest, from), last, later);
      } else {
        assert HitsSince(rest, from) + [] == HitsSince(rest, from);
      }
    }
  }

  /** How many of all the registrations ever recorded fall in the last hour before `now`. */
  function InHour(all: seq<Hit>, ip: Option<string>, now: int): nat {
    InWindow(TimesOf(all, ip), now - HOUR, HOUR)
  }

  ghost predicate WithinLimits(all: seq<Hit>) {
    && Bounded(TimesOf(all, None), HOUR, MAX_REGISTRATIONS_PER_HOUR)
    && forall ip :: Bounded(TimesOf(all, Some(ip)), HOUR, MAX_REGISTRATIONS_PER_SOURCE)
  }

  predicate NotAfter(all: seq<Hit>, now: int) {
    forall k | 0 <= k < |all| :: all[k].at <= now
  }

  lemma {:induction false} TimesNotAfter(all: seq<Hit>, ip: Option<string>, now: int)
    requires NotAfter(all, now)
    ensures NoLater(TimesOf(all, ip), now)
  {
    if all != [] {
      TimesNotAfter(all[..|all| - 1], ip, now);
    }
  }

  /** What the table keeps is enough to count the hour before any later moment. */
  lemma {:induction false} KeptCounts(all: seq<Hit>, horizon: int, ip: Option<string>, now: int)
    requires NotAfter(all, now) && horizon <= now - HOUR
    ensures |TimesOf(HitsSince(all, horizon), ip)| >= InHour(all, ip, now)
    ensures |TimesOf(HitsSince(all, horizon), ip)| == InWindow(TimesOf(all, ip), horizon, now - horizon)
  {
    TimesNotAfter(all, ip, now);
    TimesSince(all, horizon, ip);
    SinceCounts(TimesOf(all, ip), horizon, now - horizon);
    WiderWindow(TimesOf(all, ip), horizon, now);
  }

  lemma {:induction false} WiderWindow(times: seq<int>, horizon: int, now: int)
    requires horizon <= now - HOUR
    ensures InWindow(times, now - HOUR, HOUR) <= InWindow(times, horizon, now - horizon)
  {
    if times != [] {
      WiderWindow(times[..|times| - 1], horizon, now);
    }
  }

  lemma {:induction false} HitKeeps(all: seq<Hit>, hit: Hit)
    requires WithinLimits(all) && NotAfter(all, hit.at)
    requires InHour(all, None, hit.at) < MAX_REGISTRATIONS_PER_HOUR
    requires InHour(all, Some(hit.ip), hit.at) < MAX_REGISTRATIONS_PER_SOURCE
    ensures WithinLimits(all + [hit])
  {
    TimesPush(all, hit, None);
    TimesNotAfter(all, None, hit.at);
    PushBounded(TimesOf(all, None), hit.at, HOUR, MAX_REGISTRATIONS_PER_HOUR);
    forall ip ensures Bounded(TimesOf(all + [hit], Some(ip)), HOUR, MAX_REGISTRATIONS_PER_SOURCE) {
      TimesPush(all, hit, Some(ip));
      TimesNotAfter(all, Some(ip), hit.at);

      if ip == hit.ip {
        PushBounded(TimesOf(all, Some(ip)), hit.at, HOUR, MAX_REGISTRATIONS_PER_SOURCE);
      } else {
        assert TimesOf(all, Some(ip)) + [] == TimesOf(all, Some(ip));
      }
    }
  }

  /** The table holds the registrations since `horizon`, the latest moment anybody pruned at;
      and of everything ever registered, no hour holds more than the limits. */
  ghost predicate Sound(hits: seq<Hit>, all: seq<Hit>, horizon: int, clock: int) {
    && hits == HitsSince(all, horizon) && horizon <= clock - HOUR
    && NotAfter(all, clock)
    && WithinLimits(all)
  }

  function Later(a: int, b: int): int {
    if a < b then b else a
  }

  predicate HasRoom(hits: seq<Hit>, ip: string) {
    |TimesOf(hits, Some(ip))| < MAX_REGISTRATIONS_PER_SOURCE && |TimesOf(hits, None)| < MAX_REGISTRATIONS_PER_HOUR
  }

  lemma {:induction false} PruneSound(hits: seq<Hit>, all: seq<Hit>, horizon: int, clock: int, since: int, at: int)
    requires Sound(hits, all, horizon, clock) && clock <= at && since <= at - HOUR
    ensures Sound(HitsSince(hits, since), all, Later(horizon, since), at)
  {
    SinceAgain(all, horizon, since);
  }

  lemma {:induction false} InsertSound(hits: seq<Hit>, all: seq<Hit>, horizon: int, ip: string, at: int)
    requires Sound(hits, all, horizon, at) && HasRoom(hits, ip)
    ensures Sound(hits + [Hit(ip, at)], all + [Hit(ip, at)], horizon, at)
  {
    hide WithinLimits, HitsSince;
    KeptCounts(all, horizon, Some(ip), at);
    KeptCounts(all, horizon, None, at);
    HitKeeps(all, Hit(ip, at));
    HitsPush(all, Hit(ip, at), horizon);
  }

  /** What fits by the table fits by all of history; and if nobody pruned past the hour, the
      other way round too. */
  lemma {:induction false} RoomMeans(hits: seq<Hit>, all: seq<Hit>, horizon: int, ip: string, at: int)
    requires Sound(hits, all, horizon, at)
    ensures HasRoom(hits, ip) ==> RoomInHour(all, ip, at)
    ensures horizon == at - HOUR ==> (HasRoom(hits, ip) <==> RoomInHour(all, ip, at))
  {
    KeptCounts(all, horizon, Some(ip), at);
    KeptCounts(all, horizon, None, at);
  }

  /** Fewer than the limits registered in the hour up to `at`, counted over all of history. */
  predicate RoomInHour(all: seq<Hit>, ip: string, at: int) {
    InHour(all, Some(ip), at) < MAX_REGISTRATIONS_PER_SOURCE && InHour(all, None, at) < MAX_REGISTRATIONS_PER_HOUR
  }

  class Store {
    var hits: seq<Hit>
    ghost var all: seq<Hit>
    ghost var horizon: int
    ghost var clock: int

    constructor (now: int)
      ensures Valid() && hits == [] && all == [] && clock == now
    {
      hits := [];
      all := [];
      horizon := now - HOUR;
      clock := now;
    }

    ghost predicate Valid()
      reads this
    {
      Sound(hits, all, horizon, clock)
    }

    /** `since` is computed before the table is locked and `at` read once it is, so calls may
        arrive with a `since` older than one already used. `weather` says which of the
        four statements succeed. */
    method RegistrationTryRecord(ip: string, since: int, sourceLimit: int, globalLimit: int, at: int,
                                 weather: seq<bool>)
      returns (r: Reply<bool>)
      requires Valid() && at >= clock && since <= at - HOUR
      requires sourceLimit == MAX_REGISTRATIONS_PER_SOURCE && globalLimit == MAX_REGISTRATIONS_PER_HOUR
      modifies this
      ensures Valid() && clock == at
      ensures horizon == if Tables.Up(weather, 0) then Later(old(horizon), since) else old(horizon)
      ensures all == if r == Done(true) then old(all) + [Hit(ip, at)] else old(all)
      ensures r == if !Tables.Up(weather, 0) || !Tables.Up(weather, 1) || !Tables.Up(weather, 2) then StoreFailed
                   else if !HasRoom(HitsSince(old(hits), since), ip) then Done(false)
                   else if Tables.Up(weather, 3) then Done(true) else StoreFailed
      ensures hits == if !Tables.Up(weather, 0) then old(hits)
                      else HitsSince(old(hits), since) + if r == Done(true) then [Hit(ip, at)] else []
    {
      hide Sound, TimesOf, HitsSince;

      if !Tables.Up(weather, 0) {
        ClockMoves(hits, all, horizon, clock, at);
        clock := at;
        return StoreFailed;
      }

      PruneSound(hits, all, horizon, clock, since, at);
      hits := HitsSince(hits, since);
      horizon := Later(horizon, since);
      clock := at;

      if !Tables.Up(weather, 1) || !Tables.Up(weather, 2) {
        return StoreFailed;
      }

      var fromIp := |TimesOf(hits, Some(ip))|;
      var total := |TimesOf(hits, None)|;

      if fromIp >= sourceLimit || total >= globalLimit {
        return Done(false);
      }

      if !Tables.Up(weather, 3) {
        return StoreFailed;
      }

      InsertSound(hits, all, horizon, ip, at);
      hits := hits + [Hit(ip, at)];
      all := all + [Hit(ip, at)];
      return Done(true);
    }

    /** `asked` is the clock reading that `allow_registration` starts from. Whoever asked first,
        a registration is recorded only if both hours have room; and when nobody was in between,
        exactly then. */
    method AllowRegistration(ip: string, asked: int, at: int, weather: seq<bool>) returns (r: Reply<bool>)
      requires Valid() && at >= clock && asked <= at
      modifies this
      ensures Valid() && clock == at
      ensures all == if r == Done(true) then old(all) + [Hit(ip, at)] else old(all)
      ensures r == Done(true) ==> RoomInHour(old(all), ip, at)
      ensures asked == at && (forall i :: 0 <= i < 4 ==> Tables.Up(weather, i)) ==>
                r == Done(RoomInHour(old(all), ip, at))
    {
      hide Sound, HitsSince, HasRoom, RoomInHour;

      if Tables.Up(weather, 0) {
        PruneSound(hits, all, horizon, clock, asked - HOUR, at);
        RoomMeans(HitsSince(hits, asked - HOUR), all, Later(horizon, asked - HOUR), ip, at);
        HorizonPast(hits, all, horizon, clock);
      }

      r := RegistrationTryRecord(ip, asked - HOUR, MAX_REGISTRATIONS_PER_SOURCE, MAX_REGISTRATIONS_PER_HOUR, at,
                                 weather);
    }
  }

  lemma {:induction false} ClockMoves(hits: seq<Hit>, all: seq<Hit>, horizon: int, clock: int, at: int)
    requires Sound(hits, all, horizon, clock) && clock <= at
    ensures Sound(hits, all, horizon, at)
  {
  }

  lemma {:induction false} HorizonPast(hits: seq<Hit>, all: seq<Hit>, horizon: int, clock: int)
    requires Sound(hits, all, horizon, clock)
    ensures horizon <= clock - HOUR
  {
  }
}
