// The sliding-window limiter: per key a bounded queue of accepted times, and a
// sweeper that drops whole keys.  Every decision is compared with the limiter
// that remembers everything it ever accepted.

module RateLimit {
  datatype Limit = Limit(maxRequestNum: nat, duration: int)
  datatype Event = Ask(key: string, now: int) | Sweep(now: int)

  type Queue = q: seq<int> | q != [] witness [0]
  type Store = map<string, Queue>

  predicate Admits(store: Store, key: string, limit: Limit, now: int) {
    key in store && |store[key]| >= limit.maxRequestNum ==> now - store[key][0] >= limit.duration
  }

  function Admitted(store: Store, key: string, limit: Limit, now: int): Store {
    if key !in store then store[key := [now]]
    else
      var queue := store[key];
      store[key := (if |queue| < limit.maxRequestNum then queue else queue[1..]) + [now]]
  }

  predicate Expired(queue: Queue, now: int, expiry: int) {
    now - queue[|queue| - 1] > expiry
  }

  function Swept(store: Store, now: int, expiry: int): Store {
    map key | key in store && !Expired(store[key], now, expiry) :: store[key]
  }

  function StoreAfter(events: seq<Event>, limits: string -> Limit, expiry: int): Store {
    if events == [] then map[]
    else
      var store := StoreAfter(events[..|events| - 1], limits, expiry);
      match events[|events| - 1]
      case Ask(key, now) => if Admits(store, key, limits(key), now) then Admitted(store, key, limits(key), now) else store
      case Sweep(now) => Swept(store, now, expiry)
  }

  // The reference: how many accepted times are still inside the window, and a limiter that forgets nothing.
  function Recent(times: seq<int>, now: int, duration: int): nat {
    if times == [] then 0
    else Recent(times[..|times| - 1], now, duration) + if now - times[|times| - 1] < duration then 1 else 0
  }

  function RecentOnes(times: seq<int>, now: int, duration: int): set<int> {
    set i | 0 <= i < |times| && now - times[i] < duration
  }

  // It is a number of positions.
  lemma {:induction false} RecentCounts(times: seq<int>, now: int, duration: int)
    ensures Recent(times, now, duration) == |RecentOnes(times, now, duration)|
  {
    if times != [] {
      var n := |times| - 1;
      RecentCounts(times[..n], now, duration);
      var before := RecentOnes(times[..n], now, duration);
      assert n !in before;
      assert RecentOnes(times, now, duration) == before + if now - times[n] < duration then {n} else {};
    }
  }

  // A limit of zero still lets one request through per window.
  function Capacity(limit: Limit): nat {
    if limit.maxRequestNum == 0 then 1 else limit.maxRequestNum
  }

  predicate HasRoom(times: seq<int>, limit: Limit, now: int) {
    Recent(times, now, limit.duration) < Capacity(limit)
  }

  function Accepted(events: seq<Event>, key: string, limit: Limit): seq<int> {
    if events == [] then []
    else
      var times := Accepted(events[..|events| - 1], key, limit);
      var e := events[|events| - 1];
      if e.Ask? && e.key == key && HasRoom(times, limit, e.now) then times + [e.now] else times
  }

  predicate ClockNeverGoesBack(events: seq<Event>) {
    forall i, j :: 0 <= i < j < |events| ==> events[i].now <= events[j].now
  }

  predicate Sorted(times: seq<int>) {
    forall i, j :: 0 <= i < j < |times| ==> times[i] <= times[j]
  }

  predicate NoneAfter(times: seq<int>, now: int) {
    forall i :: 0 <= i < |times| ==> times[i] <= now
  }

  lemma {:induction false} RecentIffOldestLeft(times: seq<int>, now: int, duration: int, capacity: nat)
    requires Sorted(times) && capacity > 0
    ensures Recent(times, now, duration) < capacity
            <==> |times| < capacity || now - times[|times| - capacity] >= duration
  {
    if times != [] {
      var front := times[..|times| - 1];
      if now - times[|times| - 1] >= duration {
        AllStale(front, now, duration);
      } else if capacity > 1 {
        RecentIffOldestLeft(front, now, duration, capacity - 1);
      }
    }
  }

  lemma {:induction false} AllStale(times: seq<int>, now: int, duration: int)
    requires forall i :: 0 <= i < |times| ==> now - times[i] >= duration
    ensures Recent(times, now, duration) == 0
  {
    if times != [] {
      AllStale(times[..|times| - 1], now, duration);
    }
  }

  lemma {:induction false} AcceptedTimes(events: seq<Event>, key: string, limit: Limit)
    requires ClockNeverGoesBack(events)
    ensures Sorted(Accepted(events, key, limit))
    ensures events != [] ==> NoneAfter(Accepted(events, key, limit), events[|events| - 1].now)
  {
    if events != [] {
      var before := events[..|events| - 1];
      AcceptedTimes(before, key, limit);
      assert before != [] ==> before[|before| - 1].now == events[|before| - 1].now <= events[|before|].now;
    }
  }

  // What the bounded queue may have forgotten: only times that no later decision can count.
  predicate Represents(store: Store, key: string, limit: Limit, times: seq<int>, now: int) {
    var kept := if key in store then |store[key]| else 0;
    && kept <= |times| && kept <= Capacity(limit)
    && (key in store ==> store[key] == times[|times| - kept..])
    && (kept < Capacity(limit) ==> forall i :: 0 <= i < |times| - kept ==> now - times[i] >= limit.duration)
  }

  lemma RepresentedDecision(store: Store, key: string, limit: Limit, times: seq<int>, now: int)
    requires Represents(store, key, limit, times, now) && Sorted(times)
    ensures Admits(store, key, limit, now) <==> HasRoom(times, limit, now)
    ensures Admits(store, key, limit, now) ==> Represents(Admitted(store, key, limit, now), key, limit, times + [now], now)
  {
    RecentIffOldestLeft(times, now, limit.duration, Capacity(limit));
  }

  lemma SweepForgetsOnlyStale(store: Store, key: string, limit: Limit, times: seq<int>, now: int, expiry: int)
    requires Represents(store, key, limit, times, now) && Sorted(times) && limit.duration <= expiry + 1
    ensures Represents(Swept(store, now, expiry), key, limit, times, now)
  {
    if key in store && Expired(store[key], now, expiry) {
      assert store[key][|store[key]| - 1] == times[|times| - 1];
    }
  }

  lemma TimePasses(store: Store, key: string, limit: Limit, times: seq<int>, now: int, later: int)
    requires Represents(store, key, limit, times, now) && now <= later
    ensures Represents(store, key, limit, times, later)
  {}

  lemma {:induction false} QueueRepresentsHistory(events: seq<Event>, limits: string -> Limit, expiry: int, key: string, later: int)
    requires ClockNeverGoesBack(events) && (events != [] ==> events[|events| - 1].now <= later)
    requires limits(key).duration <= expiry + 1
    ensures Represents(StoreAfter(events, limits, expiry), key, limits(key), Accepted(events, key, limits(key)), later)
  {
    if events != [] {
      var before := events[..|events| - 1];
      var e := events[|events| - 1];
      var limit := limits(key);
      QueueRepresentsHistory(before, limits, expiry, key, e.now);
      AcceptedTimes(before, key, limit);
      var store, times := StoreAfter(before, limits, expiry), Accepted(before, key, limit);
      if e.Sweep? {
        SweepForgetsOnlyStale(store, key, limit, times, e.now, expiry);
      } else if e.key == key {
        RepresentedDecision(store, key, limit, times, e.now);
      }
      TimePasses(StoreAfter(events, limits, expiry), key, limit, Accepted(events, key, limit), e.now, later);
    }
  }

  predicate Right(events: seq<Event>, limits: string -> Limit, expiry: int, key: string, now: int) {
    Admits(StoreAfter(events, limits, expiry), key, limits(key), now) <==> HasRoom(Accepted(events, key, limits(key)), limits(key), now)
  }

  // Every decision, whatever sweeps and other keys' requests came before, is the reference limiter's.
  lemma DecisionsAreExact(events: seq<Event>, limits: string -> Limit, expiry: int, key: string, now: int)
    requires ClockNeverGoesBack(events + [Ask(key, now)]) && limits(key).duration <= expiry + 1
    ensures Right(events, limits, expiry, key, now)
  {
    var run := events + [Ask(key, now)];
    assert run[..|events|] == events;
    assert ClockNeverGoesBack(events);
    assert events != [] ==> run[|events| - 1].now <= run[|events|].now;
    QueueRepresentsHistory(events, limits, expiry, key, now);
    AcceptedTimes(events, key, limits(key));
    RepresentedDecision(StoreAfter(events, limits, expiry), key, limits(key), Accepted(events, key, limits(key)), now);
  }

  // No window of the given length ever holds more than the capacity.
  lemma {:induction false} WindowsStayWithinCapacity(events: seq<Event>, key: string, limit: Limit, i: nat, j: nat)
    requires ClockNeverGoesBack(events) && i < j < |Accepted(events, key, limit)|
    requires Accepted(events, key, limit)[j] - Accepted(events, key, limit)[i] < limit.duration
    ensures j - i < Capacity(limit)
  {
    var before := events[..|events| - 1];
    var times := Accepted(before, key, limit);
    if j < |times| {
      WindowsStayWithinCapacity(before, key, limit, i, j);
    } else {
      AcceptedTimes(before, key, limit);
      RecentIffOldestLeft(times, events[|events| - 1].now, limit.duration, Capacity(limit));
    }
  }

  function Burst(key: string, n: nat): seq<Event> {
    seq(n, _ => Ask(key, 0))
  }

  lemma {:induction false} BurstFills(key: string, n: nat, limits: string -> Limit, expiry: int)
    requires 0 < n <= Capacity(limits(key)) && limits(key).duration > 0
    ensures var zeros := seq(n, _ => 0);
            && key in StoreAfter(Burst(key, n), limits, expiry) && StoreAfter(Burst(key, n), limits, expiry)[key] == zeros
            && Accepted(Burst(key, n), key, limits(key)) == zeros
  {
    assert Burst(key, n)[..n - 1] == Burst(key, n - 1);
    assert seq(n, _ => 0) == seq(n - 1, _ => 0) + [0];
    if n > 1 {
      BurstFills(key, n - 1, limits, expiry);
    }
    ZerosAreRecent(n - 1, 0, limits(key).duration);
  }

  lemma {:induction false} ZerosAreRecent(n: nat, now: int, duration: int)
    requires now < duration
    ensures Recent(seq(n, _ => 0), now, duration) == n
  {
    if n > 0 {
      assert seq(n, _ => 0)[..n - 1] == seq(n - 1, _ => 0);
      ZerosAreRecent(n - 1, now, duration);
    }
  }

  // The limiter is exact in every run precisely when the window is at most one second longer than
  // the sweeper's expiry; otherwise a sweep after a full burst lets one request too many through.
  lemma ExactIffWindowFitsExpiry(limits: string -> Limit, expiry: nat, key: string)
    ensures (forall events, now | ClockNeverGoesBack(events + [Ask(key, now)]) :: Right(events, limits, expiry, key, now))
            <==> limits(key).duration <= expiry + 1
  {
    if limits(key).duration <= expiry + 1 {
      forall events, now | ClockNeverGoesBack(events + [Ask(key, now)]) ensures Right(events, limits, expiry, key, now) {
        DecisionsAreExact(events, limits, expiry, key, now);
      }
    } else {
      SweepTooEarly(limits, expiry, key);
      var events := Burst(key, Capacity(limits(key))) + [Sweep(expiry + 1)];
      assert ClockNeverGoesBack(events + [Ask(key, expiry + 1)]);
    }
  }

  lemma SweepTooEarly(limits: string -> Limit, expiry: nat, key: string)
    requires limits(key).duration > expiry + 1
    ensures !Right(Burst(key, Capacity(limits(key))) + [Sweep(expiry + 1)], limits, expiry, key, expiry + 1)
  {
    var n := Capacity(limits(key));
    var burst := Burst(key, n);
    var events := burst + [Sweep(expiry + 1)];
    assert events[..n] == burst;
    BurstFills(key, n, limits, expiry);
    ZerosAreRecent(n, expiry + 1, limits(key).duration);
  }

  class InMemoryRateLimiter {
    var store: Store
    const expiry: int
    ghost const limits: string -> Limit
    ghost var events: seq<Event>

    ghost predicate Valid()
      reads this
    {
      ClockNeverGoesBack(events) && store == StoreAfter(events, limits, expiry)
    }

    ghost predicate NotBefore(now: int)
      reads this
    {
      events != [] ==> events[|events| - 1].now <= now
    }

    constructor (expiry: int, ghost limits: string -> Limit)
      ensures Valid() && events == [] && this.expiry == expiry && this.limits == limits
    {
      this.expiry := expiry;
      this.limits := limits;
      store := map[];
      events := [];
    }

    method Request(key: string, maxRequestNum: nat, duration: int, now: int) returns (ok: bool)
      requires Valid() && NotBefore(now) && limits(key) == Limit(maxRequestNum, duration)
      modifies this
      ensures Valid() && events == old(events) + [Ask(key, now)]
      ensures duration <= expiry + 1 ==>
                ok == HasRoom(Accepted(old(events), key, limits(key)), limits(key), now)
      ensures ok == Admits(old(store), key, limits(key), now)
    {
      ghost var asked := events + [Ask(key, now)];
      assert asked[..|events|] == events;
      assert ClockNeverGoesBack(asked);
      if duration <= expiry + 1 {
        DecisionsAreExact(events, limits, expiry, key, now);
      }
      events := asked;
      if key in store {
        var queue := store[key];
        if |queue| < maxRequestNum {
          store := store[key := queue + [now]];
          ok := true;
        } else if now - queue[0] >= duration {
          queue := queue[1..] + [now];
          store := store[key := queue];
          ok := true;
        } else {
          ok := false;
        }
      } else {
        store := store[key := [now]];
        ok := true;
      }
    }

    // One pass of the sweeper over all keys, in any order.
    method ClearExpiredItems(now: int)
      requires Valid() && NotBefore(now)
      modifies this
      ensures Valid() && events == old(events) + [Sweep(now)]
      ensures store == Swept(old(store), now, expiry)
      ensures forall key :: key in store <==> key in old(store) && now - old(store)[key][|old(store)[key]| - 1] <= expiry
      ensures forall key :: key in store ==> store[key] == old(store)[key]
    {
      var keys := store.Keys;
      while keys != {}
        invariant keys <= store.Keys <= old(store).Keys && events == old(events)
        invariant forall key :: key in store ==> store[key] == old(store)[key]
        invariant forall key :: key in old(store) && key !in keys ==> (key in store <==> !Expired(old(store)[key], now, expiry))
        decreases |keys|
      {
        var key :| key in keys;
        keys := keys - {key};
        if Expired(store[key], now, expiry) {
          store := store - {key};
        }
      }
      ghost var swept := events + [Sweep(now)];
      assert swept[..|events|] == events;
      events := swept;
    }
  }
}
