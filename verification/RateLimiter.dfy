/** The fixed-window rate limiter. */
module RateLimiter {
  import opened Numbers

  datatype Entry = Entry(count: int, startTime: int)
  datatype Status = Status(count: int, limit: int, windowMs: int, remaining: int, resetMs: int, limited: bool)
  type Store = map<string, Entry>

  /** The key has an entry whose window has not run out; the last instant still belongs to it. */
  predicate InWindow(store: Store, key: string, windowMs: int, now: int) {
    key in store && now - store[key].startTime <= windowMs
  }

  function GetStatus(store: Store, key: string, limit: int, windowMs: int, now: int): Status {
    if !InWindow(store, key, windowMs, now) then Status(0, limit, windowMs, limit, windowMs, false)
    else
      var entry := store[key];
      Status(entry.count, limit, windowMs, Max(0, limit - entry.count), windowMs - (now - entry.startTime), entry.count >= limit)
  }

  function Consumed(store: Store, key: string, windowMs: int, now: int): Store {
    if !InWindow(store, key, windowMs, now) then store[key := Entry(1, now)]
    else store[key := Entry(store[key].count + 1, store[key].startTime)]
  }

  function ConsumeStatus(store: Store, key: string, limit: int, windowMs: int, now: int): Status {
    var entry := Consumed(store, key, windowMs, now)[key];
    Status(entry.count, limit, windowMs, Max(0, limit - entry.count), windowMs - (now - entry.startTime), entry.count > limit)
  }

  class Limiter {
    var store: Store

    constructor ()
      ensures store == map[]
    {
      store := map[];
    }

    method Consume(key: string, limit: int, windowMs: int, now: int) returns (status: Status)
      modifies this
      ensures store == Consumed(old(store), key, windowMs, now)
      ensures status == ConsumeStatus(old(store), key, limit, windowMs, now)
    {
      if key !in store || now - store[key].startTime > windowMs {
        store := store[key := Entry(1, now)];
        return Status(1, limit, windowMs, Max(0, limit - 1), windowMs, 1 > limit);
      }
      var count := store[key].count + 1;
      var elapsed := now - store[key].startTime;
      store := store[key := store[key].(count := count)];
      status := Status(count, limit, windowMs, Max(0, limit - count), windowMs - elapsed, count > limit);
    }

    method StatusForKey(key: string, limit: int, windowMs: int, now: int) returns (status: Status)
      ensures status == GetStatus(store, key, limit, windowMs, now)
    {
      if key !in store || now - store[key].startTime > windowMs {
        return Status(0, limit, windowMs, limit, windowMs, false);
      }
      var entry := store[key];
      var elapsed := now - entry.startTime;
      status := Status(entry.count, limit, windowMs, Max(0, limit - entry.count), windowMs - elapsed, entry.count >= limit);
    }
  }

  // ---- The non-consuming status against a consume at the same instant ---------------

  /** The status predicts the next consume exactly when the limit is at least one or a window is
      open; with a limit below one, a fresh key reads as free although every call is refused. */
  lemma StatusPredictsExactlyWhen(store: Store, key: string, limit: int, windowMs: int, now: int)
    ensures (GetStatus(store, key, limit, windowMs, now).limited == ConsumeStatus(store, key, limit, windowMs, now).limited)
            <==> (limit >= 1 || InWindow(store, key, windowMs, now))
  {}

  // ---- Runs -------------------------------------------------------------------------

  /** Callers share keys, each with its own limit: two routes use an address as key, one with a limit
      of 3 and one with 5. */
  datatype Call = Call(key: string, limit: int, now: int)

  /** A key's window, which all its callers agree on. */
  type Windows = string -> int

  function Next(windows: Windows, store: Store, call: Call): Store {
    Consumed(store, call.key, windows(call.key), call.now)
  }

  function Run(windows: Windows, store: Store, calls: seq<Call>): Store
    decreases |calls|
  {
    if calls == [] then store else Run(windows, Next(windows, store, calls[0]), calls[1..])
  }

  predicate Admitted(windows: Windows, store: Store, call: Call) {
    !ConsumeStatus(store, call.key, call.limit, windows(call.key), call.now).limited
  }

  /** The clock does not go back, from instant `from` on. */
  predicate Clocked(calls: seq<Call>, from: int)
    decreases |calls|
  {
    calls == [] || (from <= calls[0].now && Clocked(calls[1..], calls[0].now))
  }

  /** A store as earlier consumes up to `now` can have left it. */
  ghost predicate Plausible(store: Store, now: int) {
    forall k :: k in store ==> store[k].count >= 1 && store[k].startTime <= now
  }

  /** An admitted call of `key` by a caller whose limit is at most `limit`. */
  predicate Counted(windows: Windows, store: Store, call: Call, key: string, limit: int) {
    call.key == key && call.limit <= limit && Admitted(windows, store, call)
  }

  /** How many of them come between two instants, both included. */
  function AdmittedBetween(windows: Windows, store: Store, calls: seq<Call>, key: string, limit: int, first: int, last: int): nat
    decreases |calls|
  {
    if calls == [] then 0
    else Count(first <= calls[0].now <= last && Counted(windows, store, calls[0], key, limit))
         + AdmittedBetween(windows, Next(windows, store, calls[0]), calls[1..], key, limit, first, last)
  }

  /** The most a closed interval as long as the window can admit. */
  function IntervalCap(limit: int): int { Max(0, 2 * limit - 1) }

  /** How many admissions an interval [first, first + windowMs] can have seen, by where the
      current window of the key started. It shares the interval with at most one earlier window,
      and the call that opened that one came before the interval. */
  ghost predicate Within(store: Store, key: string, limit: int, windowMs: int, first: int, now: int, seen: int) {
    && (seen > 0 ==> first <= now)
    && (key !in store ==> seen == 0)
    && (key in store ==>
          var start, used := store[key].startTime, Max(0, Min(store[key].count, limit));
          && store[key].count >= 1 && start <= now
          && (start < first ==> seen <= Max(0, used - 1))
          && (first <= start <= first + windowMs ==> seen <= Max(0, limit - 1) + used)
          && seen <= IntervalCap(limit))
  }

  lemma StepWithin(windows: Windows, store: Store, call: Call, key: string, limit: int, first: int, now: int, seen: int)
    requires now <= call.now && Within(store, key, limit, windows(key), first, now, seen)
    ensures var last := first + windows(key);
            var counted := Count(first <= call.now <= last && Counted(windows, store, call, key, limit));
            Within(Next(windows, store, call), key, limit, windows(key), first, call.now, seen + counted)
  {}

  lemma {:induction false} RunWithin(windows: Windows, store: Store, calls: seq<Call>, key: string, limit: int, first: int, now: int, seen: int)
    requires Clocked(calls, now) && Within(store, key, limit, windows(key), first, now, seen)
    ensures seen + AdmittedBetween(windows, store, calls, key, limit, first, first + windows(key)) <= IntervalCap(limit)
    decreases |calls|
  {
    if calls != [] {
      var call, last := calls[0], first + windows(key);
      var counted := Count(first <= call.now <= last && Counted(windows, store, call, key, limit));
      StepWithin(windows, store, call, key, limit, first, now, seen);
      RunWithin(windows, Next(windows, store, call), calls[1..], key, limit, first, call.now, seen + counted);
    }
  }

  /** Whatever the calls and their limits, any closed interval as long as the window admits at most
      2 * limit - 1 of the calls with that limit or a lower one. */
  lemma IntervalAdmitsBelowTwiceTheLimit(windows: Windows, store: Store, calls: seq<Call>, key: string, limit: int, first: int, now: int)
    requires Plausible(store, now) && Clocked(calls, now)
    ensures AdmittedBetween(windows, store, calls, key, limit, first, first + windows(key)) <= IntervalCap(limit)
  {
    RunWithin(windows, store, calls, key, limit, first, now, 0);
  }

  function Burst(key: string, limit: int, now: int, n: nat): (calls: seq<Call>)
    ensures |calls| == n
  {
    if n == 0 then [] else [Call(key, limit, now)] + Burst(key, limit, now, n - 1)
  }

  lemma {:induction false} AdmittedConcat(windows: Windows, store: Store, calls: seq<Call>, more: seq<Call>, key: string, limit: int, first: int, last: int)
    ensures AdmittedBetween(windows, store, calls + more, key, limit, first, last) ==
              AdmittedBetween(windows, store, calls, key, limit, first, last) + AdmittedBetween(windows, Run(windows, store, calls), more, key, limit, first, last)
    decreases |calls|
  {
    if calls == [] {
      assert calls + more == more;
    } else {
      assert (calls + more)[1..] == calls[1..] + more;
      AdmittedConcat(windows, Next(windows, store, calls[0]), calls[1..], more, key, limit, first, last);
    }
  }

  /** A burst inside an open window with room for it is admitted whole. */
  lemma {:induction false} BurstFits(windows: Windows, store: Store, key: string, limit: int, now: int, n: nat, first: int, last: int)
    requires InWindow(store, key, windows(key), now) && store[key].count + n <= limit
    requires first <= now <= last
    ensures AdmittedBetween(windows, store, Burst(key, limit, now, n), key, limit, first, last) == n
    ensures var after := Run(windows, store, Burst(key, limit, now, n));
            key in after && after[key] == Entry(store[key].count + n, store[key].startTime)
  {
    if n > 0 {
      BurstFits(windows, Next(windows, store, Call(key, limit, now)), key, limit, now, n - 1, first, last);
    }
  }

  /** A burst that opens a window is admitted up to the limit. */
  lemma BurstOpens(windows: Windows, store: Store, key: string, limit: int, now: int, n: nat, first: int, last: int)
    requires !InWindow(store, key, windows(key), now) && 1 <= n <= limit && windows(key) >= 0
    ensures AdmittedBetween(windows, store, Burst(key, limit, now, n), key, limit, first, last) == if first <= now <= last then n else 0
    ensures var after := Run(windows, store, Burst(key, limit, now, n)); key in after && after[key] == Entry(n, now)
  {
    var begun := Next(windows, store, Call(key, limit, now));
    assert begun[key] == Entry(1, now);
    assert Burst(key, limit, now, n)[1..] == Burst(key, limit, now, n - 1);
    BurstFits(windows, begun, key, limit, now, n - 1, now, now);
    if first <= now <= last {
      BurstFits(windows, begun, key, limit, now, n - 1, first, last);
    } else {
      OutsideCountsNothing(windows, begun, key, limit, now, n - 1, first, last);
    }
  }

  lemma {:induction false} OutsideCountsNothing(windows: Windows, store: Store, key: string, limit: int, now: int, n: nat, first: int, last: int)
    requires !(first <= now <= last)
    ensures AdmittedBetween(windows, store, Burst(key, limit, now, n), key, limit, first, last) == 0
    decreases n
  {
    hide Counted, Next;
    if n > 0 {
      assert Burst(key, limit, now, n)[1..] == Burst(key, limit, now, n - 1);
      OutsideCountsNothing(windows, Next(windows, store, Call(key, limit, now)), key, limit, now, n - 1, first, last);
    }
  }

  /** A status of a window that is open, or that a consume has just opened, tells its count and what
      comes: its `remaining` is how many of further calls with that limit at that instant are admitted,
      and the window lasts exactly `resetMs` longer. */
  ghost predicate Foretells(windows: Windows, store: Store, key: string, now: int, st: Status) {
    && key in store && st.count == store[key].count
    && (forall n: nat {:trigger Burst(key, st.limit, now, n)} ::
          AdmittedBetween(windows, store, Burst(key, st.limit, now, n), key, st.limit, now, now) == Min(n, st.remaining))
    && (forall t :: t >= now ==> (InWindow(store, key, windows(key), t) <==> t <= now + st.resetMs))
  }

  lemma {:induction false} BurstIsCutOff(windows: Windows, store: Store, key: string, limit: int, now: int, n: nat)
    requires InWindow(store, key, windows(key), now)
    ensures AdmittedBetween(windows, store, Burst(key, limit, now, n), key, limit, now, now) == Min(n, Max(0, limit - store[key].count))
    decreases n
  {
    if n > 0 {
      assert Burst(key, limit, now, n)[1..] == Burst(key, limit, now, n - 1);
      BurstIsCutOff(windows, Next(windows, store, Call(key, limit, now)), key, limit, now, n - 1);
    }
  }

  /** What a consume reports holds of the store it leaves, and what the status reports of the store as it
      is: of the open window, or of the one that a call now would open. */
  lemma StatusForetells(windows: Windows, store: Store, key: string, limit: int, now: int)
    requires windows(key) >= 0
    ensures Foretells(windows, Consumed(store, key, windows(key), now), key, now, ConsumeStatus(store, key, limit, windows(key), now))
    ensures InWindow(store, key, windows(key), now) ==> Foretells(windows, store, key, now, GetStatus(store, key, limit, windows(key), now))
    ensures var st := GetStatus(store, key, limit, windows(key), now);
      !InWindow(store, key, windows(key), now) ==>
        && st.remaining == limit && !st.limited
        && ConsumeStatus(store, key, limit, windows(key), now).remaining == Max(0, st.remaining - 1)
        && ConsumeStatus(store, key, limit, windows(key), now).resetMs == st.resetMs
  {
    var after, st := Consumed(store, key, windows(key), now), ConsumeStatus(store, key, limit, windows(key), now);
    forall n: nat ensures AdmittedBetween(windows, after, Burst(key, limit, now, n), key, limit, now, now) == Min(n, st.remaining) {
      BurstIsCutOff(windows, after, key, limit, now, n);
    }
    if InWindow(store, key, windows(key), now) {
      forall n: nat ensures AdmittedBetween(windows, store, Burst(key, limit, now, n), key, limit, now, now) == Min(n, Max(0, limit - store[key].count)) {
        BurstIsCutOff(windows, store, key, limit, now, n);
      }
    }
  }

  function CallsSince(calls: seq<Call>, key: string, start: int): nat {
    if calls == [] then 0 else Count(calls[0].key == key && calls[0].now >= start) + CallsSince(calls[1..], key, start)
  }

  /** The count of a key's window is the number of its calls since the window started, refused ones
      included, and a window gives way to the next only when its time is over. */
  lemma {:induction false} CountIsCalls(windows: Windows, store: Store, calls: seq<Call>, key: string, now: int)
    requires Clocked(calls, now) && Plausible(store, now) && windows(key) >= 0
    ensures var end := Run(windows, store, calls);
      && (key in store ==> key in end && (end[key].startTime == store[key].startTime || end[key].startTime > store[key].startTime + windows(key)))
      && (key in end ==>
            end[key].count == CallsSince(calls, key, end[key].startTime)
              + if key in store && store[key].startTime == end[key].startTime then store[key].count else 0)
    decreases |calls|
  {
    if calls != [] { CountIsCalls(windows, Next(windows, store, calls[0]), calls[1..], key, calls[0].now); }
  }

  /** The bound is met for every positive limit: one call opens a window, the rest of it is spent
      at its last instant, and a full window follows at once. */
  lemma IntervalCapIsReached(windows: Windows, key: string, limit: int)
    requires limit >= 1 && windows(key) > 0
    ensures var window := windows(key);
            var calls := Burst(key, limit, 0, 1) + (Burst(key, limit, window, limit - 1) + Burst(key, limit, window + 1, limit));
            AdmittedBetween(windows, map[], calls, key, limit, 1, 1 + window) == IntervalCap(limit)
  {
    hide Burst, Run, AdmittedBetween;
    var window := windows(key);
    var opening, late, anew := Burst(key, limit, 0, 1), Burst(key, limit, window, limit - 1), Burst(key, limit, window + 1, limit);
    BurstOpens(windows, map[], key, limit, 0, 1, 1, 1 + window);
    var begun := Run(windows, map[], opening);
    BurstFits(windows, begun, key, limit, window, limit - 1, 1, 1 + window);
    BurstOpens(windows, Run(windows, begun, late), key, limit, window + 1, limit, 1, 1 + window);
    AdmittedConcat(windows, map[], opening, late + anew, key, limit, 1, 1 + window);
    AdmittedConcat(windows, begun, late, anew, key, limit, 1, 1 + window);
  }

  /** Such calls admitted into the window that started at `start`. */
  function AdmittedInWindow(windows: Windows, store: Store, calls: seq<Call>, key: string, limit: int, start: int): nat
    decreases |calls|
  {
    if calls == [] then 0
    else
      var next := Next(windows, store, calls[0]);
      Count(Counted(windows, store, calls[0], key, limit) && next[key].startTime == start)
        + AdmittedInWindow(windows, next, calls[1..], key, limit, start)
  }

  lemma {:induction false} RunWithinWindow(windows: Windows, store: Store, calls: seq<Call>, key: string, limit: int, start: int, now: int, seen: int)
    requires Clocked(calls, now) && windows(key) >= 0
    requires key in store ==> 0 <= store[key].count && store[key].startTime <= now
    requires seen > 0 ==> key in store && start <= store[key].startTime && seen <= Max(0, limit)
    requires key in store && store[key].startTime == start ==> seen <= Min(store[key].count, Max(0, limit))
    ensures seen + AdmittedInWindow(windows, store, calls, key, limit, start) <= Max(0, limit)
    decreases |calls|
  {
    if calls != [] {
      var next := Next(windows, store, calls[0]);
      var counted := Count(Counted(windows, store, calls[0], key, limit) && next[key].startTime == start);
      RunWithinWindow(windows, next, calls[1..], key, limit, start, calls[0].now, seen + counted);
    }
  }

  /** No window admits more than `limit` of the calls with that limit or a lower one. */
  lemma WindowAdmitsTheLimit(windows: Windows, calls: seq<Call>, key: string, limit: int, start: int, now: int)
    requires Clocked(calls, now) && windows(key) >= 0
    ensures AdmittedInWindow(windows, map[], calls, key, limit, start) <= Max(0, limit)
  {
    RunWithinWindow(windows, map[], calls, key, limit, start, now, 0);
  }

  /** The calls of one key, in order. */
  function OwnCalls(calls: seq<Call>, key: string): seq<Call> {
    if calls == [] then []
    else (if calls[0].key == key then [calls[0]] else []) + OwnCalls(calls[1..], key)
  }

  predicate AgreeOn(a: Store, b: Store, key: string) {
    (key in a <==> key in b) && (key in a ==> a[key] == b[key])
  }

  lemma OwnCallAgrees(windows: Windows, a: Store, b: Store, call: Call, limit: int)
    requires AgreeOn(a, b, call.key)
    ensures AgreeOn(Next(windows, a, call), Next(windows, b, call), call.key)
    ensures Counted(windows, a, call, call.key, limit) <==> Counted(windows, b, call, call.key, limit)
  {}

  lemma OtherCallAgrees(windows: Windows, a: Store, b: Store, call: Call, key: string, limit: int)
    requires AgreeOn(a, b, key) && call.key != key
    ensures AgreeOn(Next(windows, a, call), b, key) && !Counted(windows, a, call, key, limit)
  {}

  /** Whatever other keys do in between, a key is admitted, in any interval, exactly as if its own
      calls were the only ones, and its entry ends the same. */
  lemma {:induction false} KeysAreIndependent(windows: Windows, store: Store, alone: Store, calls: seq<Call>, key: string, limit: int, first: int, last: int)
    requires AgreeOn(store, alone, key)
    ensures AdmittedBetween(windows, store, calls, key, limit, first, last) ==
              AdmittedBetween(windows, alone, OwnCalls(calls, key), key, limit, first, last)
    ensures AgreeOn(Run(windows, store, calls), Run(windows, alone, OwnCalls(calls, key)), key)
    decreases |calls|
  {
    hide Next, Counted, AgreeOn;
    if calls != [] {
      var call, rest := calls[0], OwnCalls(calls[1..], key);
      if call.key == key {
        OwnCallAgrees(windows, store, alone, call, limit);
        assert OwnCalls(calls, key)[1..] == rest;
        KeysAreIndependent(windows, Next(windows, store, call), Next(windows, alone, call), calls[1..], key, limit, first, last);
      } else {
        assert OwnCalls(calls, key) == rest;
        OtherCallAgrees(windows, store, alone, call, key, limit);
        KeysAreIndependent(windows, Next(windows, store, call), alone, calls[1..], key, limit, first, last);
      }
    }
  }
}
