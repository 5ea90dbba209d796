/** The service's cache with shared pending fetches, on one event loop. A synchronous stretch
    between two awaits is one atomic step; fetches end when and how they like. */
module FlightMachine {
  import opened Outcomes

  const DEFAULT_TTL_MS := 10_000

  type Key = string
  type Fid = nat
  type Cid = nat

  /** What a fetch yields; None is `undefined`, which the cache cannot tell from a miss. */
  type Data = Option<string>

  datatype Entry = Entry(data: Data, expiresAt: int)

  datatype FetchStatus = InFlight | Succeeded(data: Data) | Failed
  datatype Fetch = Fetch(key: Key, ttl: int, startedAt: int, endedAt: int, status: FetchStatus)

  /** Where a call gets its value from: an entry some fetch stored, or a fetch it waits for. */
  datatype Basis = FromCache(fid: Fid) | FromFlight(fid: Fid)
  datatype CallResult = Waiting | Returned(data: Data) | Threw
  datatype Call = Call(key: Key, at: int, basis: Basis, result: CallResult)

  datatype State = State(
    now: int, cache: map<Key, Entry>, storedBy: map<Key, Fid>, pending: map<Key, Fid>,
    fetches: map<Fid, Fetch>, calls: map<Cid, Call>)

  datatype Event =
    | Tick(ms: nat)
    | GetOrFetch(cid: Cid, key: Key, ttlMs: Option<int>, fid: Fid, throwsAtCall: bool)
    | Resolve(fid: Fid, data: Data)
    | Reject(fid: Fid)
    | Deliver(cid: Cid)

  predicate IsLive(entry: Entry, now: int) { now <= entry.expiresAt }

  /** `get`: the entry's value, while it is live. */
  function Cached(s: State, key: Key): Data {
    if key in s.cache && IsLive(s.cache[key], s.now) then s.cache[key].data else None
  }

  /** `get` drops an entry it finds expired. */
  function Dropped(s: State, key: Key): State {
    if key in s.cache && !IsLive(s.cache[key], s.now) then s.(cache := s.cache - {key}, storedBy := s.storedBy - {key}) else s
  }

  predicate Enabled(s: State, e: Event) {
    match e
    case Tick(_) => true
    case GetOrFetch(cid, _, _, fid, _) => cid !in s.calls && fid !in s.fetches
    case Resolve(fid, _) => fid in s.fetches && s.fetches[fid].status.InFlight?
    case Reject(fid) => fid in s.fetches && s.fetches[fid].status.InFlight?
    case Deliver(cid) =>
      && cid in s.calls && s.calls[cid].result.Waiting?
      && s.calls[cid].basis.fid in s.fetches && !s.fetches[s.calls[cid].basis.fid].status.InFlight?
  }

  function Asked(s: State, cid: Cid, key: Key, basis: Basis, result: CallResult): State {
    s.(calls := s.calls[cid := Call(key, s.now, basis, result)])
  }

  /** Calling an async fetcher always yields a promise, so whatever it throws, before its first await
      or later, arrives after the pending entry was made and clears it: that is `Reject`. Only a
      fetcher that is no async function and itself throws (`throwsAtCall`) runs the clean-up before
      the entry is made. The service passes no such fetcher. */
  function Started(s: State, key: Key, ttlMs: Option<int>, fid: Fid, throwsAtCall: bool): State {
    var ttl := if ttlMs.Some? then ttlMs.value else DEFAULT_TTL_MS;
    s.(fetches := s.fetches[fid := Fetch(key, ttl, s.now, s.now, if throwsAtCall then Failed else InFlight)],
       pending := s.pending[key := fid])
  }

  function Ended(s: State, fid: Fid, status: FetchStatus): State
    requires fid in s.fetches
  {
    var fetch := s.fetches[fid];
    s.(fetches := s.fetches[fid := fetch.(status := status, endedAt := s.now)], pending := s.pending - {fetch.key})
  }

  function Apply(s: State, e: Event): State {
    if !Enabled(s, e) then s
    else match e
      case Tick(ms) => s.(now := s.now + ms)
      case GetOrFetch(cid, key, ttlMs, fid, throwsAtCall) =>
        var looked := Dropped(s, key);
        var cached := Cached(s, key);
        if cached.Some? && key in s.storedBy then Asked(looked, cid, key, FromCache(s.storedBy[key]), Returned(cached))
        else if key in s.pending then Asked(looked, cid, key, FromFlight(s.pending[key]), Waiting)
        else Asked(Started(looked, key, ttlMs, fid, throwsAtCall), cid, key, FromFlight(fid), Waiting)
      case Resolve(fid, data) =>
        var fetch := s.fetches[fid];
        Ended(s, fid, Succeeded(data)).(
          cache := s.cache[fetch.key := Entry(data, s.now + fetch.ttl)],
          storedBy := s.storedBy[fetch.key := fid])
      case Reject(fid) => Ended(s, fid, Failed)
      case Deliver(cid) =>
        var call := s.calls[cid];
        var result := match s.fetches[call.basis.fid].status
          case Succeeded(data) => Returned(data)
          case _ => Threw;
        s.(calls := s.calls[cid := call.(result := result)])
  }

  function Run(s: State, events: seq<Event>): State
    decreases |events|
  {
    if events == [] then s else Run(Apply(s, events[0]), events[1..])
  }

  predicate Empty(s: State) {
    s.cache == map[] && s.storedBy == map[] && s.pending == map[] && s.fetches == map[] && s.calls == map[]
  }
}

module FlightProofs {
  import opened Outcomes
  import opened FlightMachine

  /** Every entry is what its fetch returned, and expires that fetch's ttl after it was stored. */
  ghost predicate EntriesOk(s: State) {
    && s.cache.Keys == s.storedBy.Keys
    && (forall k :: k in s.storedBy ==>
          && s.storedBy[k] in s.fetches
          && var f := s.fetches[s.storedBy[k]];
          f.key == k && f.status == Succeeded(s.cache[k].data) && s.cache[k].expiresAt == f.endedAt + f.ttl)
  }

  /** A fetch in flight is the pending one of its key; a pending fetch is of its key and has not
      succeeded. */
  ghost predicate PendingOk(s: State) {
    && (forall f :: f in s.fetches && s.fetches[f].status.InFlight? ==>
          s.fetches[f].key in s.pending && s.pending[s.fetches[f].key] == f)
    && (forall k :: k in s.pending ==>
          s.pending[k] in s.fetches && s.fetches[s.pending[k]].key == k && !s.fetches[s.pending[k]].status.Succeeded?)
  }

  ghost predicate FetchesOk(s: State) {
    forall f :: f in s.fetches ==>
      s.fetches[f].startedAt <= s.fetches[f].endedAt <= s.now || (s.fetches[f].status.InFlight? && s.fetches[f].startedAt <= s.now)
  }

  /** The fetch answers the call: same key, and at the call it was in flight, or had stored its
      result no longer ago than its own ttl. */
  predicate Answers(fetch: Fetch, call: Call) {
    && fetch.key == call.key
    && match call.basis
       case FromFlight(_) => fetch.startedAt <= call.at && (fetch.status.Succeeded? ==> call.at <= fetch.endedAt)
       case FromCache(_) => fetch.status.Succeeded? && fetch.endedAt <= call.at <= fetch.endedAt + fetch.ttl
  }

  ghost predicate CallsOk(s: State) {
    forall c :: c in s.calls ==> CallOk(s, s.calls[c])
  }

  ghost predicate CallOk(s: State, call: Call) {
    && call.at <= s.now
    && call.basis.fid in s.fetches && Answers(s.fetches[call.basis.fid], call)
    && (call.result.Returned? ==> s.fetches[call.basis.fid].status == Succeeded(call.result.data))
    && (call.result.Threw? ==> s.fetches[call.basis.fid].status.Failed?)
  }

  ghost predicate Inv(s: State) {
    EntriesOk(s) && PendingOk(s) && FetchesOk(s) && CallsOk(s)
  }

  lemma DroppedKeepsInv(s: State, key: Key)
    requires Inv(s)
    ensures Inv(Dropped(s, key))
  {}

  lemma AskedKeepsInv(s: State, cid: Cid, key: Key, basis: Basis, result: CallResult)
    requires Inv(s) && CallOk(s, Call(key, s.now, basis, result))
    ensures Inv(Asked(s, cid, key, basis, result))
  {}

  lemma StartedKeepsInv(s: State, key: Key, ttlMs: Option<int>, fid: Fid, throwsAtCall: bool)
    requires Inv(s) && fid !in s.fetches && key !in s.pending
    ensures Inv(Started(s, key, ttlMs, fid, throwsAtCall))
  {}

  lemma CachedCallOk(s: State, key: Key)
    requires Inv(s) && Cached(s, key).Some?
    ensures key in s.storedBy && CallOk(Dropped(s, key), Call(key, s.now, FromCache(s.storedBy[key]), Returned(Cached(s, key))))
  {}

  lemma FlightCallOk(s: State, key: Key)
    requires Inv(s) && key in s.pending
    ensures CallOk(s, Call(key, s.now, FromFlight(s.pending[key]), Waiting))
  {}

  lemma CallKeepsInv(s: State, cid: Cid, key: Key, ttlMs: Option<int>, fid: Fid, throwsAtCall: bool)
    requires Inv(s) && Enabled(s, GetOrFetch(cid, key, ttlMs, fid, throwsAtCall))
    ensures Inv(Apply(s, GetOrFetch(cid, key, ttlMs, fid, throwsAtCall)))
  {
    hide Inv, CallOk;
    var looked, cached := Dropped(s, key), Cached(s, key);
    DroppedKeepsInv(s, key);
    if cached.Some? {
      CachedCallOk(s, key);
      AskedKeepsInv(looked, cid, key, FromCache(s.storedBy[key]), Returned(cached));
    } else if key in s.pending {
      FlightCallOk(looked, key);
      AskedKeepsInv(looked, cid, key, FromFlight(s.pending[key]), Waiting);
    } else {
      var started := Started(looked, key, ttlMs, fid, throwsAtCall);
      StartedKeepsInv(looked, key, ttlMs, fid, throwsAtCall);
      FlightCallOk(started, key);
      AskedKeepsInv(started, cid, key, FromFlight(fid), Waiting);
    }
  }

  lemma ResolveKeepsInv(s: State, fid: Fid, data: Data)
    requires Inv(s) && Enabled(s, Resolve(fid, data))
    ensures Inv(Apply(s, Resolve(fid, data)))
  {}

  lemma RejectKeepsInv(s: State, fid: Fid)
    requires Inv(s) && Enabled(s, Reject(fid))
    ensures Inv(Apply(s, Reject(fid)))
  {}

  lemma StepKeepsInv(s: State, e: Event)
    requires Inv(s)
    ensures Inv(Apply(s, e))
  {
    if Enabled(s, e) {
      match e
      case GetOrFetch(cid, key, ttlMs, fid, throwsAtCall) => CallKeepsInv(s, cid, key, ttlMs, fid, throwsAtCall);
      case Resolve(fid, data) => ResolveKeepsInv(s, fid, data);
      case Reject(fid) => RejectKeepsInv(s, fid);
      case _ =>
    }
  }

  lemma {:induction false} RunKeepsInv(s: State, events: seq<Event>)
    requires Inv(s)
    ensures Inv(Run(s, events))
    decreases |events|
  {
    hide Inv;
    if events != [] {
      StepKeepsInv(s, events[0]);
      RunKeepsInv(Apply(s, events[0]), events[1..]);
    }
  }

  /** In every run at most one fetch per key is in flight. */
  lemma OneFetchPerKey(s: State, events: seq<Event>, f: Fid, g: Fid)
    requires Empty(s)
    requires var end := Run(s, events);
             && f in end.fetches && g in end.fetches && end.fetches[f].key == end.fetches[g].key
             && end.fetches[f].status.InFlight? && end.fetches[g].status.InFlight?
    ensures f == g
  {
    RunKeepsInv(s, events);
  }

  /** In every run every value returned came from a fetch of the same key that was in flight at the
      call, or whose result had been stored no longer ago than the storing call's ttl. */
  lemma ReturnedValuesAreCurrent(s: State, events: seq<Event>, c: Cid)
    requires Empty(s) && c in Run(s, events).calls && Run(s, events).calls[c].result.Returned?
    ensures var end := Run(s, events);
            var call := end.calls[c];
            && call.basis.fid in end.fetches
            && end.fetches[call.basis.fid].status == Succeeded(call.result.data)
            && Answers(end.fetches[call.basis.fid], call)
  {
    RunKeepsInv(s, events);
  }

  // ---- Failures ---------------------------------------------------------------------

  /** Calling now starts a fetch of the key. */
  predicate StartsFetch(s: State, key: Key) { Cached(s, key).None? && key !in s.pending }

  /** The pending promise of the key has already been rejected, so nothing will ever clear it. */
  predicate Stuck(s: State, key: Key) {
    key in s.pending && s.pending[key] in s.fetches && s.fetches[s.pending[key]].status.Failed?
  }

  /** The call starts a fetch of the key, with a fetcher that throws at the call. */
  predicate ThrowsFor(s: State, e: Event, key: Key) {
    e.GetOrFetch? && Enabled(s, e) && e.key == key && e.throwsAtCall && e.fid in Apply(s, e).fetches
  }

  lemma StuckByCall(s: State, e: Event, key: Key)
    requires PendingOk(s) && e.GetOrFetch?
    ensures Stuck(Apply(s, e), key) <==> Stuck(s, key) || ThrowsFor(s, e, key)
  {
    if Enabled(s, e) {
      var next := Apply(s, e);
      assert forall f :: f in s.fetches ==> f in next.fetches && next.fetches[f] == s.fetches[f];
      assert key in s.pending ==> key in next.pending && next.pending[key] == s.pending[key];
    }
  }

  lemma StuckByEnding(s: State, e: Event, key: Key)
    requires PendingOk(s) && (e.Resolve? || e.Reject?)
    ensures Stuck(Apply(s, e), key) <==> Stuck(s, key)
  {
    if Enabled(s, e) && s.fetches[e.fid].key == key { assert s.pending[key] == e.fid; }
  }

  lemma StuckStep(s: State, e: Event, key: Key)
    requires Inv(s)
    ensures Stuck(Apply(s, e), key) <==> Stuck(s, key) || ThrowsFor(s, e, key)
  {
    match e
    case Tick(_) =>
    case GetOrFetch(_, _, _, _, _) => StuckByCall(s, e, key);
    case Deliver(_) =>
    case _ => StuckByEnding(s, e, key);
  }

  predicate ThrowsInRun(s: State, events: seq<Event>, key: Key)
    decreases |events|
  {
    events != [] && (ThrowsFor(s, events[0], key) || ThrowsInRun(Apply(s, events[0]), events[1..], key))
  }

  /** A key gets stuck exactly by a fetch of it whose fetcher throws at the call, and stays so. */
  lemma {:induction false} StuckExactlyAfterThrow(s: State, events: seq<Event>, key: Key)
    requires Inv(s)
    ensures Stuck(Run(s, events), key) <==> Stuck(s, key) || ThrowsInRun(s, events, key)
    decreases |events|
  {
    hide Inv, Stuck, ThrowsFor, Apply;
    if events != [] {
      StepKeepsInv(s, events[0]);
      StuckStep(s, events[0], key);
      StuckExactlyAfterThrow(Apply(s, events[0]), events[1..], key);
    }
  }

  /** A stuck key stays stuck in every continuation: no call fetches it any more. */
  lemma {:induction false} StuckForever(s: State, events: seq<Event>, key: Key)
    requires Inv(s) && Stuck(s, key)
    ensures Stuck(Run(s, events), key) && !StartsFetch(Run(s, events), key)
  {
    StuckExactlyAfterThrow(s, events, key);
  }

  ghost predicate InFlightOf(s: State, key: Key) {
    exists f :: f in s.fetches && s.fetches[f].key == key && s.fetches[f].status.InFlight?
  }

  lemma PendingIsInFlightOrStuck(s: State, key: Key)
    requires Inv(s)
    ensures key in s.pending <==> InFlightOf(s, key) || Stuck(s, key)
  {}

  lemma CallStarts(s: State, call: Event)
    requires Inv(s) && call.GetOrFetch? && Enabled(s, call)
    ensures call.fid in Apply(s, call).fetches <==> StartsFetch(s, call.key)
    ensures call.fid in Apply(s, call).fetches ==> Apply(s, call).fetches[call.fid].key == call.key
    ensures Apply(s, call).calls[call.cid].result == if Cached(s, call.key).Some? then Returned(Cached(s, call.key)) else Waiting
    ensures call.key in Apply(s, call).cache ==> s.now <= Apply(s, call).cache[call.key].expiresAt
  {}

  // ---- How long a value is served ---------------------------------------------------

  /** The step stores a value of the key. */
  predicate StoresFor(s: State, e: Event, key: Key) { e.Resolve? && Enabled(s, e) && s.fetches[e.fid].key == key }

  predicate NeverStores(s: State, events: seq<Event>, key: Key)
    decreases |events|
  {
    events == [] || (!StoresFor(s, events[0], key) && NeverStores(Apply(s, events[0]), events[1..], key))
  }

  /** The key's entry is this one, or was dropped after its time. */
  predicate Kept(s: State, key: Key, entry: Entry) {
    if key in s.cache then s.cache[key] == entry && key in s.storedBy else entry.expiresAt < s.now
  }

  lemma StepKeepsEntry(s: State, e: Event, key: Key, entry: Entry)
    requires Kept(s, key, entry) && !StoresFor(s, e, key) && s.cache.Keys == s.storedBy.Keys
    ensures Kept(Apply(s, e), key, entry) && Apply(s, e).cache.Keys == Apply(s, e).storedBy.Keys && s.now <= Apply(s, e).now
  {}

  lemma {:induction false} RunKeepsEntry(s: State, events: seq<Event>, key: Key, entry: Entry)
    requires Kept(s, key, entry) && NeverStores(s, events, key) && s.cache.Keys == s.storedBy.Keys
    ensures Kept(Run(s, events), key, entry) && s.now <= Run(s, events).now
    decreases |events|
  {
    hide Apply, StoresFor, Kept;
    if events != [] {
      StepKeepsEntry(s, events[0], key, entry);
      RunKeepsEntry(Apply(s, events[0]), events[1..], key, entry);
    }
  }

  lemma {:induction false} FetchKeepsTtl(s: State, events: seq<Event>, fid: Fid)
    requires fid in s.fetches
    ensures var end := Run(s, events);
            fid in end.fetches && end.fetches[fid].ttl == s.fetches[fid].ttl && end.fetches[fid].key == s.fetches[fid].key
    decreases |events|
  {
    if events != [] { FetchKeepsTtl(Apply(s, events[0]), events[1..], fid); }
  }

  /** A value fetched by a call is served from the cache for exactly the call's ttl after it arrived, ten
      seconds if the call gives none, whatever else goes on, until another value of the key is stored. */
  lemma FetchedValueIsServedExactly(s: State, call: Event, before: seq<Event>, data: Data, events: seq<Event>)
    requires Inv(s) && call.GetOrFetch? && Enabled(s, call) && StartsFetch(s, call.key)
    requires var at := Run(Apply(s, call), before);
             Enabled(at, Resolve(call.fid, data)) && NeverStores(Apply(at, Resolve(call.fid, data)), events, call.key)
    ensures var at := Run(Apply(s, call), before);
            var end := Run(Apply(at, Resolve(call.fid, data)), events);
            var ttl := if call.ttlMs.Some? then call.ttlMs.value else 10_000;
            && Cached(end, call.key) == (if end.now <= at.now + ttl then data else None)
  {
    CallStarts(s, call);
    StepKeepsInv(s, call);
    FetchKeepsTtl(Apply(s, call), before, call.fid);
    RunKeepsInv(Apply(s, call), before);
    var at := Run(Apply(s, call), before);
    StepKeepsInv(at, Resolve(call.fid, data));
    var stored := Apply(at, Resolve(call.fid, data));
    hide Inv, Run;
    RunKeepsEntry(stored, events, call.key, stored.cache[call.key]);
  }

  /** In every run a call starts a fetch of its key if and only if no live value is cached, no fetch
      of the key is in flight, and none was ever started with a fetcher that throws at the call. */
  lemma {:induction false} StartsFetchExactly(s: State, events: seq<Event>, call: Event)
    requires Empty(s) && call.GetOrFetch? && Enabled(Run(s, events), call)
    ensures var end := Run(s, events);
            call.fid in Apply(end, call).fetches <==>
              Cached(end, call.key).None? && !InFlightOf(end, call.key) && !ThrowsInRun(s, events, call.key)
  {
    var end := Run(s, events);
    assert Inv(s) && !Stuck(s, call.key);
    hide Inv, Empty, Stuck, Apply, Run, Enabled, Cached;
    RunKeepsInv(s, events);
    StuckExactlyAfterThrow(s, events, call.key);
    PendingIsInFlightOrStuck(end, call.key);
    CallStarts(end, call);
  }

  predicate Asynchronous(events: seq<Event>) {
    forall i :: 0 <= i < |events| && events[i].GetOrFetch? ==> !events[i].throwsAtCall
  }

  lemma {:induction false} AsynchronousNeverThrows(s: State, events: seq<Event>, key: Key)
    requires Asynchronous(events)
    ensures !ThrowsInRun(s, events, key)
    decreases |events|
  {
    hide Apply;
    if events != [] { AsynchronousNeverThrows(Apply(s, events[0]), events[1..], key); }
  }

  /** With async fetchers, the only ones the service passes, a call starts a fetch if and only if no
      live value is cached and no fetch of the key is in flight: whatever failed before, and however
      early, the key is retriable. */
  lemma AsynchronousCallsStartExactly(s: State, events: seq<Event>, call: Event)
    requires Empty(s) && Asynchronous(events) && call.GetOrFetch? && Enabled(Run(s, events), call)
    ensures var end := Run(s, events);
            call.fid in Apply(end, call).fetches <==> Cached(end, call.key).None? && !InFlightOf(end, call.key)
  {
    AsynchronousNeverThrows(s, events, call.key);
    StartsFetchExactly(s, events, call);
  }

  /** With async fetchers no key is ever stuck: whatever is pending is in flight. */
  lemma {:induction false} AsynchronousRunsNeverStick(s: State, events: seq<Event>)
    requires Inv(s) && (forall k :: !Stuck(s, k)) && Asynchronous(events)
    ensures forall k :: !Stuck(Run(s, events), k)
  {
    forall k ensures !Stuck(Run(s, events), k) {
      AsynchronousNeverThrows(s, events, k);
      StuckExactlyAfterThrow(s, events, k);
    }
  }
}

/** The cache object: its two maps, updated in place. */
module SingleFlightCache {
  import opened Outcomes
  import opened FlightMachine

  class DefindexCache {
    var now: int
    var cache: map<Key, Entry>
    var pendingPromises: map<Key, Fid>
    ghost var storedBy: map<Key, Fid>
    var fetches: map<Fid, Fetch>
    ghost var calls: map<Cid, Call>

    ghost function Model(): State
      reads this
    {
      State(now, cache, storedBy, pendingPromises, fetches, calls)
    }

    ghost predicate Valid()
      reads this
    {
      cache.Keys == storedBy.Keys
    }

    constructor (now: int)
      ensures Valid() && Model() == State(now, map[], map[], map[], map[], map[])
    {
      this.now := now;
      cache, pendingPromises, storedBy, fetches, calls := map[], map[], map[], map[], map[];
    }

    method Get(key: Key) returns (data: Data)
      requires Valid()
      modifies `cache, `storedBy
      ensures Valid() && Model() == Dropped(old(Model()), key) && data == Cached(old(Model()), key)
    {
      if key !in cache { return None; }
      if now > cache[key].expiresAt {
        cache := cache - {key};
        storedBy := storedBy - {key};
        return None;
      }
      data := cache[key].data;
    }

    method Set(key: Key, data: Data, ttl: int, ghost fid: Fid)
      requires Valid()
      modifies `cache, `storedBy
      ensures Valid()
      ensures cache == old(cache)[key := Entry(data, now + ttl)] && storedBy == old(storedBy)[key := fid]
    {
      cache := cache[key := Entry(data, now + ttl)];
      storedBy := storedBy[key := fid];
    }

    /** The synchronous part of a call: a cached value, the pending promise, or a new one. */
    method GetOrFetch(ghost cid: Cid, key: Key, ttlMs: Option<int>, fid: Fid, throwsAtCall: bool)
      returns (cached: Data, promise: Fid)
      requires Valid() && cid !in calls && fid !in fetches
      modifies this
      ensures Valid() && Model() == Apply(old(Model()), Event.GetOrFetch(cid, key, ttlMs, fid, throwsAtCall))
      ensures cached == Cached(old(Model()), key)
      ensures cached.None? ==> promise == if key in old(pendingPromises) then old(pendingPromises)[key] else fid
    {
      promise := fid;
      ghost var source := if key in storedBy then storedBy[key] else 0;
      cached := Get(key);
      if cached.Some? {
        calls := calls[cid := Call(key, now, FromCache(source), Returned(cached))];
        return;
      }
      if key in pendingPromises {
        promise := pendingPromises[key];
        calls := calls[cid := Call(key, now, FromFlight(promise), Waiting)];
        return;
      }
      StartFetch(key, ttlMs, fid, throwsAtCall);
      calls := calls[cid := Call(key, now, FromFlight(fid), Waiting)];
    }

    method StartFetch(key: Key, ttlMs: Option<int>, fid: Fid, throwsAtCall: bool)
      requires key !in pendingPromises
      modifies `fetches, `pendingPromises
      ensures Model() == Started(old(Model()), key, ttlMs, fid, throwsAtCall)
    {
      var ttl := if ttlMs.Some? then ttlMs.value else DEFAULT_TTL_MS;
      var status := InFlight;
      if throwsAtCall {
        pendingPromises := pendingPromises - {key};
        status := Failed;
      }
      fetches := fetches[fid := Fetch(key, ttl, now, now, status)];
      pendingPromises := pendingPromises[key := fid];
    }

    method Resolve(fid: Fid, data: Data)
      requires Valid() && fid in fetches && fetches[fid].status.InFlight?
      modifies this
      ensures Valid() && Model() == Apply(old(Model()), Event.Resolve(fid, data))
    {
      var key := fetches[fid].key;
      Set(key, data, fetches[fid].ttl, fid);
      pendingPromises := pendingPromises - {key};
      fetches := fetches[fid := fetches[fid].(status := Succeeded(data), endedAt := now)];
    }

    method Reject(fid: Fid)
      requires Valid() && fid in fetches && fetches[fid].status.InFlight?
      modifies this
      ensures Valid() && Model() == Apply(old(Model()), Event.Reject(fid))
    {
      pendingPromises := pendingPromises - {fetches[fid].key};
      fetches := fetches[fid := fetches[fid].(status := Failed, endedAt := now)];
    }
  }
}
