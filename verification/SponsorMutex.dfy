/** The hand-off mutex around the sponsor account, with any number of builders on one event loop.
    A synchronous stretch between two awaits is one atomic step. With `refresh` never set this is
    the account-creation builder; with it, the trustline builder. */
module SponsorMutex {
  import opened Outcomes

  type Bid = nat

  datatype Phase = Queued | Granted | Loading | Finished

  datatype Builder = Builder(refresh: bool, phase: Phase)

  /** How building and signing ends; `build` itself is what increments the account. */
  datatype BuildOutcome = Signed | ThrowsBeforeBuild | ThrowsAfterBuild

  /** An envelope's sequence number, and how many account loads had been made before it. */
  datatype Envelope = Envelope(loads: nat, sequence: int)

  /** The lock, with the builders that came, in order of arrival, and those it was granted to. */
  datatype Mutex = Mutex(isFetching: bool, queue: seq<Bid>, builders: map<Bid, Builder>, arrivals: seq<Bid>, grants: seq<Bid>)

  /** The cached account's sequence number, the numbers loaded so far, and the envelopes built. */
  datatype Sponsor = Sponsor(account: Option<int>, loads: seq<int>, envelopes: seq<Envelope>)

  datatype State = State(mutex: Mutex, sponsor: Sponsor)

  datatype Event =
    | Arrive(b: Bid, refresh: bool)
    | Resume(b: Bid, outcome: BuildOutcome)
    | Loaded(b: Bid, sequence: int, outcome: BuildOutcome)
    | LoadFails(b: Bid)

  function SetPhase(m: Mutex, b: Bid, phase: Phase): Mutex
    requires b in m.builders
  {
    m.(builders := m.builders[b := m.builders[b].(phase := phase)])
  }

  function Lock(m: Mutex, b: Bid): Mutex
    requires b in m.builders
  {
    if !m.isFetching then SetPhase(m, b, Granted).(isFetching := true, grants := m.grants + [b])
    else SetPhase(m, b, Queued).(queue := m.queue + [b])
  }

  /** Hands the lock to the first waiter without ever releasing it, or releases it. */
  function Unlock(m: Mutex): Mutex {
    if m.queue != [] then
      var next := m.queue[0];
      var shifted := m.(queue := m.queue[1..], grants := m.grants + [next]);
      if next in m.builders then SetPhase(shifted, next, Granted) else shifted
    else m.(isFetching := false)
  }

  /** `new Account(...)` from what the server returned. */
  function Load(p: Sponsor, sequence: int): Sponsor {
    p.(account := Some(sequence), loads := p.loads + [sequence])
  }

  /** `build` takes the next number; a throw drops the cached account. */
  function Build(p: Sponsor, outcome: BuildOutcome): Sponsor
    requires p.account.Some?
  {
    if outcome.Signed? then
      var sequence := p.account.value + 1;
      p.(account := Some(sequence), envelopes := p.envelopes + [Envelope(|p.loads|, sequence)])
    else p.(account := None)
  }

  predicate NeedsLoad(s: State, b: Bid)
    requires b in s.mutex.builders
  {
    s.sponsor.account.None? || s.mutex.builders[b].refresh
  }

  predicate InPhase(s: State, b: Bid, phase: Phase) {
    b in s.mutex.builders && s.mutex.builders[b].phase == phase
  }

  predicate Enabled(s: State, e: Event) {
    match e
    case Arrive(b, _) => b !in s.mutex.builders
    case Resume(b, _) => InPhase(s, b, Granted)
    case Loaded(b, _, _) => InPhase(s, b, Loading)
    case LoadFails(b) => InPhase(s, b, Loading)
  }

  function Arrived(m: Mutex, b: Bid, refresh: bool): Mutex {
    Lock(m.(builders := m.builders[b := Builder(refresh, Queued)], arrivals := m.arrivals + [b]), b)
  }

  /** The `finally` block. */
  function Leave(m: Mutex, b: Bid): Mutex
    requires b in m.builders
  {
    Unlock(SetPhase(m, b, Finished))
  }

  function Apply(s: State, e: Event): State {
    if !Enabled(s, e) then s
    else match e
      case Arrive(b, refresh) => s.(mutex := Arrived(s.mutex, b, refresh))
      case Resume(b, outcome) =>
        if NeedsLoad(s, b) then s.(mutex := SetPhase(s.mutex, b, Loading))
        else State(Leave(s.mutex, b), Build(s.sponsor, outcome))
      case Loaded(b, sequence, outcome) => State(Leave(s.mutex, b), Build(Load(s.sponsor, sequence), outcome))
      case LoadFails(b) => State(Leave(s.mutex, b), s.sponsor.(account := None))
  }

  function Run(s: State, events: seq<Event>): State
    decreases |events|
  {
    if events == [] then s else Run(Apply(s, events[0]), events[1..])
  }

  const IDLE := State(Mutex(false, [], map[], [], []), Sponsor(None, [], []))
}

module SponsorMutexProofs {
  import opened Outcomes
  import opened SponsorMutex

  predicate Holds(m: Mutex, b: Bid) {
    b in m.builders && (m.builders[b].phase.Granted? || m.builders[b].phase.Loading?)
  }

  /** What the arrival of rank `i` must be doing when `granted` arrivals have had the lock. */
  predicate RankFits(phase: Phase, i: int, granted: int, isFetching: bool) {
    if i >= granted then phase.Queued?
    else if i == granted - 1 && isFetching then phase.Granted? || phase.Loading?
    else phase.Finished?
  }

  /** The lock is granted in arrival order: the first arrivals have had it, the latest of them
      holds it while it is held, and the rest wait in order. */
  ghost predicate Fair(m: Mutex) {
    && |m.grants| <= |m.arrivals| && m.grants == m.arrivals[..|m.grants|] && m.queue == m.arrivals[|m.grants|..]
    && (forall i, j :: 0 <= i < j < |m.arrivals| ==> m.arrivals[i] != m.arrivals[j])
    && (forall b :: b in m.builders ==> b in m.arrivals)
    && (m.isFetching ==> m.grants != []) && (m.queue != [] ==> m.isFetching)
    && (forall i :: 0 <= i < |m.arrivals| ==>
          m.arrivals[i] in m.builders && RankFits(m.builders[m.arrivals[i]].phase, i, |m.grants|, m.isFetching))
  }

  lemma ArriveIsFair(m: Mutex, b: Bid, refresh: bool)
    requires Fair(m) && b !in m.builders
    ensures Fair(Arrived(m, b, refresh))
  {
    var next := Arrived(m, b, refresh);
    assert b !in m.arrivals;
    assert next.arrivals == m.arrivals + [b];
    if m.isFetching {
      assert next.grants == next.arrivals[..|next.grants|];
    } else {
      assert m.grants == m.arrivals;
    }
  }

  lemma HolderIsLast(m: Mutex, b: Bid)
    requires Fair(m) && Holds(m, b)
    ensures m.isFetching && b == m.grants[|m.grants| - 1] == m.arrivals[|m.grants| - 1]
  {
    var i :| 0 <= i < |m.arrivals| && m.arrivals[i] == b;
  }

  lemma LeaveIsFair(m: Mutex, b: Bid)
    requires Fair(m) && Holds(m, b)
    ensures Fair(Leave(m, b))
  {
    HolderIsLast(m, b);
    if m.queue != [] { HandOffIsFair(m, b); } else { ReleaseIsFair(m, b); }
  }

  lemma HandOffIsFair(m: Mutex, b: Bid)
    requires Fair(m) && m.isFetching && m.queue != [] && b in m.builders && b == m.arrivals[|m.grants| - 1]
    ensures Fair(Leave(m, b))
  {
    var next, n := Leave(m, b), |m.grants|;
    var first := m.arrivals[n];
    assert m.queue[0] == first;
    assert m.arrivals[..n + 1] == m.arrivals[..n] + [first];
    forall i | 0 <= i < |m.arrivals|
      ensures m.arrivals[i] in next.builders && RankFits(next.builders[m.arrivals[i]].phase, i, n + 1, true)
    {
      if i < n - 1 || i > n { assert m.arrivals[i] != b && m.arrivals[i] != first; }
    }
  }

  lemma ReleaseIsFair(m: Mutex, b: Bid)
    requires Fair(m) && m.isFetching && m.queue == [] && b in m.builders && b == m.arrivals[|m.grants| - 1]
    ensures Fair(Leave(m, b))
  {
    var next, n := Leave(m, b), |m.grants|;
    forall i | 0 <= i < |m.arrivals|
      ensures m.arrivals[i] in next.builders && RankFits(next.builders[m.arrivals[i]].phase, i, n, false)
    {
      if i < n - 1 { assert m.arrivals[i] != b; }
    }
  }

  lemma LoadingIsFair(m: Mutex, b: Bid)
    requires Fair(m) && Holds(m, b)
    ensures Fair(SetPhase(m, b, Loading))
  {
    HolderIsLast(m, b);
  }

  lemma StepIsFair(s: State, e: Event)
    requires Fair(s.mutex)
    ensures Fair(Apply(s, e).mutex)
  {
    hide Fair;
    if Enabled(s, e) {
      match e
      case Arrive(b, refresh) => ArriveIsFair(s.mutex, b, refresh);
      case Resume(b, _) => LoadingIsFair(s.mutex, b); LeaveIsFair(s.mutex, b);
      case Loaded(b, _, _) => LeaveIsFair(s.mutex, b);
      case LoadFails(b) => LeaveIsFair(s.mutex, b);
    }
  }

  lemma {:induction false} RunIsFair(s: State, events: seq<Event>)
    requires Fair(s.mutex)
    ensures Fair(Run(s, events).mutex)
    decreases |events|
  {
    hide Fair;
    if events != [] {
      StepIsFair(s, events[0]);
      RunIsFair(Apply(s, events[0]), events[1..]);
    }
  }

  lemma IdleIsFair()
    ensures Fair(IDLE.mutex)
  {}

  lemma FairIsExclusive(m: Mutex, b: Bid, c: Bid)
    requires Fair(m) && Holds(m, b) && Holds(m, c)
    ensures b == c
  {
    hide Fair, Holds;
    HolderIsLast(m, b);
    HolderIsLast(m, c);
  }

  lemma FairHasHolder(m: Mutex)
    requires Fair(m)
    ensures m.grants + m.queue == m.arrivals
    ensures m.queue != [] ==> m.grants != [] && Holds(m, m.grants[|m.grants| - 1])
  {
    if m.queue != [] { assert m.grants[|m.grants| - 1] == m.arrivals[|m.grants| - 1]; }
  }

  /** In every run at most one builder is inside the critical section, waiters are woken in
      arrival order, and nobody waits for a lock that no one holds. */
  lemma OneBuilderAtATime(events: seq<Event>, b: Bid, c: Bid)
    ensures var m := Run(IDLE, events).mutex;
            && (Holds(m, b) && Holds(m, c) ==> b == c)
            && m.grants + m.queue == m.arrivals
            && (m.queue != [] ==> m.grants != [] && Holds(m, m.grants[|m.grants| - 1]))
  {
    hide Fair, Holds, Run;
    IdleIsFair();
    RunIsFair(IDLE, events);
    var m := Run(IDLE, events).mutex;
    FairHasHolder(m);
    if Holds(m, b) && Holds(m, c) { FairIsExclusive(m, b, c); }
  }

  /** While anyone waits, whoever holds the lock has a step to take, so the queue is never stuck. */
  lemma HolderCanMove(events: seq<Event>)
    requires Run(IDLE, events).mutex.queue != []
    ensures exists b :: Enabled(Run(IDLE, events), Resume(b, Signed)) || Enabled(Run(IDLE, events), LoadFails(b))
  {
    OneBuilderAtATime(events, 0, 0);
    var s := Run(IDLE, events);
    hide Run;
    var holder := s.mutex.grants[|s.mutex.grants| - 1];
    assert Enabled(s, Resume(holder, Signed)) || Enabled(s, LoadFails(holder));
  }

  /** The step gives up the lock its builder held. */
  predicate Releases(s: State, e: Event) {
    Enabled(s, e) && match e
      case Arrive(_, _) => false
      case Resume(b, _) => !NeedsLoad(s, b)
      case Loaded(_, _, _) => true
      case LoadFails(_) => true
  }

  function CountReleases(s: State, events: seq<Event>): nat
    decreases |events|
  {
    if events == [] then 0 else (if Releases(s, events[0]) then 1 else 0) + CountReleases(Apply(s, events[0]), events[1..])
  }

  /** A waiter keeps its place until a release, which moves it up by one. */
  lemma QueueMoves(s: State, e: Event, k: nat)
    requires k < |s.mutex.queue| && s.mutex.isFetching
    ensures var b, next := s.mutex.queue[k], Apply(s, e).mutex;
            if !Releases(s, e) then k < |next.queue| && next.queue[k] == b
            else if k == 0 then b in next.grants
            else k - 1 < |next.queue| && next.queue[k - 1] == b
  {
    if Releases(s, e) && k == 0 {
      assert Apply(s, e).mutex.grants[|s.mutex.grants|] == s.mutex.queue[0];
    }
  }

  lemma GrantsStay(s: State, e: Event, b: Bid)
    requires b in s.mutex.grants
    ensures b in Apply(s, e).mutex.grants
  {}

  lemma {:induction false} GrantsStayOverRun(s: State, events: seq<Event>, b: Bid)
    requires b in s.mutex.grants
    ensures b in Run(s, events).mutex.grants
    decreases |events|
  {
    if events != [] {
      GrantsStay(s, events[0], b);
      GrantsStayOverRun(Apply(s, events[0]), events[1..], b);
    }
  }

  lemma WaitersMeanHeld(m: Mutex)
    requires Fair(m) && m.queue != []
    ensures m.isFetching
  {}

  /** No wake-up is lost: the waiter at position k has the lock after at most k + 1 releases. */
  lemma {:induction false} WaiterIsServed(s: State, events: seq<Event>, k: nat)
    requires Fair(s.mutex) && k < |s.mutex.queue| && CountReleases(s, events) > k
    ensures s.mutex.queue[k] in Run(s, events).mutex.grants
    decreases |events|
  {
    hide Fair, Apply, Releases;
    var e, next, b := events[0], Apply(s, events[0]), s.mutex.queue[k];
    WaitersMeanHeld(s.mutex);
    StepIsFair(s, e);
    QueueMoves(s, e, k);
    if !Releases(s, e) {
      WaiterIsServed(next, events[1..], k);
    } else if k == 0 {
      GrantsStayOverRun(next, events[1..], b);
    } else {
      WaiterIsServed(next, events[1..], k - 1);
    }
  }

  // ---- When the account is loaded ---------------------------------------------------

  /** Whether the section that the step ends, if it ends one, came to a signed envelope. */
  function EndsSigned(s: State, e: Event): Option<bool> {
    if !Releases(s, e) then None
    else match e
      case Resume(_, outcome) => Some(outcome.Signed?)
      case Loaded(_, _, outcome) => Some(outcome.Signed?)
      case _ => Some(false)
  }

  /** Whether the last section that ended came to one; `before` if none ended. */
  function LastSigned(s: State, events: seq<Event>, before: bool): bool
    decreases |events|
  {
    if events == [] then before
    else LastSigned(Apply(s, events[0]), events[1..], match EndsSigned(s, events[0]) case Some(signed) => signed case None => before)
  }

  lemma {:induction false} CachedAfterSigned(s: State, events: seq<Event>)
    ensures Run(s, events).sponsor.account.Some? <==> LastSigned(s, events, s.sponsor.account.Some?)
    decreases |events|
  {
    if events != [] { CachedAfterSigned(Apply(s, events[0]), events[1..]); }
  }

  /** In every run a builder that gets the lock loads the account if and only if it was told to refresh,
      or the last builder before it failed, or there was none: a failure at any point, and of the load
      itself, leaves no account behind for the next one. */
  lemma LoadsExactlyAfterFailure(events: seq<Event>, b: Bid, outcome: BuildOutcome)
    requires Enabled(Run(IDLE, events), Resume(b, outcome))
    ensures var s := Run(IDLE, events);
            InPhase(Apply(s, Resume(b, outcome)), b, Loading) <==> s.mutex.builders[b].refresh || !LastSigned(IDLE, events, false)
  {
    CachedAfterSigned(IDLE, events);
    RunIsFair(IDLE, events);
    var s := Run(IDLE, events);
    hide Run, LastSigned;
    if !NeedsLoad(s, b) {
      LeaveIsFair(s.mutex, b);
    }
  }

  // ---- Sequence numbers -------------------------------------------------------------

  /** Envelopes continue the account of the latest load: the first after a load takes the number
      after the loaded one, each later one the number after its predecessor. */
  ghost predicate Sequenced(p: Sponsor) {
    && (forall i {:trigger Continues(p, i)} :: 0 <= i < |p.envelopes| ==> Continues(p, i))
    && (p.account.Some? ==> p.loads != [] && p.account.value == Current(p))
  }

  predicate Continues(p: Sponsor, i: int)
    requires 0 <= i < |p.envelopes|
  {
    var e := p.envelopes[i];
    && 1 <= e.loads <= |p.loads|
    && (i > 0 ==> p.envelopes[i - 1].loads <= e.loads)
    && e.sequence == 1 + if i > 0 && p.envelopes[i - 1].loads == e.loads then p.envelopes[i - 1].sequence else p.loads[e.loads - 1]
  }

  /** The number the cached account stands at. */
  function Current(p: Sponsor): int
    requires p.loads != []
  {
    var n := |p.envelopes|;
    if n > 0 && p.envelopes[n - 1].loads == |p.loads| then p.envelopes[n - 1].sequence else p.loads[|p.loads| - 1]
  }

  lemma LoadIsSequenced(p: Sponsor, sequence: int)
    requires Sequenced(p)
    ensures Sequenced(Load(p, sequence))
  {
    var next, n := Load(p, sequence), |p.envelopes|;
    if n > 0 { assert Continues(p, n - 1); }
    forall i | 0 <= i < |next.envelopes| ensures Continues(next, i) {
      assert Continues(p, i);
    }
  }

  lemma BuildIsSequenced(p: Sponsor, outcome: BuildOutcome)
    requires Sequenced(p) && p.account.Some?
    ensures Sequenced(Build(p, outcome))
  {
    var next, n := Build(p, outcome), |p.envelopes|;
    if n > 0 { assert Continues(p, n - 1); }
    forall i | 0 <= i < |next.envelopes| ensures Continues(next, i) {
      if i < n { assert Continues(p, i); }
    }
  }

  lemma StepIsSequenced(s: State, e: Event)
    requires Sequenced(s.sponsor)
    ensures Sequenced(Apply(s, e).sponsor)
  {
    if Enabled(s, e) {
      match e
      case Arrive(_, _) =>
      case Resume(b, outcome) => if !NeedsLoad(s, b) { BuildIsSequenced(s.sponsor, outcome); }
      case Loaded(b, sequence, outcome) =>
        LoadIsSequenced(s.sponsor, sequence);
        BuildIsSequenced(Load(s.sponsor, sequence), outcome);
      case LoadFails(_) => DroppingIsSequenced(s.sponsor);
    }
  }

  lemma DroppingIsSequenced(p: Sponsor)
    requires Sequenced(p)
    ensures Sequenced(p.(account := None))
  {
    forall i | 0 <= i < |p.envelopes| ensures Continues(p.(account := None), i) { assert Continues(p, i); }
  }

  lemma {:induction false} RunIsSequenced(s: State, events: seq<Event>)
    requires Sequenced(s.sponsor)
    ensures Sequenced(Run(s, events).sponsor)
    decreases |events|
  {
    hide Sequenced;
    if events != [] {
      StepIsSequenced(s, events[0]);
      RunIsSequenced(Apply(s, events[0]), events[1..]);
    }
  }

  lemma ContinuesAt(p: Sponsor, i: nat)
    requires Sequenced(p) && 0 < i < |p.envelopes|
    ensures p.envelopes[i - 1].loads <= p.envelopes[i].loads
    ensures p.envelopes[i - 1].loads == p.envelopes[i].loads ==> p.envelopes[i].sequence == p.envelopes[i - 1].sequence + 1
  {
    assert Continues(p, i);
  }

  lemma {:induction false} LoadsAscend(p: Sponsor, i: nat, j: nat)
    requires Sequenced(p) && i <= j < |p.envelopes|
    ensures p.envelopes[i].loads <= p.envelopes[j].loads
    decreases j
  {
    hide Sequenced;
    if i < j {
      ContinuesAt(p, j);
      LoadsAscend(p, i, j - 1);
    }
  }

  lemma {:induction false} SameLoadIsConsecutive(p: Sponsor, i: nat, j: nat)
    requires Sequenced(p) && i <= j < |p.envelopes| && p.envelopes[i].loads == p.envelopes[j].loads
    ensures p.envelopes[j].sequence == p.envelopes[i].sequence + (j - i)
    decreases j
  {
    hide Sequenced;
    if i < j {
      ContinuesAt(p, j);
      LoadsAscend(p, i, j - 1);
      SameLoadIsConsecutive(p, i, j - 1);
    }
  }

  /** Every later envelope has a greater number, so no number is used twice. */
  ghost predicate Increasing(p: Sponsor) {
    forall i, j :: 0 <= i < j < |p.envelopes| ==> p.envelopes[i].sequence < p.envelopes[j].sequence
  }

  /** The first envelope of a load comes after one of an earlier load. */
  predicate StartsLoad(p: Sponsor, i: int)
    requires 0 <= i < |p.envelopes|
  {
    i > 0 && p.envelopes[i - 1].loads != p.envelopes[i].loads
  }

  /** No load that is built on returned less than the last number issued before it. */
  ghost predicate LoadsCatchUp(p: Sponsor) {
    forall i {:trigger StartsLoad(p, i)} :: 0 <= i < |p.envelopes| && StartsLoad(p, i) && 1 <= p.envelopes[i].loads <= |p.loads| ==>
      p.loads[p.envelopes[i].loads - 1] >= p.envelopes[i - 1].sequence
  }

  lemma NextIsGreater(p: Sponsor, i: nat)
    requires Sequenced(p) && 0 < i < |p.envelopes|
    ensures 1 <= p.envelopes[i].loads <= |p.loads|
    ensures p.envelopes[i - 1].sequence < p.envelopes[i].sequence <==>
              (StartsLoad(p, i) ==> p.loads[p.envelopes[i].loads - 1] >= p.envelopes[i - 1].sequence)
  {
    assert Continues(p, i);
  }

  lemma {:induction false} StepwiseIncreases(p: Sponsor, i: nat, j: nat)
    requires i < j < |p.envelopes|
    requires forall k :: 0 < k < |p.envelopes| ==> p.envelopes[k - 1].sequence < p.envelopes[k].sequence
    ensures p.envelopes[i].sequence < p.envelopes[j].sequence
    decreases j
  {
    assert p.envelopes[j - 1].sequence < p.envelopes[j].sequence;
    if i < j - 1 { StepwiseIncreases(p, i, j - 1); }
  }

  /** In every run, over all loads, the numbers strictly increase if and only if no load that is built
      on returned less than the last number issued before it. */
  lemma IncreasingExactlyWhenLoadsCatchUp(events: seq<Event>)
    ensures Increasing(Run(IDLE, events).sponsor) <==> LoadsCatchUp(Run(IDLE, events).sponsor)
  {
    RunIsSequenced(IDLE, events);
    var p := Run(IDLE, events).sponsor;
    hide Run, Sequenced, StartsLoad;
    if LoadsCatchUp(p) {
      forall k | 0 < k < |p.envelopes| ensures p.envelopes[k - 1].sequence < p.envelopes[k].sequence { NextIsGreater(p, k); }
      forall i, j | 0 <= i < j < |p.envelopes| ensures p.envelopes[i].sequence < p.envelopes[j].sequence { StepwiseIncreases(p, i, j); }
    }
    if Increasing(p) {
      forall i | 0 <= i < |p.envelopes| && StartsLoad(p, i) && 1 <= p.envelopes[i].loads <= |p.loads|
        ensures p.loads[p.envelopes[i].loads - 1] >= p.envelopes[i - 1].sequence
      {
        StartsLater(p, i);
        NextIsGreater(p, i);
      }
    }
  }

  lemma StartsLater(p: Sponsor, i: nat)
    requires i < |p.envelopes| && StartsLoad(p, i)
    ensures i > 0
  {}

  /** Two refreshing builders whose loads both return 5 both build number 6. */
  lemma StaleLoadRepeatsNumber()
    ensures var events := [Arrive(0, true), Resume(0, Signed), Loaded(0, 5, Signed), Arrive(1, true), Resume(1, Signed), Loaded(1, 5, Signed)];
            Run(IDLE, events).sponsor.envelopes == [Envelope(1, 6), Envelope(2, 6)]
  {
    var a, b, c := Arrive(0, true), Resume(0, Signed), Loaded(0, 5, Signed);
    var d, e, f := Arrive(1, true), Resume(1, Signed), Loaded(1, 5, Signed);
    var s1 := Apply(Apply(Apply(IDLE, a), b), c);
    assert s1.sponsor == Sponsor(Some(6), [5], [Envelope(1, 6)]) && !s1.mutex.isFetching && s1.mutex.queue == [] && 1 !in s1.mutex.builders;
    var s2 := Apply(Apply(Apply(s1, d), e), f);
    assert s2.sponsor == Sponsor(Some(6), [5, 5], [Envelope(1, 6), Envelope(2, 6)]);
    RunOfThree(IDLE, a, b, c, [d, e, f]);
    RunOfThree(s1, d, e, f, []);
    assert [a, b, c] + [d, e, f] == [a, b, c, d, e, f] && [d, e, f] + [] == [d, e, f];
  }

  lemma RunOfThree(s: State, a: Event, b: Event, c: Event, rest: seq<Event>)
    ensures Run(s, [a, b, c] + rest) == Run(Apply(Apply(Apply(s, a), b), c), rest)
  {
    hide Apply;
    var events := [a, b, c] + rest;
    assert events[1..] == [b, c] + rest && ([b, c] + rest)[1..] == [c] + rest && ([c] + rest)[1..] == rest;
    assert Run(s, events) == Run(Apply(s, a), [b, c] + rest) == Run(Apply(Apply(s, a), b), [c] + rest);
  }

  /** In every run, envelopes built between two account loads carry consecutive numbers, so
      distinct ones, and the first of them is the one after the number loaded. */
  lemma EnvelopesContinueTheirLoad(events: seq<Event>, i: nat, j: nat)
    requires i <= j < |Run(IDLE, events).sponsor.envelopes|
    requires Run(IDLE, events).sponsor.envelopes[i].loads == Run(IDLE, events).sponsor.envelopes[j].loads
    ensures var p := Run(IDLE, events).sponsor;
            && p.envelopes[j].sequence == p.envelopes[i].sequence + (j - i)
            && 1 <= p.envelopes[i].loads <= |p.loads|
            && (i == 0 || p.envelopes[i - 1].loads != p.envelopes[i].loads ==>
                  p.envelopes[i].sequence == p.loads[p.envelopes[i].loads - 1] + 1)
  {
    RunIsSequenced(IDLE, events);
    var p := Run(IDLE, events).sponsor;
    hide Run;
    assert Continues(p, i);
    SameLoadIsConsecutive(p, i, j);
  }
}

/** The service: its static fields, updated in place. */
module SponsorService {
  import opened Outcomes
  import opened SponsorMutex

  class Service {
    var isFetching: bool
    var mutexQueue: seq<Bid>
    var sponsorAccount: Option<int>
    var builders: map<Bid, Builder>
    var envelopes: seq<int>
    ghost var arrivals: seq<Bid>
    ghost var grants: seq<Bid>
    ghost var loads: seq<int>
    ghost var numbered: seq<Envelope>

    ghost function Lockwork(): Mutex
      reads this
    {
      Mutex(isFetching, mutexQueue, builders, arrivals, grants)
    }

    ghost function Model(): State
      reads this
    {
      State(Lockwork(), Sponsor(sponsorAccount, loads, numbered))
    }

    /** The ghost record of envelopes numbers exactly the ones handed out. */
    ghost predicate Valid()
      reads this
    {
      |envelopes| == |numbered| && forall i :: 0 <= i < |envelopes| ==> envelopes[i] == numbered[i].sequence
    }

    constructor ()
      ensures Valid() && Model() == IDLE
    {
      isFetching, mutexQueue, sponsorAccount, builders, envelopes := false, [], None, map[], [];
      arrivals, grants, loads, numbered := [], [], [], [];
    }

    method SetBuilderPhase(b: Bid, phase: Phase)
      requires b in builders
      modifies `builders
      ensures Lockwork() == SetPhase(old(Lockwork()), b, phase)
    {
      builders := builders[b := builders[b].(phase := phase)];
    }

    /** Resolves at once, or leaves the caller in the queue. */
    method Lock(b: Bid)
      requires b in builders
      modifies `isFetching, `mutexQueue, `builders, `grants
      ensures Lockwork() == SponsorMutex.Lock(old(Lockwork()), b)
    {
      if !isFetching {
        isFetching := true;
        grants := grants + [b];
        SetBuilderPhase(b, Granted);
        return;
      }
      mutexQueue := mutexQueue + [b];
      SetBuilderPhase(b, Queued);
    }

    method Unlock()
      modifies `isFetching, `mutexQueue, `builders, `grants
      ensures Lockwork() == SponsorMutex.Unlock(old(Lockwork()))
    {
      if |mutexQueue| > 0 {
        var next := mutexQueue[0];
        mutexQueue := mutexQueue[1..];
        grants := grants + [next];
        if next in builders { SetBuilderPhase(next, Granted); }
      } else {
        isFetching := false;
      }
    }

    method Arrive(b: Bid, refresh: bool)
      requires Valid() && b !in builders
      modifies this
      ensures Valid() && Model() == Apply(old(Model()), Event.Arrive(b, refresh))
    {
      builders := builders[b := Builder(refresh, Queued)];
      arrivals := arrivals + [b];
      Lock(b);
    }

    /** From the account in hand to the end of the `finally` block. */
    method BuildAndUnlock(b: Bid, outcome: BuildOutcome)
      requires Valid() && b in builders && sponsorAccount.Some?
      modifies this
      ensures Valid() && Model() == State(Leave(old(Lockwork()), b), Build(old(Model()).sponsor, outcome))
    {
      if outcome.ThrowsBeforeBuild? {
        sponsorAccount := None;
      } else {
        sponsorAccount := Some(sponsorAccount.value + 1);
        if outcome.Signed? {
          envelopes := envelopes + [sponsorAccount.value];
          numbered := numbered + [Envelope(|loads|, sponsorAccount.value)];
        } else {
          sponsorAccount := None;
        }
      }
      SetBuilderPhase(b, Finished);
      Unlock();
    }

    method Resume(b: Bid, outcome: BuildOutcome)
      requires Valid() && b in builders && builders[b].phase.Granted?
      modifies this
      ensures Valid() && Model() == Apply(old(Model()), Event.Resume(b, outcome))
    {
      if sponsorAccount.None? || builders[b].refresh {
        SetBuilderPhase(b, Loading);
      } else {
        BuildAndUnlock(b, outcome);
      }
    }

    method Loaded(b: Bid, sequence: int, outcome: BuildOutcome)
      requires Valid() && b in builders && builders[b].phase.Loading?
      modifies this
      ensures Valid() && Model() == Apply(old(Model()), Event.Loaded(b, sequence, outcome))
    {
      sponsorAccount := Some(sequence);
      loads := loads + [sequence];
      BuildAndUnlock(b, outcome);
    }

    method LoadFails(b: Bid)
      requires Valid() && b in builders && builders[b].phase.Loading?
      modifies this
      ensures Valid() && Model() == Apply(old(Model()), Event.LoadFails(b))
    {
      sponsorAccount := None;
      SetBuilderPhase(b, Finished);
      Unlock();
    }
  }
}
