/** The recorders as they overlap. A call locks its own user's row, looks the hash up among the
    committed rows, and commits; another user's call can come in between any two of these. */
module SavingsRace {
  import opened Outcomes
  import opened SavingsRecords

  type Tid = nat

  datatype Lookup = NotYet | Answered(found: Option<EntryId>)

  /** A call that holds its user's lock; `succeeded` tells the two recorders apart. */
  datatype Call = Call(variant: Variant, input: Input, succeeded: bool, lookup: Lookup)

  datatype Race = Race(db: State, open: map<Tid, Call>)

  datatype Step =
    | Begin(tid: Tid, variant: Variant, input: Input, succeeded: bool)
    | LookUp(tid: Tid, found: Option<EntryId>)
    | Commit(tid: Tid, newId: EntryId)
    | Abort(tid: Tid)
    | Insert(newId: EntryId, entry: Entry)

  predicate Valid(input: Input, succeeded: bool) {
    if succeeded then SuccessInvalid(input).None? else FailureInvalid(input).None?
  }

  /** Nobody holds the user's row; the routes' inserts wait for it too, for their foreign key. */
  predicate Unlocked(r: Race, userId: string) {
    forall t :: t in r.open ==> r.open[t].input.userId != userId
  }

  predicate CanCommit(db: State, call: Call) {
    call.lookup.Answered? && (call.lookup.found.Some? ==> call.lookup.found.value in db.history)
  }

  /** The rest of the transaction, with the answer of its own lookup, however old. */
  function Outcome(db: State, call: Call, newId: EntryId): Result<State, Failure>
    requires CanCommit(db, call)
  {
    if call.succeeded then RecordedSuccess(db, call.variant, call.input, call.lookup.found, newId)
    else RecordedFailure(db, call.variant, call.input, call.lookup.found, newId)
  }

  /** What the commit leaves; a call that throws is rolled back. */
  function Committed(db: State, call: Call, newId: EntryId): State
    requires CanCommit(db, call)
  {
    match Outcome(db, call, newId)
    case Ok(next) => next
    case Err(_) => db
  }

  predicate Possible(r: Race, step: Step) {
    match step
    case Begin(tid, _, input, succeeded) =>
      tid !in r.open && Valid(input, succeeded) && input.userId in r.db.users && Unlocked(r, input.userId)
    case LookUp(tid, found) =>
      tid in r.open && r.open[tid].lookup.NotYet? && QueryAnswers(r.db.history, HashOf(r.open[tid].input), found)
    case Commit(tid, newId) => tid in r.open && CanCommit(r.db, r.open[tid]) && newId !in r.db.history
    case Abort(tid) => tid in r.open
    case Insert(newId, entry) =>
      newId !in r.db.history && entry.status.Pending? && entry.userId in r.db.users && Unlocked(r, entry.userId)
  }

  function Advance(r: Race, step: Step): Race {
    if !Possible(r, step) then r
    else match step
      case Begin(tid, variant, input, succeeded) => r.(open := r.open[tid := Call(variant, input, succeeded, NotYet)])
      case LookUp(tid, found) => r.(open := r.open[tid := r.open[tid].(lookup := Answered(found))])
      case Commit(tid, newId) =>
        Race(Committed(r.db, r.open[tid], newId), r.open - {tid})
      case Abort(tid) => r.(open := r.open - {tid})
      case Insert(newId, entry) => r.(db := r.db.(history := r.db.history[newId := entry]))
  }

  function Course(r: Race, steps: seq<Step>): Race
    decreases |steps|
  {
    if steps == [] then r else Course(Advance(r, steps[0]), steps[1..])
  }
}

module SavingsRaceProofs {
  import opened FiniteSets
  import opened Numbers
  import opened Outcomes
  import opened SavingsRace
  import opened SavingsRecords
  import opened Texts
  import P = SavingsRecordsProofs

  /** The stored text names the transaction with the lower-case hash `chain`. */
  predicate Names(hash: Option<string>, chain: string) { hash.Some? && Folded(hash.value) == chain }

  /** The rows of an on-chain transaction, under any spelling, that count or still can. */
  ghost function Live(db: State, chain: string): set<EntryId> {
    set i | i in db.history && Names(db.history[i].hash, chain) && !db.history[i].status.Failed?
  }

  ghost function Done(db: State, chain: string): set<EntryId> {
    set i | i in db.history && Names(db.history[i].hash, chain) && db.history[i].status.Completed?
  }

  /** The call found no row, and its commit will insert a completed one. */
  predicate WillCount(db: State, call: Call, chain: string) {
    && call.succeeded && call.lookup == Answered(None) && Names(HashOf(call.input), chain)
    && RecordedSuccess(db, call.variant, call.input, None, 0).Ok?
  }

  ghost function Seekers(r: Race, chain: string): set<Tid> {
    set t | t in r.open && WillCount(r.db, r.open[t], chain)
  }

  /** How often the transaction is counted already, or will be without any further call. */
  ghost function Potential(r: Race, chain: string): nat { |Live(r.db, chain)| + |Seekers(r, chain)| }

  ghost predicate Coherent(r: Race) {
    && P.OwnersKnown(r.db)
    && (forall t :: t in r.open ==> r.open[t].input.userId in r.db.users)
    && (forall t, q :: t in r.open && q in r.open && t != q ==> r.open[t].input.userId != r.open[q].input.userId)
  }

  /** What a commit can change: its own user's balance, and one row: a new one if it found none, or
      its own pending one. */
  lemma CommitShape(db: State, call: Call, newId: EntryId)
    requires CanCommit(db, call)
    ensures var next, found := Committed(db, call, newId), call.lookup.found;
      var status := if call.succeeded then Completed else Status.Failed;
      && next.users.Keys == db.users.Keys && (forall u :: u in db.users && u != call.input.userId ==> next.users[u] == db.users[u])
      && (next.history != db.history ==>
            && call.input.userId in db.users && call.input.kind.Some?
            && (found.None? ==> next.history == db.history[newId := NewEntry(call.input, status)])
            && (found.Some? ==> db.history[found.value].status.Pending? && db.history[found.value].userId == call.input.userId
                                && next.history == db.history[found.value := db.history[found.value].(status := status)]))
      && (call.succeeded && found.None? && RecordedSuccess(db, call.variant, call.input, None, 0).Ok? ==>
            call.input.kind.Some? && next.history == db.history[newId := NewEntry(call.input, Completed)])
      && (call.succeeded && found.None? && RecordedSuccess(db, call.variant, call.input, None, 0).Err? ==> next == db)
  {}

  lemma StepKeepsCoherent(r: Race, step: Step)
    requires Coherent(r)
    ensures Coherent(Advance(r, step))
  {
    if step.Commit? && Possible(r, step) { CommitShape(r.db, r.open[step.tid], step.newId); }
    hide Committed, Valid, QueryAnswers;
  }

  /** The step adds one way to count: an insert, or a lookup that finds nothing and will count. */
  predicate Joins(r: Race, step: Step, chain: string) {
    && Possible(r, step)
    && ((step.Insert? && Names(step.entry.hash, chain))
        || (step.LookUp? && step.found.None? && WillCount(r.db, r.open[step.tid].(lookup := Answered(None)), chain)))
  }

  /** A commit changes nobody else's balance, so it does not decide for other seekers. */
  lemma OthersStillCount(r: Race, tid: Tid, newId: EntryId, t: Tid, chain: string)
    requires Coherent(r) && Possible(r, Commit(tid, newId)) && t in r.open && t != tid
    ensures WillCount(Advance(r, Commit(tid, newId)).db, r.open[t], chain) <==> WillCount(r.db, r.open[t], chain)
  {
    CommitShape(r.db, r.open[tid], newId);
    hide Committed, Valid;
  }

  lemma CommitPotential(r: Race, tid: Tid, newId: EntryId, chain: string)
    requires Coherent(r) && Possible(r, Commit(tid, newId))
    ensures var next := Advance(r, Commit(tid, newId));
      && Seekers(next, chain) == Seekers(r, chain) - {tid}
      && Live(next.db, chain) <= Live(r.db, chain) + (if tid in Seekers(r, chain) then {newId} else {})
      && (tid in Seekers(r, chain) ==> next.db.history == r.db.history[newId := NewEntry(r.open[tid].input, Completed)])
  {
    var next := Advance(r, Commit(tid, newId));
    CommitShape(r.db, r.open[tid], newId);
    hide Committed, Valid, RecordedSuccess, HashOf;
    forall t | t in r.open && t != tid ensures t in Seekers(next, chain) <==> t in Seekers(r, chain) {
      OthersStillCount(r, tid, newId, t, chain);
    }
  }

  lemma QuietPotential(r: Race, step: Step, chain: string)
    requires Coherent(r) && Possible(r, step) && !step.Commit?
    ensures var next := Advance(r, step);
      && Live(next.db, chain) == Live(r.db, chain) + (if step.Insert? && Joins(r, step, chain) then {step.newId} else {})
      && Seekers(next, chain) == Seekers(r, chain) + (if step.LookUp? && Joins(r, step, chain) then {step.tid} else {})
                                                   - (if step.Abort? then {step.tid} else {})
    ensures step.Insert? ==> step.newId !in Live(r.db, chain)
    ensures step.LookUp? ==> step.tid !in Seekers(r, chain)
  {
    hide Committed, Valid, QueryAnswers, HashOf;
  }

  /** No step adds more ways to count than it joins. */
  lemma StepPotential(r: Race, step: Step, chain: string)
    requires Coherent(r)
    ensures Potential(Advance(r, step), chain) <= Potential(r, chain) + Count(Joins(r, step, chain))
    ensures Joins(r, step, chain) ==> Potential(Advance(r, step), chain) == Potential(r, chain) + 1
  {
    if Possible(r, step) {
      var next := Advance(r, step);
      if step.Commit? {
        CommitPotential(r, step.tid, step.newId, chain);
        hide Advance, Live, Seekers, WillCount;
        SubsetIsSmaller(Live(next.db, chain), Live(r.db, chain) + (if step.tid in Seekers(r, chain) then {step.newId} else {}));
      } else {
        QuietPotential(r, step, chain);
        hide Advance, Live, Seekers, Joins;
      }
    }
  }

  predicate NoJoins(r: Race, steps: seq<Step>, chain: string)
    decreases |steps|
  {
    steps == [] || (!Joins(r, steps[0], chain) && NoJoins(Advance(r, steps[0]), steps[1..], chain))
  }

  /** Whatever happens to the calls under way, the transaction is counted at most once in all. */
  ghost predicate CountsOnce(r: Race, chain: string) {
    forall steps: seq<Step> | NoJoins(r, steps, chain) :: |Done(Course(r, steps).db, chain)| <= 1
  }

  lemma {:induction false} PotentialStays(r: Race, steps: seq<Step>, chain: string)
    requires Coherent(r) && NoJoins(r, steps, chain) && Potential(r, chain) <= 1
    ensures Potential(Course(r, steps), chain) <= 1
    decreases |steps|
  {
    hide Coherent, Advance, Joins, Potential;
    if steps != [] {
      StepKeepsCoherent(r, steps[0]);
      StepPotential(r, steps[0], chain);
      PotentialStays(Advance(r, steps[0]), steps[1..], chain);
    }
  }

  /** The course makes no joins and leaves these rows completed and those alive. */
  ghost predicate Leads(r: Race, steps: seq<Step>, next: Race, chain: string) {
    && Coherent(next) && Course(r, steps) == next && NoJoins(r, steps, chain)
    && Done(r.db, chain) <= Done(next.db, chain) && Live(r.db, chain) <= Live(next.db, chain)
  }

  lemma {:induction false} LeadsOn(r: Race, steps: seq<Step>, mid: Race, more: seq<Step>, next: Race, chain: string)
    requires Leads(r, steps, mid, chain) && Leads(mid, more, next, chain)
    ensures Leads(r, steps + more, next, chain)
  {
    hide Coherent, Live, Done;
    CourseConcat(r, steps, more, chain);
  }

  lemma {:induction false} CourseConcat(r: Race, steps: seq<Step>, more: seq<Step>, chain: string)
    ensures Course(r, steps + more) == Course(Course(r, steps), more)
    ensures NoJoins(r, steps + more, chain) <==> NoJoins(r, steps, chain) && NoJoins(Course(r, steps), more, chain)
    decreases |steps|
  {
    hide Advance, Joins;
    if steps == [] {
      assert steps + more == more;
    } else {
      assert (steps + more)[1..] == steps[1..] + more;
      CourseConcat(Advance(r, steps[0]), steps[1..], more, chain);
    }
  }

  lemma LeadsByOne(r: Race, step: Step, chain: string)
    requires Coherent(r) && !Joins(r, step, chain)
    requires Done(r.db, chain) <= Done(Advance(r, step).db, chain) && Live(r.db, chain) <= Live(Advance(r, step).db, chain)
    ensures Leads(r, [step], Advance(r, step), chain)
  {
    StepKeepsCoherent(r, step);
    hide Coherent, Advance, Joins, Live, Done;
    var next := Advance(r, step);
    assert [step][1..] == [];
    assert Course(r, [step]) == Course(next, []) == next && NoJoins(next, [], chain);
  }

  lemma SeekerCommits(r: Race, t: Tid, chain: string) returns (steps: seq<Step>, next: Race, id: EntryId)
    requires Coherent(r) && t in Seekers(r, chain)
    ensures Leads(r, steps, next, chain) && Seekers(next, chain) == Seekers(r, chain) - {t}
    ensures id in Done(next.db, chain) && id !in r.db.history
  {
    id := UpperBound(r.db.history.Keys);
    assert id !in r.db.history.Keys;
    var step := Commit(t, id);
    next := Advance(r, step);
    CommitPotential(r, t, id, chain);
    LeadsByOne(r, step, chain);
    steps := [step];
  }

  lemma FoldedHashIsHash(hash: string)
    requires IsTxHash(Folded(hash))
    ensures IsTxHash(hash)
  {
    forall i | 0 <= i < |hash| ensures IsHex(hash[i]) { assert IsHex(Folded(hash)[i]); }
  }

  /** A live row can be completed, by its owner's call, once the owner's row is free. */
  lemma RowCompletes(r: Race, i: EntryId, chain: string) returns (steps: seq<Step>, next: Race)
    requires Coherent(r) && IsTxHash(chain) && i in Live(r.db, chain)
    ensures Leads(r, steps, next, chain) && i in Done(next.db, chain)
  {
    hide IsTxHash;
    steps, next := [], r;
    if r.db.history[i].status.Pending? {
      var owner := r.db.history[i].userId;
      var freeing, free := OwnerIsFreed(r, owner, chain);
      var promoting;
      promoting, next := RowIsPromoted(free, i, chain);
      LeadsOn(r, freeing, free, promoting, next, chain);
      steps := freeing + promoting;
    }
  }

  lemma OwnerIsFreed(r: Race, owner: string, chain: string) returns (steps: seq<Step>, next: Race)
    requires Coherent(r)
    ensures Leads(r, steps, next, chain) && next.db == r.db && Unlocked(next, owner)
  {
    steps, next := [], r;
    if t :| t in r.open && r.open[t].input.userId == owner {
      next := Advance(r, Abort(t));
      LeadsByOne(r, Abort(t), chain);
      steps := [Abort(t)];
    }
  }

  lemma RowIsPromoted(r: Race, i: EntryId, chain: string) returns (steps: seq<Step>, next: Race)
    requires Coherent(r) && IsTxHash(chain) && i in Live(r.db, chain) && r.db.history[i].status.Pending?
    requires Unlocked(r, r.db.history[i].userId)
    ensures Leads(r, steps, next, chain) && i in Done(next.db, chain)
  {
    var hash := r.db.history[i].hash.value;
    FoldedHashIsHash(hash);
    var e := P.Promotion(r.db, i, hash);
    var t := UpperBound(r.open.Keys);
    assert t !in r.open.Keys;
    var a, b, c := Begin(t, e.variant, e.input, true), LookUp(t, Some(i)), Commit(t, e.newId);
    var r1 := Advance(r, a);
    var r2 := Advance(r1, b);
    next := Advance(r2, c);
    assert r2 == Race(r.db, r.open[t := Call(e.variant, e.input, true, Answered(Some(i)))]);
    assert next.db == SavingsRecords.Apply(r.db, e);
    hide IsTxHash, Advance, Possible, P.Promotes, SavingsRecords.Apply, QueryAnswers;
    assert Done(r.db, chain) <= Done(next.db, chain) && Live(r.db, chain) <= Live(next.db, chain);
    LeadsByOne(r, a, chain);
    LeadsByOne(r1, b, chain);
    LeadsByOne(r2, c, chain);
    LeadsOn(r, [a], r1, [b], r2, chain);
    LeadsOn(r, [a] + [b], r2, [c], next, chain);
    steps := [a] + [b] + [c];
  }

  lemma LiveIsStored(db: State, chain: string)
    ensures Done(db, chain) <= Live(db, chain) <= db.history.Keys
  {}

  lemma CountedTwice(r: Race, chain: string) returns (steps: seq<Step>)
    requires Coherent(r) && IsTxHash(chain) && Potential(r, chain) > 1
    ensures NoJoins(r, steps, chain) && |Done(Course(r, steps).db, chain)| > 1
  {
    hide IsTxHash, Coherent, WillCount, Live, Done, Seekers;
    var mid, end, more, i, j;
    LiveIsStored(r.db, chain);
    if t :| t in Seekers(r, chain) {
      steps, mid, i := SeekerCommits(r, t, chain);
      assert |Seekers(mid, chain)| == |Seekers(r, chain)| - 1;
      LiveIsStored(mid.db, chain);
      if q :| q in Seekers(mid, chain) {
        more, end, j := SeekerCommits(mid, q, chain);
      } else {
        assert Seekers(mid, chain) == {};
        j :| j in Live(r.db, chain);
        more, end := RowCompletes(mid, j, chain);
      }
    } else {
      assert Seekers(r, chain) == {};
      i :| i in Live(r.db, chain);
      assert |Live(r.db, chain) - {i}| == |Live(r.db, chain)| - 1;
      j :| j in Live(r.db, chain) - {i};
      steps, mid := RowCompletes(r, i, chain);
      more, end := RowCompletes(mid, j, chain);
    }
    LeadsOn(r, steps, mid, more, end, chain);
    steps := steps + more;
    SubsetIsSmaller({i, j}, Done(end.db, chain));
  }

  /** The calls under way and the rows stored can count a transaction twice if and only if two of them
      count or still will. */
  lemma CountsOnceExactly(r: Race, chain: string)
    requires Coherent(r) && IsTxHash(chain)
    ensures CountsOnce(r, chain) <==> Potential(r, chain) <= 1
  {
    hide IsTxHash, Coherent, Course, NoJoins;
    if Potential(r, chain) <= 1 {
      forall steps: seq<Step> | NoJoins(r, steps, chain) ensures |Done(Course(r, steps).db, chain)| <= 1 {
        PotentialStays(r, steps, chain);
        SubsetIsSmaller(Done(Course(r, steps).db, chain), Live(Course(r, steps).db, chain));
      }
    } else {
      var steps := CountedTwice(r, chain);
    }
  }

  ghost predicate JoinsAlone(r: Race, steps: seq<Step>, chain: string)
    decreases |steps|
  {
    steps == [] ||
    ((Joins(r, steps[0], chain) ==> Potential(r, chain) == 0) && JoinsAlone(Advance(r, steps[0]), steps[1..], chain))
  }

  ghost predicate AlwaysCountsOnce(r: Race, steps: seq<Step>, chain: string)
    decreases |steps|
  {
    CountsOnce(r, chain) && (steps == [] || AlwaysCountsOnce(Advance(r, steps[0]), steps[1..], chain))
  }

  /** Under every interleaving of users' calls and routes' inserts, and across all spellings of its
      hash, an on-chain transaction stays one that counts at most once if and only if every insert of
      it, and every lookup that finds nothing and will count, comes while no row of it and no other
      call counts or still will. */
  lemma {:induction false} CountsOnceThroughoutExactly(r: Race, steps: seq<Step>, chain: string)
    requires Coherent(r) && IsTxHash(chain) && CountsOnce(r, chain)
    ensures AlwaysCountsOnce(r, steps, chain) <==> JoinsAlone(r, steps, chain)
    decreases |steps|
  {
    hide IsTxHash, Coherent, CountsOnce, Potential, Joins, Advance;
    CountsOnceExactly(r, chain);
    if steps != [] {
      var next := Advance(r, steps[0]);
      StepKeepsCoherent(r, steps[0]);
      StepPotential(r, steps[0], chain);
      CountsOnceExactly(next, chain);
      if CountsOnce(next, chain) { CountsOnceThroughoutExactly(next, steps[1..], chain); }
    }
  }

  /** Such a lookup that does not come alone overlaps another user's, or spells the hash unlike a row. */
  lemma RivalLookup(r: Race, step: Step, chain: string)
    requires Coherent(r) && step.LookUp? && Joins(r, step, chain) && Potential(r, chain) > 0
    ensures (exists t :: t in Seekers(r, chain) && r.open[t].input.userId != r.open[step.tid].input.userId)
         || (exists i :: i in Live(r.db, chain) && r.db.history[i].hash != HashOf(r.open[step.tid].input))
  {
    if t :| t in Seekers(r, chain) {
      assert t != step.tid;
    } else {
      assert Seekers(r, chain) == {};
      var i :| i in Live(r.db, chain);
      assert r.db.history[i].hash != HashOf(r.open[step.tid].input);
    }
  }

  /** Two users record one new hash. If the second looks it up before the first commits, both count;
      if it does so afterwards, it finds the first one's row and only that counts. */
  lemma BothCountExactlyWhenOverlapping(r: Race, t: Tid, q: Tid, a: EntryId, b: EntryId, chain: string)
    requires Coherent(r) && t in Seekers(r, chain) && q in r.open && q != t && r.open[q].lookup.NotYet?
    requires HashOf(r.open[q].input) == HashOf(r.open[t].input)
    requires WillCount(r.db, r.open[q].(lookup := Answered(None)), chain)
    requires a !in r.db.history && b !in r.db.history && a != b
    requires forall i :: i in r.db.history ==> !Names(r.db.history[i].hash, chain)
    ensures var early := Advance(Advance(Advance(r, LookUp(q, None)), Commit(t, a)), Commit(q, b));
      Done(early.db, chain) == {a, b}
    ensures var found := Advance(r, Commit(t, a));
      && Possible(found, LookUp(q, Some(a))) && !Possible(found, LookUp(q, None))
      && Done(Advance(Advance(found, LookUp(q, Some(a))), Commit(q, b)).db, chain) == {a}
  {
    EarlyLookupCounts(r, t, q, a, b, chain);
    LateLookupFails(r, t, q, a, b, chain);
  }

  lemma EarlyLookupCounts(r: Race, t: Tid, q: Tid, a: EntryId, b: EntryId, chain: string)
    requires Coherent(r) && t in Seekers(r, chain) && q in r.open && q != t && r.open[q].lookup.NotYet?
    requires HashOf(r.open[q].input) == HashOf(r.open[t].input)
    requires WillCount(r.db, r.open[q].(lookup := Answered(None)), chain)
    requires a !in r.db.history && b !in r.db.history && a != b
    requires forall i :: i in r.db.history ==> !Names(r.db.history[i].hash, chain)
    ensures Done(Advance(Advance(Advance(r, LookUp(q, None)), Commit(t, a)), Commit(q, b)).db, chain) == {a, b}
  {
    LookupFindsNothing(r, q, chain);
    hide WillCount, Advance, Possible, Names;
    var looked := Advance(r, LookUp(q, None));
    CommitNew(looked, t, a, chain);
    var one := Advance(looked, Commit(t, a));
    CommitNew(one, q, b, chain);
  }

  lemma LookupFindsNothing(r: Race, q: Tid, chain: string)
    requires Coherent(r) && q in r.open && r.open[q].lookup.NotYet?
    requires WillCount(r.db, r.open[q].(lookup := Answered(None)), chain)
    requires forall i :: i in r.db.history ==> !Names(r.db.history[i].hash, chain)
    ensures var looked := Advance(r, LookUp(q, None));
      && looked.db == r.db && Coherent(looked) && Seekers(looked, chain) == Seekers(r, chain) + {q} && Done(r.db, chain) == {}
  {
    assert Possible(r, LookUp(q, None));
    QuietPotential(r, LookUp(q, None), chain);
    StepKeepsCoherent(r, LookUp(q, None));
  }

  lemma CommitNew(r: Race, t: Tid, a: EntryId, chain: string)
    requires Coherent(r) && t in Seekers(r, chain) && a !in r.db.history
    ensures var next := Advance(r, Commit(t, a));
      && Coherent(next) && Seekers(next, chain) == Seekers(r, chain) - {t}
      && Done(next.db, chain) == Done(r.db, chain) + {a} && next.db.history.Keys == r.db.history.Keys + {a}
  {
    CommitPotential(r, t, a, chain);
    StepKeepsCoherent(r, Commit(t, a));
  }

  lemma LateLookupFails(r: Race, t: Tid, q: Tid, a: EntryId, b: EntryId, chain: string)
    requires Coherent(r) && t in Seekers(r, chain) && q in r.open && q != t && r.open[q].lookup.NotYet?
    requires HashOf(r.open[q].input) == HashOf(r.open[t].input)
    requires WillCount(r.db, r.open[q].(lookup := Answered(None)), chain)
    requires a !in r.db.history && b !in r.db.history && a != b
    requires forall i :: i in r.db.history ==> !Names(r.db.history[i].hash, chain)
    ensures var found := Advance(r, Commit(t, a));
      && Possible(found, LookUp(q, Some(a))) && !Possible(found, LookUp(q, None))
      && Done(Advance(Advance(found, LookUp(q, Some(a))), Commit(q, b)).db, chain) == {a}
  {
    CommitPotential(r, t, a, chain);
    var found := Advance(r, Commit(t, a));
    assert found.db.history == r.db.history[a := NewEntry(r.open[t].input, Completed)];
    assert found.open[q] == r.open[q];
    var looked := Advance(found, LookUp(q, Some(a)));
    assert looked.open[q].lookup == Answered(Some(a)) && looked.db == found.db;
    assert Advance(looked, Commit(q, b)).db == found.db;
  }

  /** A call that nothing interrupts does what the recorder does in one step. */
  lemma UninterruptedIsOneStep(r: Race, tid: Tid, variant: Variant, input: Input, found: Option<EntryId>, newId: EntryId)
    requires Possible(r, Begin(tid, variant, input, true)) && newId !in r.db.history && QueryAnswers(r.db.history, HashOf(input), found)
    ensures var end := Advance(Advance(Advance(r, Begin(tid, variant, input, true)), LookUp(tid, found)), Commit(tid, newId));
      end == Race(SavingsRecords.Apply(r.db, RecordSuccess(variant, input, found, newId)), r.open)
  {
    var begun := Advance(r, Begin(tid, variant, input, true));
    var looked := Advance(begun, LookUp(tid, found));
    assert looked.db == r.db && looked.open == r.open[tid := Call(variant, input, true, Answered(found))];
    assert looked.open - {tid} == r.open;
  }

  /** What a call found of its own user's does not change under it: only it holds that user's row. */
  lemma OwnRowsAreFrozen(r: Race, t: Tid, step: Step, i: EntryId)
    requires Coherent(r) && t in r.open && i in r.db.history && r.db.history[i].userId == r.open[t].input.userId
    requires step != Commit(t, if step.Commit? then step.newId else 0)
    ensures i in Advance(r, step).db.history && Advance(r, step).db.history[i] == r.db.history[i]
    ensures Advance(r, step).db.users[r.open[t].input.userId] == r.db.users[r.open[t].input.userId]
  {
    if step.Commit? && Possible(r, step) { CommitShape(r.db, r.open[step.tid], step.newId); }
    hide Committed, Valid, QueryAnswers;
  }

  /** A call of the server action for a vault deposit of 100 by the user "u". */
  function HundredSent(hash: string, newId: EntryId): Event {
    RecordSuccess(ServerAction, Input("u", Some(Deposit), 100, "vault", hash, ""), None, newId)
  }

  /** Letter case is not compared: one transaction recorded under two spellings is credited twice. */
  lemma SpellingsCountTwice(hash: string, other: string)
    requires IsTxHash(hash) && IsTxHash(other) && hash != other && Folded(hash) == Folded(other)
    ensures SavingsRecords.Run(State(map["u" := User(0, true)], map[]), [HundredSent(hash, 0), HundredSent(other, 1)]).users
         == map["u" := User(200, true)]
  {
    hide SavingsRecords.Apply, SavingsRecords.Run, IsTxHash, HundredSent, Folded;
    var s := State(map["u" := User(0, true)], map[]);
    RunOfTwo(s, HundredSent(hash, 0), HundredSent(other, 1));
    NewDepositIsCredited(s, hash, 0);
    NewDepositIsCredited(SavingsRecords.Apply(s, HundredSent(hash, 0)), other, 1);
  }

  lemma RunOfTwo(s: State, a: Event, b: Event)
    ensures SavingsRecords.Run(s, [a, b]) == SavingsRecords.Apply(SavingsRecords.Apply(s, a), b)
  {
    hide SavingsRecords.Apply;
    var once := SavingsRecords.Apply(s, a);
    assert [a, b][1..] == [b] && [b][1..] == [];
    assert SavingsRecords.Run(s, [a, b]) == SavingsRecords.Run(once, [b]) == SavingsRecords.Run(SavingsRecords.Apply(once, b), []);
  }

  lemma NewDepositIsCredited(s: State, hash: string, newId: EntryId)
    requires IsTxHash(hash) && s.users.Keys == {"u"} && newId !in s.history
    requires forall i :: i in s.history ==> s.history[i].hash != Some(hash)
    ensures var next := SavingsRecords.Apply(s, HundredSent(hash, newId));
      && next.users == map["u" := User(s.users["u"].savingsBalance + 100, true)]
      && next.history == s.history[newId := Entry("u", Deposit, Completed, 100, Some(hash))]
  {
    assert IsHex(hash[0]) && IsHex(hash[63]);
    assert HashOf(Input("u", Some(Deposit), 100, "vault", hash, "")) == Some(hash);
  }
}
