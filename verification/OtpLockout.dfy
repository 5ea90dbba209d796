/** General one-time codes of one user: issuing, verifying, and the two-stage account lock. */
module OtpLockout {
  import opened Outcomes

  const CODE_LIFETIME_MS := 5 * 60 * 1000
  const ONE_HOUR_MS := 60 * 60 * 1000
  const SHORT_LOCK_MS := 30 * 60 * 1000
  const LONG_LOCK_MS := 24 * 60 * 60 * 1000
  const MAX_ATTEMPTS := 5
  const MAX_FAILURES := 10
  const MAX_RETRIES := 3

  type Id = nat

  datatype Record = Record(action: Option<string>, createdAt: int, expiresAt: int, attempts: int, isUsed: bool)

  datatype User = User(
    status: string, loginAttempts: int, isPhoneVerified: bool, lastOtpSentAt: Option<int>,
    otpFailedAttempts: int, windowStart: Option<int>, lockUntil: Option<int>)

  datatype State = State(records: map<Id, Record>, user: User)

  datatype Outcome =
    | NoVerificationFound | Expired | AccountLocked | MaxAttemptsExceeded
    | LockedFor24Hours | LockedFor30Minutes | InvalidCode(remaining: int) | Success

  /** One call, at an instant, with the answers it gets from outside: the id a new row receives,
      the row the query returns, whether the code compares equal. A code is asked for at an earlier
      instant than its row is committed; `sentAt` is when its user is marked, None if that fails. */
  datatype Op =
    | StoreOp(now: int, requestedAt: int, sentAt: Option<int>, id: Id, action: Option<string>)
    | VerifyOp(now: int, found: Option<Id>, matches: bool)
    | CleanupOp(now: int)

  // ---- Database statements ----------------------------------------------------------

  predicate IsOpenGeneral(r: Record) { !r.isUsed && r.action == None }

  /** `findFirst` of the unused general rows, newest first. */
  predicate QueryAnswers(records: map<Id, Record>, found: Option<Id>) {
    match found
    case None => forall i :: i in records ==> !IsOpenGeneral(records[i])
    case Some(id) =>
      && id in records && IsOpenGeneral(records[id])
      && forall i :: i in records && IsOpenGeneral(records[i]) ==> records[i].createdAt <= records[id].createdAt
  }

  function Invalidated(records: map<Id, Record>, action: Option<string>): map<Id, Record> {
    map i | i in records :: if !records[i].isUsed && records[i].action == action then records[i].(isUsed := true) else records[i]
  }

  function Committed(s: State, now: int, requestedAt: int, id: Id, action: Option<string>): State {
    s.(records := Invalidated(s.records, action)[id := Record(action, now, requestedAt + CODE_LIFETIME_MS, 0, false)])
  }

  function Marked(s: State, sentAt: Option<int>): State {
    if sentAt.None? then s else s.(user := s.user.(lastOtpSentAt := sentAt))
  }

  /** The committed transaction, then the update of the user, which may fail on its own. */
  function Stored(s: State, now: int, requestedAt: int, sentAt: Option<int>, id: Id, action: Option<string>): State {
    Marked(Committed(s, now, requestedAt, id, action), sentAt)
  }

  function Cleaned(s: State, now: int): State {
    s.(records := map i | i in s.records && s.records[i].expiresAt >= now :: s.records[i])
  }

  predicate LockActive(user: User, now: int) { user.lockUntil.Some? && now < user.lockUntil.value }

  // ---- verifyOTP --------------------------------------------------------------------

  /** The failure count and window that a further failure leads to. */
  function Counted(user: User, now: int): (int, int) {
    if user.windowStart.None? || user.windowStart.value < now - ONE_HOUR_MS then (1, now)
    else (user.otpFailedAttempts + 1, user.windowStart.value)
  }

  function Failed(s: State, now: int, id: Id): (State, Outcome)
    requires id in s.records
  {
    var attempts := s.records[id].attempts + 1;
    var (failures, windowStart) := Counted(s.user, now);
    var noted := State(s.records[id := s.records[id].(attempts := attempts)],
                       s.user.(otpFailedAttempts := failures, windowStart := Some(windowStart)));
    if failures >= MAX_FAILURES then
      (noted.(user := noted.user.(lockUntil := Some(now + LONG_LOCK_MS), otpFailedAttempts := 0, windowStart := None)), LockedFor24Hours)
    else if attempts >= MAX_ATTEMPTS then
      (noted.(user := noted.user.(lockUntil := Some(now + SHORT_LOCK_MS))), LockedFor30Minutes)
    else (noted, InvalidCode(MAX_ATTEMPTS - attempts))
  }

  function Verified(s: State, now: int, found: Option<Id>, matches: bool): (State, Outcome)
    requires QueryAnswers(s.records, found)
  {
    match found
    case None => (s, NoVerificationFound)
    case Some(id) =>
      if now > s.records[id].expiresAt then (s, Expired)
      else if LockActive(s.user, now) then (s, AccountLocked)
      else if s.records[id].attempts >= MAX_ATTEMPTS then (s, MaxAttemptsExceeded)
      else if !matches then Failed(s, now, id)
      else
        var cleared := s.user.(status := "active", lockUntil := None, loginAttempts := 0, otpFailedAttempts := 0,
                               windowStart := None, isPhoneVerified := true);
        (State(s.records - {id}, cleared), Success)
  }

  /** An op whose outside answers do not fit the state is no step. */
  predicate Fits(s: State, op: Op) {
    match op
    case StoreOp(_, _, _, id, _) => id !in s.records
    case VerifyOp(_, found, _) => QueryAnswers(s.records, found)
    case CleanupOp(_) => true
  }

  function Apply(s: State, op: Op): State {
    if !Fits(s, op) then s
    else match op
      case StoreOp(now, requestedAt, sentAt, id, action) => Stored(s, now, requestedAt, sentAt, id, action)
      case VerifyOp(now, found, matches) => Verified(s, now, found, matches).0
      case CleanupOp(now) => Cleaned(s, now)
  }

  function Run(s: State, ops: seq<Op>): State
    decreases |ops|
  {
    if ops == [] then s else Run(Apply(s, ops[0]), ops[1..])
  }

  predicate Yields(s: State, op: Op, outcome: Outcome) {
    op.VerifyOp? && Fits(s, op) && Verified(s, op.now, op.found, op.matches).1 == outcome
  }

  predicate Succeeds(s: State, op: Op) { Yields(s, op, Success) }

  predicate LocksForADay(s: State, op: Op) { Yields(s, op, LockedFor24Hours) }

  /** A wrong code that was counted. */
  predicate CountsFailure(s: State, op: Op) {
    op.VerifyOp? && Fits(s, op) && var outcome := Verified(s, op.now, op.found, op.matches).1;
    outcome.InvalidCode? || outcome.LockedFor30Minutes? || outcome.LockedFor24Hours?
  }

  predicate Clocked(ops: seq<Op>, from: int)
    decreases |ops|
  {
    ops == [] || (from <= ops[0].now && Clocked(ops[1..], ops[0].now))
  }
}

module OtpLockoutProofs {
  import opened Numbers
  import opened Outcomes
  import opened OtpLockout

  ghost predicate Valid(s: State, now: int) {
    && 0 <= s.user.otpFailedAttempts < MAX_FAILURES
    && (s.user.windowStart.Some? ==> s.user.windowStart.value <= now && s.user.otpFailedAttempts >= 1)
    && (forall i :: i in s.records && s.records[i].action == None ==> 0 <= s.records[i].attempts <= MAX_ATTEMPTS)
    && (forall i, j :: i in s.records && j in s.records && IsOpenGeneral(s.records[i]) && IsOpenGeneral(s.records[j]) ==> i == j)
  }

  lemma CommitKeepsValid(s: State, now: int, requestedAt: int, id: Id, action: Option<string>)
    requires Valid(s, now) && id !in s.records
    ensures Valid(Committed(s, now, requestedAt, id, action), now)
  {}

  lemma StoreKeepsValid(s: State, now: int, requestedAt: int, sentAt: Option<int>, id: Id, action: Option<string>)
    requires Valid(s, now) && id !in s.records
    ensures Valid(Stored(s, now, requestedAt, sentAt, id, action), now)
  {
    CommitKeepsValid(s, now, requestedAt, id, action);
    hide Committed;
  }

  lemma VerifyKeepsValid(s: State, now: int, found: Option<Id>, matches: bool)
    requires Valid(s, now) && QueryAnswers(s.records, found)
    ensures Valid(Verified(s, now, found, matches).0, now)
  {}

  lemma StepKeepsValid(s: State, op: Op, now: int)
    requires Valid(s, now) && now <= op.now
    ensures Valid(Apply(s, op), op.now)
  {
    hide Stored, Verified;
    if Fits(s, op) {
      match op
      case StoreOp(at, requestedAt, sentAt, id, action) => StoreKeepsValid(s, at, requestedAt, sentAt, id, action);
      case VerifyOp(at, found, matches) => VerifyKeepsValid(s, at, found, matches);
      case CleanupOp(_) =>
    }
  }

  function LastInstant(ops: seq<Op>, from: int): int {
    if ops == [] then from else ops[|ops| - 1].now
  }

  /** Between calls the failure counter is at most 9, no general code has more than 5 attempts
      against it, and at most one general code is open. */
  lemma {:induction false} RunKeepsValid(s: State, ops: seq<Op>, now: int)
    requires Valid(s, now) && Clocked(ops, now)
    ensures Valid(Run(s, ops), LastInstant(ops, now))
    decreases |ops|
  {
    if ops != [] {
      StepKeepsValid(s, ops[0], now);
      RunKeepsValid(Apply(s, ops[0]), ops[1..], ops[0].now);
    }
  }

  // ---- What a verification answers --------------------------------------------------

  /** A code is compared: the open one is found in time, the account is not locked, and fewer than
      five attempts are counted against it. */
  predicate Compared(s: State, now: int, found: Option<Id>) {
    found.Some? && found.value in s.records && now <= s.records[found.value].expiresAt && s.records[found.value].attempts < MAX_ATTEMPTS
      && (s.user.lockUntil.None? || s.user.lockUntil.value <= now)
  }

  /** The failure is the tenth since a window opened that is at most an hour old. */
  predicate TenthInWindow(user: User, now: int) {
    user.windowStart.Some? && now - ONE_HOUR_MS <= user.windowStart.value && user.otpFailedAttempts + 1 >= MAX_FAILURES
  }

  /** What the answer says about the state and the guess. */
  predicate Means(s: State, now: int, found: Option<Id>, matches: bool, outcome: Outcome) {
    match outcome
    case NoVerificationFound => found.None?
    case Expired => found.Some? && found.value in s.records && s.records[found.value].expiresAt < now
    case AccountLocked => found.Some? && found.value in s.records && now <= s.records[found.value].expiresAt && LockActive(s.user, now)
    case MaxAttemptsExceeded =>
      found.Some? && found.value in s.records && now <= s.records[found.value].expiresAt && !LockActive(s.user, now)
        && s.records[found.value].attempts >= MAX_ATTEMPTS
    case LockedFor24Hours => Compared(s, now, found) && !matches && TenthInWindow(s.user, now)
    case LockedFor30Minutes =>
      Compared(s, now, found) && !matches && !TenthInWindow(s.user, now) && s.records[found.value].attempts == MAX_ATTEMPTS - 1
    case InvalidCode(remaining) =>
      Compared(s, now, found) && !matches && !TenthInWindow(s.user, now)
        && 0 < remaining == MAX_ATTEMPTS - 1 - s.records[found.value].attempts
    case Success => Compared(s, now, found) && matches
  }

  /** Each answer is given exactly when it is true: success, in particular, exactly for a right guess at
      the open general code, in time, unlocked and missed fewer than five times. */
  lemma AnswersExactly(s: State, now: int, found: Option<Id>, matches: bool, outcome: Outcome)
    requires Valid(s, now) && QueryAnswers(s.records, found)
    ensures Verified(s, now, found, matches).1 == outcome <==> Means(s, now, found, matches, outcome)
  {}

  /** Success removes the row and clears the account; a miss adds one attempt and one failure, and the
      fifth on the code, or the tenth in the window, locks; every other answer writes nothing. */
  lemma VerificationWrites(s: State, now: int, found: Option<Id>, matches: bool)
    requires QueryAnswers(s.records, found)
    ensures var (next, outcome) := Verified(s, now, found, matches);
      if !Compared(s, now, found) then next == s
      else
        var id, row := found.value, s.records[found.value];
        if outcome.Success? then
          && next.records == s.records - {id}
          && next.user == s.user.(status := "active", isPhoneVerified := true, loginAttempts := 0,
                                  otpFailedAttempts := 0, windowStart := None, lockUntil := None)
        else
          && next.records == s.records[id := row.(attempts := row.attempts + 1)]
          && next.user == s.user.(otpFailedAttempts := next.user.otpFailedAttempts, windowStart := next.user.windowStart, lockUntil := next.user.lockUntil)
          && next.user.lockUntil == (match outcome
               case LockedFor24Hours => Some(now + 24 * ONE_HOUR_MS)
               case LockedFor30Minutes => Some(now + ONE_HOUR_MS / 2)
               case _ => s.user.lockUntil)
          && (next.user.otpFailedAttempts, next.user.windowStart) ==
               if outcome.LockedFor24Hours? then (0, None)
               else if s.user.windowStart.Some? && now - s.user.windowStart.value <= ONE_HOUR_MS
                 then (s.user.otpFailedAttempts + 1, s.user.windowStart)
               else (1, Some(now))
  {}

  // ---- A code's life ----------------------------------------------------------------

  predicate Stores(s: State, op: Op, id: Id) { op.StoreOp? && Fits(s, op) && op.id == id }

  predicate VerifiesRow(s: State, op: Op, id: Id) { Succeeds(s, op) && op.found == Some(id) }

  predicate MissesRow(s: State, op: Op, id: Id) { CountsFailure(s, op) && op.found == Some(id) }

  function TimesStored(s: State, ops: seq<Op>, id: Id): nat
    decreases |ops|
  {
    if ops == [] then 0 else Count(Stores(s, ops[0], id)) + TimesStored(Apply(s, ops[0]), ops[1..], id)
  }

  function TimesVerified(s: State, ops: seq<Op>, id: Id): nat
    decreases |ops|
  {
    if ops == [] then 0 else Count(VerifiesRow(s, ops[0], id)) + TimesVerified(Apply(s, ops[0]), ops[1..], id)
  }

  function TimesMissed(s: State, ops: seq<Op>, id: Id): nat
    decreases |ops|
  {
    if ops == [] then 0 else Count(MissesRow(s, ops[0], id)) + TimesMissed(Apply(s, ops[0]), ops[1..], id)
  }

  lemma StepSpendsRow(s: State, op: Op, id: Id)
    ensures Count(VerifiesRow(s, op, id)) + Count(id in Apply(s, op).records) <= Count(id in s.records) + Count(Stores(s, op, id))
  {}

  /** Over any run from any state a row yields a success at most once for each time it is stored, and
      once if it was there at the start: with ids not reused, once in all. */
  lemma {:induction false} CodeWorksOnce(s: State, ops: seq<Op>, id: Id)
    ensures TimesVerified(s, ops, id) + Count(id in Run(s, ops).records) <= Count(id in s.records) + TimesStored(s, ops, id)
    decreases |ops|
  {
    hide Apply, VerifiesRow, Stores;
    if ops != [] {
      StepSpendsRow(s, ops[0], id);
      CodeWorksOnce(Apply(s, ops[0]), ops[1..], id);
    }
  }

  lemma StepMissesRow(s: State, op: Op, id: Id)
    requires !Stores(s, op, id)
    ensures id in Apply(s, op).records ==>
              id in s.records && Apply(s, op).records[id].attempts == s.records[id].attempts + Count(MissesRow(s, op, id))
    ensures MissesRow(s, op, id) ==> id in Apply(s, op).records && s.records[id].attempts < MAX_ATTEMPTS
  {}

  /** However often it is tried, a stored code is missed at most five times in all, and while it is
      stored its attempts are exactly its misses. */
  lemma {:induction false} CodeIsMissedAtMostFive(s: State, ops: seq<Op>, id: Id)
    requires TimesStored(s, ops, id) == 0 && (id in s.records ==> s.records[id].attempts <= MAX_ATTEMPTS)
    ensures TimesMissed(s, ops, id) <= if id in s.records then MAX_ATTEMPTS - s.records[id].attempts else 0
    ensures id in Run(s, ops).records ==>
              id in s.records && Run(s, ops).records[id].attempts == s.records[id].attempts + TimesMissed(s, ops, id)
    decreases |ops|
  {
    hide Apply, MissesRow, Stores;
    if ops != [] {
      StepMissesRow(s, ops[0], id);
      CodeIsMissedAtMostFive(Apply(s, ops[0]), ops[1..], id);
    }
  }

  lemma {:induction false} RunSnoc(s: State, ops: seq<Op>, op: Op)
    ensures Run(s, ops + [op]) == Apply(Run(s, ops), op)
    decreases |ops|
  {
    hide Apply;
    if ops == [] {
      assert ops + [op] == [op];
      assert Run(s, [op]) == Run(Apply(s, op), []);
    } else {
      assert (ops + [op])[1..] == ops[1..] + [op];
      RunSnoc(Apply(s, ops[0]), ops[1..], op);
    }
  }

  predicate OpenGeneral(s: State, id: Id) { id in s.records && IsOpenGeneral(s.records[id]) }

  predicate StoresGeneral(s: State, op: Op) { op.StoreOp? && Fits(s, op) && op.action == None }

  lemma OpenStep(s: State, op: Op, id: Id)
    requires OpenGeneral(Apply(s, op), id)
    ensures var expiresAt := Apply(s, op).records[id].expiresAt;
      if StoresGeneral(s, op) then op.id == id && expiresAt == op.requestedAt + CODE_LIFETIME_MS
      else OpenGeneral(s, id) && expiresAt == s.records[id].expiresAt
  {}

  /** An open general code was stored by the run, expires five minutes after it was asked for, and is
      the latest: none was stored after it. */
  lemma {:induction false} OpenCodeIsLatest(s: State, ops: seq<Op>, id: Id) returns (n: nat)
    requires s.records == map[] && OpenGeneral(Run(s, ops), id)
    ensures n < |ops| && StoresGeneral(Run(s, ops[..n]), ops[n]) && ops[n].id == id
    ensures Run(s, ops).records[id].expiresAt == ops[n].requestedAt + CODE_LIFETIME_MS
    ensures forall m :: n < m < |ops| ==> !StoresGeneral(Run(s, ops[..m]), ops[m])
    decreases |ops|
  {
    hide Apply, OpenGeneral, StoresGeneral;
    assert ops != [] by { NothingOpen(s, id); }
    n := |ops| - 1;
    var before, op := ops[..n], ops[n];
    assert ops == before + [op];
    RunSnoc(s, before, op);
    OpenStep(Run(s, before), op, id);
    if !StoresGeneral(Run(s, before), op) {
      n := OpenCodeIsLatest(s, before, id);
      forall m | 0 <= m < |before| ensures before[..m] == ops[..m] {}
    }
  }

  lemma NothingOpen(s: State, id: Id)
    requires s.records == map[]
    ensures !OpenGeneral(s, id)
  {}

  /** Whatever came before, a success is a right guess at the latest general code stored, at most five
      minutes after that code was asked for. */
  lemma SuccessIsOfLatestCode(s: State, ops: seq<Op>, op: Op) returns (n: nat)
    requires s.records == map[] && Succeeds(Run(s, ops), op)
    ensures n < |ops| && StoresGeneral(Run(s, ops[..n]), ops[n]) && op.matches && op.found == Some(ops[n].id)
    ensures op.now <= ops[n].requestedAt + 5 * 60 * 1000
    ensures forall m :: n < m < |ops| ==> !StoresGeneral(Run(s, ops[..m]), ops[m])
  {
    n := OpenCodeIsLatest(s, ops, op.found.value);
  }

  // ---- Issuing and cleaning up ------------------------------------------------------

  /** Storing a code puts the new row in, closes exactly the open rows of the same action, and changes
      nothing else: action codes and general ones leave each other alone. */
  lemma StoringClosesItsScope(s: State, now: int, requestedAt: int, sentAt: Option<int>, id: Id, action: Option<string>, i: Id)
    requires id !in s.records
    ensures var next := Stored(s, now, requestedAt, sentAt, id, action);
      && next.records.Keys == s.records.Keys + {id}
      && next.records[id] == Record(action, now, requestedAt + CODE_LIFETIME_MS, 0, false)
      && (i in s.records ==>
            && next.records[i] == s.records[i].(isUsed := next.records[i].isUsed)
            && (next.records[i].isUsed <==> s.records[i].isUsed || s.records[i].action == action))
      && next.user == s.user.(lastOtpSentAt := if sentAt.Some? then sentAt else s.user.lastOtpSentAt)
  {}

  /** Cleaning up keeps a row, unchanged, if and only if its lifetime is not over, and so changes no
      answer but one: that an expired code was found. */
  lemma CleanupKeepsExactlyTheLive(s: State, now: int, i: Id, at: int, found: Option<Id>, matches: bool)
    requires now <= at && QueryAnswers(s.records, found)
    ensures var next := Cleaned(s, now);
      && next.user == s.user
      && (i in next.records <==> i in s.records && now <= s.records[i].expiresAt)
      && (i in next.records ==> next.records[i] == s.records[i])
      && (!Verified(s, at, found, matches).1.Expired? ==>
            && QueryAnswers(next.records, found)
            && Verified(next, at, found, matches).1 == Verified(s, at, found, matches).1
            && Verified(next, at, found, matches).0 == Cleaned(Verified(s, at, found, matches).0, now))
  {}

  // ---- The lock ---------------------------------------------------------------------

  /** `b` lasts at least as long as `a`. */
  predicate AtLeastAsLong(a: Option<int>, b: Option<int>) {
    a.Some? ==> b.Some? && a.value <= b.value
  }

  /** No op of the run verifies a code. */
  predicate NoSuccess(s: State, ops: seq<Op>)
    decreases |ops|
  {
    ops == [] || (!Succeeds(s, ops[0]) && NoSuccess(Apply(s, ops[0]), ops[1..]))
  }

  /** Between successes the lock only ever gets longer. */
  lemma {:induction false} LockNeverShrinks(s: State, ops: seq<Op>)
    requires NoSuccess(s, ops)
    ensures AtLeastAsLong(s.user.lockUntil, Run(s, ops).user.lockUntil)
    decreases |ops|
  {
    if ops != [] { LockNeverShrinks(Apply(s, ops[0]), ops[1..]); }
  }

  function FailuresBetween(s: State, ops: seq<Op>, first: int, last: int): nat
    decreases |ops|
  {
    if ops == [] then 0
    else (if CountsFailure(s, ops[0]) && first <= ops[0].now <= last then 1 else 0)
         + FailuresBetween(Apply(s, ops[0]), ops[1..], first, last)
  }

  /** Until the lock runs out the account stays as it is: nothing is verified or counted. */
  lemma {:induction false} LockHoldsToItsEnd(s: State, ops: seq<Op>, now: int, first: int, last: int)
    requires Clocked(ops, now) && s.user.lockUntil.Some? && LastInstant(ops, now) < s.user.lockUntil.value
    ensures NoSuccess(s, ops) && FailuresBetween(s, ops, first, last) == 0
    ensures Run(s, ops).user == s.user.(lastOtpSentAt := Run(s, ops).user.lastOtpSentAt)
    decreases |ops|
  {
    if ops != [] {
      LastIsLatest(ops, now);
      LockHoldsToItsEnd(Apply(s, ops[0]), ops[1..], ops[0].now, first, last);
    }
  }

  lemma {:induction false} LastIsLatest(ops: seq<Op>, now: int)
    requires Clocked(ops, now)
    ensures now <= LastInstant(ops, now) && (ops != [] ==> ops[0].now <= LastInstant(ops, now))
    decreases |ops|
  {
    if ops != [] { LastIsLatest(ops[1..], ops[0].now); }
  }

  /** After a 24-hour lock nothing is verified or counted for 24 hours. */
  lemma DayLockLastsADay(s: State, op: Op, ops: seq<Op>, first: int, last: int)
    requires LocksForADay(s, op) && Clocked(ops, op.now) && LastInstant(ops, op.now) < op.now + LONG_LOCK_MS
    ensures NoSuccess(Apply(s, op), ops) && FailuresBetween(Apply(s, op), ops, first, last) == 0
  {
    LockHoldsToItsEnd(Apply(s, op), ops, op.now, first, last);
  }

  // ---- Failures in an hour ----------------------------------------------------------

  const HOURLY_CAP := 2 * (MAX_FAILURES - 1) - 1

  /** No success and no 24-hour lock between two instants, both included. */
  predicate QuietBetween(s: State, ops: seq<Op>, first: int, last: int)
    decreases |ops|
  {
    ops == [] ||
    (!(first <= ops[0].now <= last && (Succeeds(s, ops[0]) || LocksForADay(s, ops[0])))
     && QuietBetween(Apply(s, ops[0]), ops[1..], first, last))
  }

  /** How many counted failures an hour [first, last] can have seen, by where the current window
      started: it shares the hour with at most one earlier window, whose first failure came before. */
  ghost predicate Within(user: User, first: int, now: int, seen: int) {
    && (seen > 0 ==> first <= now)
    && 0 <= seen <= HOURLY_CAP
    && (now <= first + ONE_HOUR_MS ==>
          match user.windowStart
          case None => seen == 0
          case Some(start) =>
            if start < first then seen <= user.otpFailedAttempts - 1
            else seen <= MAX_FAILURES - 2 + user.otpFailedAttempts)
  }

  lemma StepWithin(s: State, op: Op, first: int, now: int, seen: int)
    requires Valid(s, now) && now <= op.now && Within(s.user, first, now, seen)
    requires first <= op.now <= first + ONE_HOUR_MS ==> !Succeeds(s, op) && !LocksForADay(s, op)
    ensures var counted := if CountsFailure(s, op) && first <= op.now <= first + ONE_HOUR_MS then 1 else 0;
            Within(Apply(s, op).user, first, op.now, seen + counted)
  {}

  lemma {:induction false} RunWithin(s: State, ops: seq<Op>, first: int, now: int, seen: int)
    requires Valid(s, now) && Clocked(ops, now) && Within(s.user, first, now, seen)
    requires QuietBetween(s, ops, first, first + ONE_HOUR_MS)
    ensures seen + FailuresBetween(s, ops, first, first + ONE_HOUR_MS) <= HOURLY_CAP
    decreases |ops|
  {
    if ops != [] {
      var op := ops[0];
      var counted := if CountsFailure(s, op) && first <= op.now <= first + ONE_HOUR_MS then 1 else 0;
      StepKeepsValid(s, op, now);
      StepWithin(s, op, first, now, seen);
      RunWithin(Apply(s, op), ops[1..], first, op.now, seen + counted);
    }
  }

  /** Any closed hour without a success or a 24-hour lock holds at most 17 counted failures. */
  lemma AtMostSeventeenFailuresAnHour(s: State, ops: seq<Op>, first: int, now: int)
    requires Valid(s, now) && Clocked(ops, now)
    requires QuietBetween(s, ops, first, first + ONE_HOUR_MS)
    ensures FailuresBetween(s, ops, first, first + ONE_HOUR_MS) <= 17
  {
    RunWithin(s, ops, first, now, 0);
  }

  function Asked(now: int, id: Id): Op { StoreOp(now, now, Some(now), id, None) }

  /** A new code asked for and then missed, n times in a row; rows get ids from `id` on. */
  function Misses(now: int, id: Id, n: nat): seq<Op>
    decreases n
  {
    if n == 0 then []
    else [Asked(now, id), VerifyOp(now, Some(id), false)] + Misses(now, id + 1, n - 1)
  }

  ghost predicate IdsBelow(s: State, id: Id) { forall i :: i in s.records ==> i < id }

  function Missed(s: State, now: int, id: Id): State {
    Apply(Apply(s, Asked(now, id)), VerifyOp(now, Some(id), false))
  }

  lemma MissIsCounted(s: State, now: int, id: Id)
    requires Valid(s, now) && IdsBelow(s, id) && s.user.lockUntil == None && Counted(s.user, now).0 < MAX_FAILURES
    ensures var issued := Apply(s, Asked(now, id));
            var miss := VerifyOp(now, Some(id), false);
            CountsFailure(issued, miss) && !LocksForADay(issued, miss) && !Succeeds(issued, miss)
    ensures var after := Missed(s, now, id);
            && Valid(after, now) && IdsBelow(after, id + 1) && after.user.lockUntil == None
            && after.user.otpFailedAttempts == Counted(s.user, now).0
            && after.user.windowStart == Some(Counted(s.user, now).1)
  {
    var issued := Apply(s, Asked(now, id));
    StepKeepsValid(s, Asked(now, id), now);
    StepKeepsValid(issued, VerifyOp(now, Some(id), false), now);
  }

  /** The first miss of several, and the rest. */
  lemma MissesSplit(s: State, now: int, id: Id, n: nat, first: int, last: int)
    requires n > 0 && Valid(s, now) && IdsBelow(s, id) && s.user.lockUntil == None && Counted(s.user, now).0 < MAX_FAILURES
    ensures var rest := Misses(now, id + 1, n - 1);
            && Run(s, Misses(now, id, n)) == Run(Missed(s, now, id), rest)
            && FailuresBetween(s, Misses(now, id, n), first, last) ==
                 (if first <= now <= last then 1 else 0) + FailuresBetween(Missed(s, now, id), rest, first, last)
            && (QuietBetween(s, Misses(now, id, n), first, last) <==> QuietBetween(Missed(s, now, id), rest, first, last))
  {
    var ops, rest := Misses(now, id, n), Misses(now, id + 1, n - 1);
    var issue, miss := Asked(now, id), VerifyOp(now, Some(id), false);
    MissIsCounted(s, now, id);
    assert !CountsFailure(s, issue) && !Succeeds(s, issue) && !LocksForADay(s, issue);
    hide Apply, CountsFailure, Succeeds, LocksForADay, Counted;
    assert ops == [issue, miss] + rest;
    assert ops[0] == issue && ops[1..][0] == miss && ops[1..][1..] == rest;
    assert Run(s, ops) == Run(Apply(s, issue), ops[1..]) == Run(Missed(s, now, id), rest);
  }

  /** Misses inside an open window all count until nine are reached. */
  lemma {:induction false} MissesCount(s: State, now: int, id: Id, n: nat, first: int, last: int)
    requires Valid(s, now) && IdsBelow(s, id) && s.user.lockUntil == None && first <= now <= last
    requires s.user.windowStart.Some? && s.user.windowStart.value >= now - ONE_HOUR_MS
    requires s.user.otpFailedAttempts + n < MAX_FAILURES
    ensures FailuresBetween(s, Misses(now, id, n), first, last) == n && QuietBetween(s, Misses(now, id, n), first, last)
    ensures var after := Run(s, Misses(now, id, n));
            && Valid(after, now) && IdsBelow(after, id + n) && after.user.lockUntil == None
            && after.user.windowStart == s.user.windowStart
    decreases n
  {
    hide Apply, Valid, Missed;
    if n > 0 {
      MissIsCounted(s, now, id);
      MissesSplit(s, now, id, n, first, last);
      MissesCount(Missed(s, now, id), now, id + 1, n - 1, first, last);
    }
  }

  lemma {:induction false} FailuresConcat(s: State, ops: seq<Op>, more: seq<Op>, first: int, last: int)
    ensures FailuresBetween(s, ops + more, first, last) ==
              FailuresBetween(s, ops, first, last) + FailuresBetween(Run(s, ops), more, first, last)
    ensures QuietBetween(s, ops + more, first, last) <==>
              QuietBetween(s, ops, first, last) && QuietBetween(Run(s, ops), more, first, last)
    decreases |ops|
  {
    if ops == [] {
      assert ops + more == more;
    } else {
      assert (ops + more)[1..] == ops[1..] + more;
      FailuresConcat(Apply(s, ops[0]), ops[1..], more, first, last);
    }
  }

  /** The first miss, or one after the window has run out, starts a new window. */
  lemma OpeningMiss(s: State, now: int, id: Id, first: int, last: int)
    requires Valid(s, now) && IdsBelow(s, id) && s.user.lockUntil == None
    requires s.user.windowStart.Some? ==> s.user.windowStart.value < now - ONE_HOUR_MS
    ensures var after := Run(s, Misses(now, id, 1));
            && Valid(after, now) && IdsBelow(after, id + 1) && after.user.lockUntil == None
            && after.user.otpFailedAttempts == 1 && after.user.windowStart == Some(now)
    ensures FailuresBetween(s, Misses(now, id, 1), first, last) == if first <= now <= last then 1 else 0
    ensures QuietBetween(s, Misses(now, id, 1), first, last)
  {
    hide Apply, Valid, Missed;
    MissIsCounted(s, now, id);
    MissesSplit(s, now, id, 1, first, last);
  }

  /** Seventeen is reached: one miss opens a window, eight more close it an hour later, and nine
      fill the next window one millisecond after that. */
  lemma SeventeenIsReached(user: User)
    requires user.otpFailedAttempts == 0 && user.windowStart == None && user.lockUntil == None
    ensures var s := State(map[], user);
            var ops := Misses(0, 0, 1) + (Misses(ONE_HOUR_MS, 1, 8) + (Misses(ONE_HOUR_MS + 1, 9, 1) + Misses(ONE_HOUR_MS + 1, 10, 8)));
            QuietBetween(s, ops, 1, 1 + ONE_HOUR_MS) && FailuresBetween(s, ops, 1, 1 + ONE_HOUR_MS) == 17
  {
    hide Misses, Apply, Run, FailuresBetween, QuietBetween;
    var first, last := 1, 1 + ONE_HOUR_MS;
    var s := State(map[], user);
    var a, b, c, d := Misses(0, 0, 1), Misses(ONE_HOUR_MS, 1, 8), Misses(ONE_HOUR_MS + 1, 9, 1), Misses(ONE_HOUR_MS + 1, 10, 8);
    OpeningMiss(s, 0, 0, first, last);
    var s1 := Run(s, a);
    MissesCount(s1, ONE_HOUR_MS, 1, 8, first, last);
    var s2 := Run(s1, b);
    OpeningMiss(s2, ONE_HOUR_MS + 1, 9, first, last);
    var s3 := Run(s2, c);
    MissesCount(s3, ONE_HOUR_MS + 1, 10, 8, first, last);
    FailuresConcat(s, a, b + (c + d), first, last);
    FailuresConcat(s1, b, c + d, first, last);
    FailuresConcat(s2, c, d, first, last);
  }
}

/** The service: rows and counters are updated in place. */
module OtpService {
  import opened FiniteSets
  import opened Outcomes
  import opened OtpLockout

  datatype TxOutcome = Commit | SerializationFailure | DeadlockDetected | OtherError

  predicate Retryable(outcome: TxOutcome) { outcome.SerializationFailure? || outcome.DeadlockDetected? }

  /** The attempt that decides: the first not to fail retryably, or the last one allowed. */
  function DecidingAttempt(answers: nat -> TxOutcome, attempt: nat): (k: nat)
    requires attempt < MAX_RETRIES
    ensures attempt <= k < MAX_RETRIES
    ensures forall i :: attempt <= i < k ==> Retryable(answers(i))
    ensures Retryable(answers(k)) ==> k == MAX_RETRIES - 1
    decreases MAX_RETRIES - attempt
  {
    if Retryable(answers(attempt)) && attempt < MAX_RETRIES - 1 then DecidingAttempt(answers, attempt + 1) else attempt
  }

  class Service {
    var records: map<Id, Record>
    var user: User

    ghost function Model(): State
      reads this
    {
      State(records, user)
    }

    constructor (user: User)
      ensures Model() == State(map[], user)
    {
      this.user, records := user, map[];
    }

    /** The transaction is tried up to three times; `answers` says how each try ends and `now` when.
        Exactly one commit takes effect, or none; the call returns the row, or throws with nothing
        stored, or throws with the row stored because marking the user failed. */
    method StoreOtp(requestedAt: int, now: nat -> int, sentAt: Option<int>, id: Id, action: Option<string>, answers: nat -> TxOutcome)
      returns (threw: bool)
      requires id !in records
      modifies this
      ensures var k := DecidingAttempt(answers, 0);
        && threw == (!answers(k).Commit? || sentAt.None?)
        && Model() == if answers(k).Commit? then Stored(old(Model()), now(k), requestedAt, sentAt, id, action) else old(Model())
    {
      var attempt, stored := 0, false;
      while attempt < MAX_RETRIES && !stored
        invariant attempt < MAX_RETRIES && DecidingAttempt(answers, 0) == DecidingAttempt(answers, attempt)
        invariant stored ==> answers(attempt).Commit?
        invariant Model() == if stored then Committed(old(Model()), now(attempt), requestedAt, id, action) else old(Model())
        decreases MAX_RETRIES - attempt, !stored
      {
        var answer := answers(attempt);
        if answer.Commit? {
          records := map i | i in records :: if !records[i].isUsed && records[i].action == action then records[i].(isUsed := true) else records[i];
          records := records[id := Record(action, now(attempt), requestedAt + CODE_LIFETIME_MS, 0, false)];
          stored := true;
        } else if Retryable(answer) && attempt < MAX_RETRIES - 1 {
          attempt := attempt + 1;
        } else {
          return true;
        }
      }
      if sentAt.None? { return true; }
      user := user.(lastOtpSentAt := sentAt);
      threw := false;
    }

    method FindOpenGeneral() returns (found: Option<Id>)
      ensures QueryAnswers(records, found)
    {
      found := None;
      var left := records.Keys;
      while left != {}
        invariant left <= records.Keys
        invariant match found
                  case None => forall i :: i in records.Keys - left ==> !IsOpenGeneral(records[i])
                  case Some(id) =>
                    && id in records && IsOpenGeneral(records[id])
                    && forall i :: i in records.Keys - left && IsOpenGeneral(records[i]) ==> records[i].createdAt <= records[id].createdAt
        decreases |left|
      {
        var i :| i in left;
        left := left - {i};
        if IsOpenGeneral(records[i]) && (found.None? || records[found.value].createdAt < records[i].createdAt) {
          found := Some(i);
        }
      }
    }

    method VerifyOtp(now: int, matches: bool) returns (outcome: Outcome, found: Option<Id>)
      modifies this
      ensures QueryAnswers(old(records), found)
      ensures (Model(), outcome) == Verified(old(Model()), now, found, matches)
    {
      found := FindOpenGeneral();
      if found.None? { return NoVerificationFound, found; }
      var id := found.value;
      if now > records[id].expiresAt { return Expired, found; }
      if user.lockUntil.Some? && now < user.lockUntil.value { return AccountLocked, found; }
      if records[id].attempts >= MAX_ATTEMPTS { return MaxAttemptsExceeded, found; }
      if !matches {
        var newAttempts := records[id].attempts + 1;
        records := records[id := records[id].(attempts := newAttempts)];
        var cumulativeFailures := user.otpFailedAttempts + 1;
        var windowStart := user.windowStart;
        if windowStart.None? || windowStart.value < now - ONE_HOUR_MS {
          cumulativeFailures, windowStart := 1, Some(now);
        }
        user := user.(otpFailedAttempts := cumulativeFailures, windowStart := windowStart);
        if cumulativeFailures >= MAX_FAILURES {
          user := user.(lockUntil := Some(now + LONG_LOCK_MS), otpFailedAttempts := 0, windowStart := None);
          return LockedFor24Hours, found;
        }
        if newAttempts >= MAX_ATTEMPTS {
          user := user.(lockUntil := Some(now + SHORT_LOCK_MS));
          return LockedFor30Minutes, found;
        }
        return InvalidCode(MAX_ATTEMPTS - newAttempts), found;
      }
      records := records - {id};
      user := user.(status := "active", lockUntil := None, loginAttempts := 0, otpFailedAttempts := 0,
                    windowStart := None, isPhoneVerified := true);
      outcome := Success;
    }

    method CleanupExpired(now: int) returns (deleted: nat)
      modifies `records
      ensures Model() == Cleaned(old(Model()), now)
      ensures deleted == |old(records)| - |records|
    {
      var kept := map i | i in records && records[i].expiresAt >= now :: records[i];
      assert kept.Keys <= records.Keys;
      SubsetIsSmaller(kept.Keys, records.Keys);
      deleted := |records| - |kept|;
      records := kept;
    }
  }
}

/** Both flows store their codes in one table; the two models of it agree. */
module OtpStores {
  import A = ActionOtp
  import O = OtpLockout
  import opened Outcomes

  /** One user's rows of the shared table. */
  function RowsOf(rows: map<nat, A.Row>, userId: string): map<nat, O.Record> {
    map i | i in rows && rows[i].userId == userId ::
      O.Record(rows[i].action, rows[i].createdAt, rows[i].expiresAt, rows[i].attempts, rows[i].isUsed)
  }

  /** Storing a code is, for its user, the one model's step, and leaves other users' rows alone. */
  lemma StoresAgree(s: O.State, rows: map<nat, A.Row>, now: int, id: nat, userId: string, action: Option<string>, other: string)
    requires s.records == RowsOf(rows, userId) && id !in rows
    ensures RowsOf(A.Stored(rows, now, id, userId, action), userId) == O.Committed(s, now, now, id, action).records
    ensures other != userId ==> RowsOf(A.Stored(rows, now, id, userId, action), other) == RowsOf(rows, other)
  {
    OwnRowsAgree(s, rows, now, id, userId, action);
    if other != userId {
      var after := RowsOf(A.Stored(rows, now, id, userId, action), other);
      assert after.Keys == RowsOf(rows, other).Keys;
      hide O.Committed;
    }
  }

  lemma OwnRowsAgree(s: O.State, rows: map<nat, A.Row>, now: int, id: nat, userId: string, action: Option<string>)
    requires s.records == RowsOf(rows, userId) && id !in rows
    ensures RowsOf(A.Stored(rows, now, id, userId, action), userId) == O.Committed(s, now, now, id, action).records
  {}
}
