/** The action-code verification endpoint as any number of interleaved requests. One database
    statement, together with the synchronous code that follows it, is one atomic step. */
module ActionOtp {
  import opened Outcomes

  const MAX_ATTEMPTS := 5
  const CODE_LIFETIME_MS := 5 * 60 * 1000

  type Id = nat
  type Rid = nat

  datatype Row = Row(userId: string, action: Option<string>, createdAt: int, expiresAt: int, attempts: int, isUsed: bool)

  datatype Response =
    | UserNotFound | Suspended | AccountLocked | NoActiveCode | CodeExpired
    | TooManyAttempts | Wrong(remaining: int) | AlreadyUsed | TokenIssued | ServerError

  datatype Phase =
    | Arrived | UserRead
    | Deleting(id: Id) | Failing(id: Id) | Consuming(id: Id) | Minting(id: Id)
    | Answered(response: Response)

  datatype Request = Request(userId: string, action: string, phase: Phase)

  /** Who a code was issued to, and for what. */
  datatype Scope = Scope(userId: string, action: Option<string>)

  datatype Token = Token(userId: string, action: string, source: Id)
  datatype Report = Report(source: Id, remaining: int)

  datatype State = State(
    now: int, rows: map<Id, Row>, issued: map<Id, Scope>, requests: map<Rid, Request>,
    tokens: seq<Token>, reports: seq<Report>)

  datatype UserAnswer = UserOk | UserMissing | UserSuspended | UserLocked

  datatype Event =
    | Tick(ms: nat)
    | Issue(id: Id, userId: string, scope: Option<string>)
    | Cleanup
    | GeneralFlow(id: Id, attempts: Option<int>)
    | Arrive(rid: Rid, userId: string, action: string)
    | ReadUser(rid: Rid, answer: UserAnswer)
    | ReadCode(rid: Rid, found: Option<Id>, matches: bool)
    | DeleteExpired(rid: Rid)
    | Increment(rid: Rid)
    | Consume(rid: Rid)
    | Mint(rid: Rid)
    | Crash(rid: Rid)

  // ---- Database statements ----------------------------------------------------------

  predicate IsOpen(row: Row, userId: string, action: Option<string>) {
    row.userId == userId && row.action == action && !row.isUsed
  }

  /** `findFirst` of the user's unused codes for the action, newest first. */
  predicate QueryAnswers(rows: map<Id, Row>, userId: string, action: string, found: Option<Id>) {
    match found
    case None => forall i :: i in rows ==> !IsOpen(rows[i], userId, Some(action))
    case Some(id) =>
      && id in rows && IsOpen(rows[id], userId, Some(action))
      && forall i :: i in rows && IsOpen(rows[i], userId, Some(action)) ==> rows[i].createdAt <= rows[id].createdAt
  }

  /** `storeOTP`: earlier unused codes of the same scope are marked used, and the new one inserted. */
  function Stored(rows: map<Id, Row>, now: int, id: Id, userId: string, action: Option<string>): map<Id, Row> {
    (map i | i in rows :: if IsOpen(rows[i], userId, action) then rows[i].(isUsed := true) else rows[i])
      [id := Row(userId, action, now, now + CODE_LIFETIME_MS, 0, false)]
  }

  // ---- Steps ------------------------------------------------------------------------

  function Moved(s: State, rid: Rid, phase: Phase): State
    requires rid in s.requests
  {
    s.(requests := s.requests[rid := s.requests[rid].(phase := phase)])
  }

  function AfterUserRead(answer: UserAnswer): Phase {
    match answer
    case UserOk => UserRead
    case UserMissing => Answered(UserNotFound)
    case UserSuspended => Answered(Suspended)
    case UserLocked => Answered(AccountLocked)
  }

  /** The checks between reading the code and the next statement. */
  function AfterCodeRead(s: State, found: Option<Id>, matches: bool): Phase
    requires found.Some? ==> found.value in s.rows
  {
    match found
    case None => Answered(NoActiveCode)
    case Some(id) =>
      if s.now > s.rows[id].expiresAt then Deleting(id)
      else if s.rows[id].attempts >= MAX_ATTEMPTS then Answered(TooManyAttempts)
      else if !matches then Failing(id)
      else Consuming(id)
  }

  /** An event that the state does not allow is no step. */
  predicate Enabled(s: State, e: Event) {
    match e
    case Tick(_) => true
    case Issue(id, _, _) => id !in s.issued
    case Cleanup => true
    case GeneralFlow(id, _) => id in s.rows && s.rows[id].action == None
    case Arrive(rid, _, _) => rid !in s.requests
    case ReadUser(rid, _) => rid in s.requests && s.requests[rid].phase.Arrived?
    case ReadCode(rid, found, _) =>
      rid in s.requests && s.requests[rid].phase.UserRead? &&
      QueryAnswers(s.rows, s.requests[rid].userId, s.requests[rid].action, found)
    case DeleteExpired(rid) => rid in s.requests && s.requests[rid].phase.Deleting?
    case Increment(rid) => rid in s.requests && s.requests[rid].phase.Failing?
    case Consume(rid) => rid in s.requests && s.requests[rid].phase.Consuming?
    case Mint(rid) => rid in s.requests && s.requests[rid].phase.Minting?
    case Crash(rid) => rid in s.requests && !s.requests[rid].phase.Answered?
  }

  function Incremented(s: State, rid: Rid, id: Id): State
    requires rid in s.requests
  {
    if id in s.rows && s.rows[id].attempts < MAX_ATTEMPTS then
      var attempts := s.rows[id].attempts + 1;
      Moved(s, rid, Answered(Wrong(MAX_ATTEMPTS - attempts))).(
        rows := s.rows[id := s.rows[id].(attempts := attempts)],
        reports := s.reports + [Report(id, MAX_ATTEMPTS - attempts)])
    else Moved(s, rid, Answered(TooManyAttempts))
  }

  function Consumed(s: State, rid: Rid, id: Id): State
    requires rid in s.requests
  {
    if id in s.rows && !s.rows[id].isUsed then Moved(s, rid, Minting(id)).(rows := s.rows - {id})
    else Moved(s, rid, Answered(AlreadyUsed))
  }

  function Apply(s: State, e: Event): State {
    if !Enabled(s, e) then s
    else match e
      case Tick(ms) => s.(now := s.now + ms)
      case Issue(id, userId, action) =>
        s.(rows := Stored(s.rows, s.now, id, userId, action), issued := s.issued[id := Scope(userId, action)])
      case Cleanup => s.(rows := map i | i in s.rows && s.rows[i].expiresAt >= s.now :: s.rows[i])
      case GeneralFlow(id, attempts) =>
        s.(rows := if attempts.None? then s.rows - {id} else s.rows[id := s.rows[id].(attempts := attempts.value)])
      case Arrive(rid, userId, action) => s.(requests := s.requests[rid := Request(userId, action, Arrived)])
      case ReadUser(rid, answer) => Moved(s, rid, AfterUserRead(answer))
      case ReadCode(rid, found, matches) => Moved(s, rid, AfterCodeRead(s, found, matches))
      case DeleteExpired(rid) =>
        Moved(s, rid, Answered(CodeExpired)).(rows := s.rows - {s.requests[rid].phase.id})
      case Increment(rid) => Incremented(s, rid, s.requests[rid].phase.id)
      case Consume(rid) => Consumed(s, rid, s.requests[rid].phase.id)
      case Mint(rid) =>
        var r := s.requests[rid];
        Moved(s, rid, Answered(TokenIssued)).(tokens := s.tokens + [Token(r.userId, r.action, r.phase.id)])
      case Crash(rid) => Moved(s, rid, Answered(ServerError))
  }

  function Run(s: State, events: seq<Event>): State
    decreases |events|
  {
    if events == [] then s else Run(Apply(s, events[0]), events[1..])
  }

  predicate Fresh(s: State) {
    s.rows == map[] && s.issued == map[] && s.requests == map[] && s.tokens == [] && s.reports == []
  }
}

module ActionOtpProofs {
  import opened Numbers
  import opened Outcomes
  import opened ActionOtp

  function Times(reports: seq<Report>, report: Report): nat {
    if reports == [] then 0
    else Times(reports[..|reports| - 1], report) + Count(reports[|reports| - 1] == report)
  }

  /** Rows belong to issued ids and keep their scope; failed attempts stay within the cap. */
  ghost predicate RowsOk(s: State) {
    forall i :: i in s.rows ==>
      && i in s.issued && s.issued[i] == Scope(s.rows[i].userId, s.rows[i].action)
      && (s.rows[i].action.Some? ==> 0 <= s.rows[i].attempts <= MAX_ATTEMPTS)
  }

  predicate HoldsId(phase: Phase) { phase.Deleting? || phase.Failing? || phase.Consuming? || phase.Minting? }

  /** A request works on a code of its own user and action; a code being minted is gone from the
      store, minted by one request only, and not minted before. */
  ghost predicate RequestsOk(s: State) {
    && (forall r :: r in s.requests && HoldsId(s.requests[r].phase) ==>
          var id := s.requests[r].phase.id;
          id in s.issued && s.issued[id] == Scope(s.requests[r].userId, Some(s.requests[r].action)))
    && (forall r :: r in s.requests && s.requests[r].phase.Minting? ==> Unminted(s, s.requests[r].phase.id))
    && (forall r, q :: r in s.requests && q in s.requests && r != q && s.requests[r].phase.Minting? && s.requests[q].phase.Minting?
          ==> s.requests[r].phase.id != s.requests[q].phase.id)
  }

  ghost predicate Unminted(s: State, id: Id) {
    id !in s.rows && forall i :: 0 <= i < |s.tokens| ==> s.tokens[i].source != id
  }

  /** Tokens carry the scope of the code they come from, one token per code, and the code is gone. */
  ghost predicate TokensOk(s: State) {
    && (forall i :: 0 <= i < |s.tokens| ==>
          var t := s.tokens[i];
          t.source in s.issued && t.source !in s.rows && s.issued[t.source] == Scope(t.userId, Some(t.action)))
    && (forall i, j :: 0 <= i < j < |s.tokens| ==> s.tokens[i].source != s.tokens[j].source)
  }

  /** A stored code has had exactly the counts 4 down to 5 - attempts reported, once each; a code
      that is gone has had none reported twice; none is reported for ids not issued. */
  ghost predicate ReportsOk(s: State) {
    && (forall id, n :: id in s.rows && s.rows[id].action.Some? ==>
          Times(s.reports, Report(id, n)) == if MAX_ATTEMPTS - s.rows[id].attempts <= n < MAX_ATTEMPTS then 1 else 0)
    && (forall id, n :: Times(s.reports, Report(id, n)) <= if id in s.issued && 0 <= n < MAX_ATTEMPTS then 1 else 0)
  }

  ghost predicate Inv(s: State) {
    RowsOk(s) && RequestsOk(s) && TokensOk(s) && ReportsOk(s)
  }

  lemma TimesAppend(reports: seq<Report>, report: Report, other: Report)
    ensures Times(reports + [other], report) == Times(reports, report) + Count(other == report)
  {
    assert (reports + [other])[..|reports|] == reports;
  }

  lemma CountKeepsInv(s: State, id: Id)
    requires Inv(s) && id in s.rows && s.rows[id].action.Some? && s.rows[id].attempts < MAX_ATTEMPTS
    ensures var attempts := s.rows[id].attempts + 1;
            Inv(s.(rows := s.rows[id := s.rows[id].(attempts := attempts)],
                   reports := s.reports + [Report(id, MAX_ATTEMPTS - attempts)]))
  {
    var added := Report(id, MAX_ATTEMPTS - s.rows[id].attempts - 1);
    forall i, n ensures Times(s.reports + [added], Report(i, n)) == Times(s.reports, Report(i, n)) + Count(Report(i, n) == added) {
      TimesAppend(s.reports, Report(i, n), added);
    }
    hide Times;
  }

  lemma FailingIsScoped(s: State, rid: Rid)
    requires Inv(s) && rid in s.requests && s.requests[rid].phase.Failing?
    ensures var id := s.requests[rid].phase.id; id in s.rows ==> s.rows[id].action.Some?
  {}

  lemma IncrementKeepsInv(s: State, rid: Rid)
    requires Inv(s) && Enabled(s, Increment(rid))
    ensures Inv(Apply(s, Increment(rid)))
  {
    var id := s.requests[rid].phase.id;
    FailingIsScoped(s, rid);
    if id in s.rows && s.rows[id].attempts < MAX_ATTEMPTS {
      CountedKeepsInv(s, rid, id);
    } else {
      MoveKeepsInv(s, rid, Answered(TooManyAttempts));
    }
    hide Inv;
  }

  lemma CountedKeepsInv(s: State, rid: Rid, id: Id)
    requires Inv(s) && rid in s.requests && id in s.rows && s.rows[id].action.Some? && s.rows[id].attempts < MAX_ATTEMPTS
    ensures Inv(Incremented(s, rid, id))
  {
    var answer := Answered(Wrong(MAX_ATTEMPTS - s.rows[id].attempts - 1));
    MoveKeepsInv(s, rid, answer);
    CountKeepsInv(Moved(s, rid, answer), id);
    hide Inv;
  }

  lemma ConsumeKeepsInv(s: State, rid: Rid)
    requires Inv(s) && Enabled(s, Consume(rid))
    ensures Inv(Apply(s, Consume(rid)))
  {
    hide Times;
  }

  lemma MintKeepsInv(s: State, rid: Rid)
    requires Inv(s) && Enabled(s, Mint(rid))
    ensures Inv(Apply(s, Mint(rid)))
  {
    hide Times;
  }

  lemma ReadCodeKeepsInv(s: State, rid: Rid, found: Option<Id>, matches: bool)
    requires Inv(s) && Enabled(s, ReadCode(rid, found, matches))
    ensures Inv(Apply(s, ReadCode(rid, found, matches)))
  {
    hide Times;
  }

  lemma IssueKeepsInv(s: State, id: Id, userId: string, action: Option<string>)
    requires Inv(s) && Enabled(s, Issue(id, userId, action))
    ensures Inv(Apply(s, Issue(id, userId, action)))
  {
    hide Times;
  }

  /** Moving a request to a phase that holds no code. */
  lemma MoveKeepsInv(s: State, rid: Rid, phase: Phase)
    requires Inv(s) && rid in s.requests && !HoldsId(phase)
    ensures Inv(Moved(s, rid, phase))
  {
    hide Times;
  }

  /** Deleting rows, whichever they are. */
  lemma DeletingKeepsInv(s: State, kept: map<Id, Row>)
    requires Inv(s) && forall i :: i in kept ==> i in s.rows && kept[i] == s.rows[i]
    ensures Inv(s.(rows := kept))
  {
    hide Times;
  }

  lemma GeneralFlowKeepsInv(s: State, id: Id, attempts: Option<int>)
    requires Inv(s) && Enabled(s, GeneralFlow(id, attempts))
    ensures Inv(Apply(s, GeneralFlow(id, attempts)))
  {
    hide Times;
  }

  lemma DeleteExpiredKeepsInv(s: State, rid: Rid)
    requires Inv(s) && Enabled(s, DeleteExpired(rid))
    ensures Inv(Apply(s, DeleteExpired(rid)))
  {
    hide Inv;
    var moved := Moved(s, rid, Answered(CodeExpired));
    MoveKeepsInv(s, rid, Answered(CodeExpired));
    DeletingKeepsInv(moved, s.rows - {s.requests[rid].phase.id});
  }

  lemma ArriveKeepsInv(s: State, rid: Rid, userId: string, action: string)
    requires Inv(s) && Enabled(s, Arrive(rid, userId, action))
    ensures Inv(Apply(s, Arrive(rid, userId, action)))
  {
    hide Times;
  }

  lemma StepKeepsInv(s: State, e: Event)
    requires Inv(s)
    ensures Inv(Apply(s, e))
  {
    if Enabled(s, e) {
      match e
      case Tick(ms) => assert Inv(s.(now := s.now + ms)) by { hide Times, Apply, Enabled; }
      case Issue(id, userId, action) => IssueKeepsInv(s, id, userId, action);
      case Cleanup => DeletingKeepsInv(s, map i | i in s.rows && s.rows[i].expiresAt >= s.now :: s.rows[i]);
      case GeneralFlow(id, attempts) => GeneralFlowKeepsInv(s, id, attempts);
      case Arrive(rid, userId, action) => ArriveKeepsInv(s, rid, userId, action);
      case ReadUser(rid, answer) => MoveKeepsInv(s, rid, AfterUserRead(answer));
      case ReadCode(rid, found, matches) => ReadCodeKeepsInv(s, rid, found, matches);
      case DeleteExpired(rid) => DeleteExpiredKeepsInv(s, rid);
      case Increment(rid) => IncrementKeepsInv(s, rid);
      case Consume(rid) => ConsumeKeepsInv(s, rid);
      case Mint(rid) => MintKeepsInv(s, rid);
      case Crash(rid) => MoveKeepsInv(s, rid, Answered(ServerError));
    }
  }

  lemma {:induction false} RunKeepsInv(s: State, events: seq<Event>)
    requires Inv(s)
    ensures Inv(Run(s, events))
    decreases |events|
  {
    if events != [] {
      StepKeepsInv(s, events[0]);
      RunKeepsInv(Apply(s, events[0]), events[1..]);
    }
  }

  lemma FreshIsInv(s: State)
    requires Fresh(s)
    ensures Inv(s)
  {}

  /** Whatever the interleaving, one code mints at most one token. */
  lemma OneTokenPerCode(s: State, events: seq<Event>, i: nat, j: nat)
    requires Fresh(s) && i < j < |Run(s, events).tokens|
    ensures Run(s, events).tokens[i].source != Run(s, events).tokens[j].source
  {
    FreshIsInv(s);
    RunKeepsInv(s, events);
  }

  lemma {:induction false} IssuedForGood(s: State, events: seq<Event>, id: Id)
    requires id in s.issued
    ensures id in Run(s, events).issued && Run(s, events).issued[id] == s.issued[id]
    decreases |events|
  {
    if events != [] { IssuedForGood(Apply(s, events[0]), events[1..], id); }
  }

  /** A token minted from a code carries the user and the action that the code was issued for. */
  lemma TokenCarriesScopeOfItsCode(s: State, issue: Event, events: seq<Event>, i: nat)
    requires Inv(s) && issue.Issue? && Enabled(s, issue)
    requires i < |Run(Apply(s, issue), events).tokens|
    requires Run(Apply(s, issue), events).tokens[i].source == issue.id
    ensures var t := Run(Apply(s, issue), events).tokens[i];
            t.userId == issue.userId && Some(t.action) == issue.scope
  {
    StepKeepsInv(s, issue);
    RunKeepsInv(Apply(s, issue), events);
    IssuedForGood(Apply(s, issue), events, issue.id);
  }

  /** A code never has more than five failed attempts, and while it is stored exactly the counts
      from 4 down to 5 - attempts have been answered, once each; none is ever answered twice. */
  lemma RemainingCountsAreAnsweredOnce(s: State, events: seq<Event>, id: Id, remaining: int)
    requires Fresh(s)
    ensures var end := Run(s, events);
            && Times(end.reports, Report(id, remaining)) <= (if 0 <= remaining < MAX_ATTEMPTS then 1 else 0)
            && (id in end.rows && end.rows[id].action.Some? ==>
                  && 0 <= end.rows[id].attempts <= MAX_ATTEMPTS
                  && Times(end.reports, Report(id, remaining)) ==
                       if MAX_ATTEMPTS - end.rows[id].attempts <= remaining < MAX_ATTEMPTS then 1 else 0)
  {
    FreshIsInv(s);
    RunKeepsInv(s, events);
    hide Run, RequestsOk, TokensOk;
  }

  /** The code cannot mint any more: it is used or gone, or missed five times with no request left
      that read it before, and no request has consumed it. */
  ghost predicate Dead(s: State, id: Id) {
    && id in s.issued && (id in s.rows ==> s.rows[id].isUsed || Exhausted(s, id))
    && (forall r :: r in s.requests && s.requests[r].phase.Minting? ==> s.requests[r].phase.id != id)
  }

  ghost predicate Exhausted(s: State, id: Id)
    requires id in s.rows
  {
    && s.rows[id].action.Some? && s.rows[id].attempts >= MAX_ATTEMPTS
    && (forall r :: r in s.requests ==> s.requests[r].phase != Consuming(id))
  }

  lemma DeadStaysDead(s: State, e: Event, id: Id)
    requires Dead(s, id)
    ensures Dead(Apply(s, e), id)
    ensures Apply(s, e).tokens == s.tokens ||
            (|Apply(s, e).tokens| == |s.tokens| + 1 && Apply(s, e).tokens[..|s.tokens|] == s.tokens && Apply(s, e).tokens[|s.tokens|].source != id)
  {}

  lemma {:induction false} DeadNeverMints(s: State, events: seq<Event>, id: Id)
    requires Dead(s, id)
    ensures var end := Run(s, events);
            && |s.tokens| <= |end.tokens| && end.tokens[..|s.tokens|] == s.tokens
            && forall i :: |s.tokens| <= i < |end.tokens| ==> end.tokens[i].source != id
    decreases |events|
  {
    if events != [] {
      var next := Apply(s, events[0]);
      DeadStaysDead(s, events[0], id);
      DeadNeverMints(next, events[1..], id);
      var end := Run(next, events[1..]);
      assert end.tokens[..|s.tokens|] == end.tokens[..|next.tokens|][..|s.tokens|];
      if |next.tokens| > |s.tokens| { assert end.tokens[|s.tokens|] == next.tokens[|s.tokens|]; }
    }
  }

  /** Asking for a new code ends the older ones of the same user and action: unless already
      consumed, they mint nothing afterwards, even for requests that had read them before. */
  lemma SupersededNeverMints(s: State, issue: Event, events: seq<Event>, older: Id)
    requires Inv(s) && issue.Issue? && Enabled(s, issue) && older in s.issued
    requires s.issued[older] == Scope(issue.userId, issue.scope)
    requires forall r :: r in s.requests && s.requests[r].phase.Minting? ==> s.requests[r].phase.id != older
    ensures var end := Run(Apply(s, issue), events);
            && |s.tokens| <= |end.tokens|
            && forall i :: |s.tokens| <= i < |end.tokens| ==> end.tokens[i].source != older
  {
    assert Dead(Apply(s, issue), older);
    DeadNeverMints(Apply(s, issue), events, older);
  }

  /** What a step of a request, or a cleanup, writes to the store: an expired code found is removed, a
      miss counts one attempt up to the cap, a right guess removes the code if it is unused, a cleanup
      removes exactly the codes that are over; nothing else is written. */
  lemma RequestsWriteExactly(s: State, e: Event, i: Id)
    requires Enabled(s, e) && !e.Issue? && !e.GeneralFlow?
    ensures var next := Apply(s, e).rows;
      && (i in next ==> i in s.rows && next[i] == s.rows[i].(attempts := next[i].attempts))
      && (i in s.rows ==>
            var row, phase := s.rows[i], if e.DeleteExpired? || e.Increment? || e.Consume? then s.requests[e.rid].phase else Arrived;
            && (i !in next <==>
                  || (e.Cleanup? && row.expiresAt < s.now)
                  || (e.DeleteExpired? && phase == Deleting(i))
                  || (e.Consume? && phase == Consuming(i) && !row.isUsed))
            && (i in next ==>
                  next[i].attempts == row.attempts + Count(e.Increment? && phase == Failing(i) && row.attempts < MAX_ATTEMPTS)))
  {}

  predicate IsRequestStep(e: Event) {
    e.ReadUser? || e.ReadCode? || e.DeleteExpired? || e.Increment? || e.Consume? || e.Mint? || e.Crash?
  }

  /** What an answer says about the step that gives it. */
  predicate Means(s: State, e: Event, response: Response)
    requires Enabled(s, e) && IsRequestStep(e)
  {
    var phase := s.requests[e.rid].phase;
    match response
    case UserNotFound => e.ReadUser? && e.answer.UserMissing?
    case Suspended => e.ReadUser? && e.answer.UserSuspended?
    case AccountLocked => e.ReadUser? && e.answer.UserLocked?
    case NoActiveCode => e.ReadCode? && e.found.None?
    case CodeExpired => e.DeleteExpired?
    case TooManyAttempts =>
      || (e.ReadCode? && e.found.Some? && s.now <= s.rows[e.found.value].expiresAt && s.rows[e.found.value].attempts >= MAX_ATTEMPTS)
      || (e.Increment? && (phase.id !in s.rows || s.rows[phase.id].attempts >= MAX_ATTEMPTS))
    case Wrong(remaining) => e.Increment? && phase.id in s.rows && 0 <= remaining == MAX_ATTEMPTS - 1 - s.rows[phase.id].attempts
    case AlreadyUsed => e.Consume? && (phase.id !in s.rows || s.rows[phase.id].isUsed)
    case TokenIssued => e.Mint?
    case ServerError => e.Crash?
  }

  /** A request is given an answer exactly when the answer is true. */
  lemma AnswersExactly(s: State, e: Event, response: Response)
    requires Enabled(s, e) && IsRequestStep(e)
    ensures Apply(s, e).requests[e.rid].phase == Answered(response) <==> Means(s, e, response)
  {}

  // ---- How long a code stays usable -------------------------------------------------

  predicate Usable(s: State, id: Id) { id in s.rows && s.rows[id].action.Some? && !s.rows[id].isUsed }

  predicate ConsumesCode(s: State, e: Event, id: Id) { e.Consume? && Enabled(s, e) && s.requests[e.rid].phase == Consuming(id) }

  predicate Supersedes(s: State, e: Event, id: Id) {
    e.Issue? && Enabled(s, e) && id in s.rows && e.userId == s.rows[id].userId && e.scope == s.rows[id].action
  }

  predicate Ends(s: State, e: Event, id: Id) { ConsumesCode(s, e, id) || Supersedes(s, e, id) }

  predicate NeverEnds(s: State, events: seq<Event>, id: Id)
    decreases |events|
  {
    events == [] || (!Ends(s, events[0], id) && NeverEnds(Apply(s, events[0]), events[1..], id))
  }

  /** The code is the only open one of its user and action, and only after it has run out is it about to
      be deleted as expired. */
  ghost predicate Current(s: State, id: Id) {
    id in s.rows ==>
      && (forall i :: i in s.rows && IsOpen(s.rows[i], s.rows[id].userId, s.rows[id].action) ==> i == id)
      && (forall r :: r in s.requests && s.requests[r].phase == Deleting(id) ==> s.now > s.rows[id].expiresAt)
  }

  lemma StepEnds(s: State, e: Event, id: Id)
    requires Inv(s) && Usable(s, id) && Current(s, id) && Apply(s, e).now <= s.rows[id].expiresAt
    ensures Usable(Apply(s, e), id) <==> !Ends(s, e, id)
    ensures Usable(Apply(s, e), id) ==> Current(Apply(s, e), id) && Apply(s, e).rows[id].expiresAt == s.rows[id].expiresAt
  {
    if e.Issue? { IssueEnds(s, e, id); } else { RequestEnds(s, e, id); }
    hide Apply, Inv, Usable, Current, Ends;
  }

  lemma IssueEnds(s: State, e: Event, id: Id)
    requires e.Issue?
    requires Inv(s) && Usable(s, id) && Current(s, id) && Apply(s, e).now <= s.rows[id].expiresAt
    ensures Usable(Apply(s, e), id) <==> !Ends(s, e, id)
    ensures Usable(Apply(s, e), id) ==> Current(Apply(s, e), id) && Apply(s, e).rows[id].expiresAt == s.rows[id].expiresAt
  {
    hide RequestsOk, TokensOk, ReportsOk;
  }

  lemma RequestEnds(s: State, e: Event, id: Id)
    requires !e.Issue? && Usable(s, id) && Current(s, id) && Apply(s, e).now <= s.rows[id].expiresAt
    ensures Usable(Apply(s, e), id) <==> !Ends(s, e, id)
    ensures Usable(Apply(s, e), id) ==> Current(Apply(s, e), id) && Apply(s, e).rows[id].expiresAt == s.rows[id].expiresAt
  {
    RequestKeepsCurrent(s, e, id);
    if e.DeleteExpired? && Enabled(s, e) { assert s.requests[e.rid].phase != Deleting(id); }
    hide Current, QueryAnswers;
  }

  lemma RequestKeepsCurrent(s: State, e: Event, id: Id)
    requires !e.Issue? && id in s.rows && Current(s, id)
    ensures Current(Apply(s, e), id)
  {}

  lemma {:induction false} TimePasses(s: State, events: seq<Event>)
    ensures s.now <= Run(s, events).now
    decreases |events|
  {
    if events != [] { TimePasses(Apply(s, events[0]), events[1..]); }
  }

  lemma {:induction false} EndedForGood(s: State, events: seq<Event>, id: Id)
    requires id in s.issued && !Usable(s, id) && (id in s.rows ==> s.rows[id].action.Some?)
    ensures !Usable(Run(s, events), id)
    decreases |events|
  {
    if events != [] { EndedForGood(Apply(s, events[0]), events[1..], id); }
  }

  /** Until it runs out a code stays usable if and only if nobody consumes it and no newer one of its
      user and action is issued: no other request, cleanup or code ends it. */
  lemma {:induction false} UsableUntilConsumedOrSuperseded(s: State, events: seq<Event>, id: Id)
    requires Inv(s) && Usable(s, id) && Current(s, id) && Run(s, events).now <= s.rows[id].expiresAt
    ensures Usable(Run(s, events), id) <==> NeverEnds(s, events, id)
    ensures NeverEnds(s, events, id) ==> Current(Run(s, events), id) && Run(s, events).rows[id].expiresAt == s.rows[id].expiresAt
    decreases |events|
  {
    hide Apply, Inv, Ends, Current;
    if events != [] {
      var next := Apply(s, events[0]);
      TimePasses(next, events[1..]);
      StepEnds(s, events[0], id);
      StepKeepsInv(s, events[0]);
      if Usable(next, id) {
        UsableUntilConsumedOrSuperseded(next, events[1..], id);
      } else {
        EndedIsIssued(s, events[0], id);
        EndedForGood(next, events[1..], id);
      }
    }
  }

  lemma EndedIsIssued(s: State, e: Event, id: Id)
    requires Inv(s) && Usable(s, id)
    ensures id in Apply(s, e).issued && (id in Apply(s, e).rows ==> Apply(s, e).rows[id].action.Some?)
  {
    hide RequestsOk, TokensOk, ReportsOk;
  }

  /** A code just issued is usable, and the only one of its user and action. */
  lemma IssuedIsUsable(s: State, id: Id, userId: string, action: string)
    requires Inv(s) && Enabled(s, Issue(id, userId, Some(action)))
    ensures var next := Apply(s, Issue(id, userId, Some(action)));
            && Inv(next) && Usable(next, id) && Current(next, id)
            && next.rows[id] == Row(userId, Some(action), s.now, s.now + CODE_LIFETIME_MS, 0, false)
  {
    StepKeepsInv(s, Issue(id, userId, Some(action)));
    hide RowsOk, TokensOk, ReportsOk;
  }
}

/** The store and the handler's steps, updating rows and requests in place. */
module ActionOtpEndpoint {
  import opened Outcomes
  import opened ActionOtp

  class Endpoint {
    var now: int
    var rows: map<Id, Row>
    ghost var issued: map<Id, Scope>
    var requests: map<Rid, Request>
    var tokens: seq<Token>
    ghost var reports: seq<Report>

    ghost function Model(): State
      reads this
    {
      State(now, rows, issued, requests, tokens, reports)
    }

    constructor (now: int)
      ensures Model() == State(now, map[], map[], map[], [], [])
    {
      this.now := now;
      rows, issued, requests, tokens, reports := map[], map[], map[], [], [];
    }

    method Answer(rid: Rid, phase: Phase)
      requires rid in requests
      modifies `requests
      ensures Model() == Moved(old(Model()), rid, phase)
    {
      requests := requests[rid := requests[rid].(phase := phase)];
    }

    method StoreOtp(id: Id, userId: string, action: Option<string>)
      requires Enabled(Model(), Issue(id, userId, action))
      modifies this
      ensures Model() == Apply(old(Model()), Issue(id, userId, action))
    {
      rows := map i | i in rows :: if IsOpen(rows[i], userId, action) then rows[i].(isUsed := true) else rows[i];
      rows := rows[id := Row(userId, action, now, now + CODE_LIFETIME_MS, 0, false)];
      assert rows == Stored(old(rows), now, id, userId, action);
      issued := issued[id := Scope(userId, action)];
    }

    /** The newest unused code of the user for the action. */
    method FindCode(userId: string, action: string) returns (found: Option<Id>)
      ensures QueryAnswers(rows, userId, action, found)
    {
      found := None;
      var left := rows.Keys;
      while left != {}
        invariant left <= rows.Keys
        invariant match found
                  case None => forall i :: i in rows.Keys - left ==> !IsOpen(rows[i], userId, Some(action))
                  case Some(id) =>
                    && id in rows && IsOpen(rows[id], userId, Some(action))
                    && forall i :: i in rows.Keys - left && IsOpen(rows[i], userId, Some(action)) ==> rows[i].createdAt <= rows[id].createdAt
        decreases |left|
      {
        var i :| i in left;
        left := left - {i};
        if IsOpen(rows[i], userId, Some(action)) && (found.None? || rows[found.value].createdAt < rows[i].createdAt) {
          found := Some(i);
        }
      }
    }

    method ReadCode(rid: Rid, matches: bool) returns (found: Option<Id>)
      requires rid in requests && requests[rid].phase.UserRead?
      modifies `requests
      ensures QueryAnswers(rows, old(requests)[rid].userId, old(requests)[rid].action, found)
      ensures Model() == Apply(old(Model()), Event.ReadCode(rid, found, matches))
    {
      found := FindCode(requests[rid].userId, requests[rid].action);
      if found.None? {
        Answer(rid, Answered(NoActiveCode));
      } else if now > rows[found.value].expiresAt {
        Answer(rid, Deleting(found.value));
      } else if rows[found.value].attempts >= MAX_ATTEMPTS {
        Answer(rid, Answered(TooManyAttempts));
      } else if !matches {
        Answer(rid, Failing(found.value));
      } else {
        Answer(rid, Consuming(found.value));
      }
    }

    method DeleteExpired(rid: Rid)
      requires rid in requests && requests[rid].phase.Deleting?
      modifies this
      ensures Model() == Apply(old(Model()), Event.DeleteExpired(rid))
    {
      rows := rows - {requests[rid].phase.id};
      Answer(rid, Answered(CodeExpired));
    }

    /** The conditional update of `attempts`. */
    method Increment(rid: Rid)
      requires rid in requests && requests[rid].phase.Failing?
      modifies this
      ensures Model() == Apply(old(Model()), Event.Increment(rid))
    {
      var id := requests[rid].phase.id;
      if id in rows && rows[id].attempts < MAX_ATTEMPTS {
        rows := rows[id := rows[id].(attempts := rows[id].attempts + 1)];
        var remaining := MAX_ATTEMPTS - rows[id].attempts;
        reports := reports + [Report(id, remaining)];
        Answer(rid, Answered(Wrong(remaining)));
      } else {
        Answer(rid, Answered(TooManyAttempts));
      }
    }

    /** The conditional delete. */
    method Consume(rid: Rid)
      requires rid in requests && requests[rid].phase.Consuming?
      modifies this
      ensures Model() == Apply(old(Model()), Event.Consume(rid))
    {
      var id := requests[rid].phase.id;
      if id in rows && !rows[id].isUsed {
        rows := rows - {id};
        Answer(rid, Minting(id));
      } else {
        Answer(rid, Answered(AlreadyUsed));
      }
    }

    method Mint(rid: Rid) returns (token: Token)
      requires rid in requests && requests[rid].phase.Minting?
      modifies this
      ensures Model() == Apply(old(Model()), Event.Mint(rid))
      ensures tokens == old(tokens) + [token]
    {
      token := Token(requests[rid].userId, requests[rid].action, requests[rid].phase.id);
      tokens := tokens + [token];
      Answer(rid, Answered(TokenIssued));
    }
  }
}
