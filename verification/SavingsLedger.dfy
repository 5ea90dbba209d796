/** The off-chain savings ledger: the recorders of confirmed and failed savings transactions. Each
    database transaction is one atomic step; amounts are whole units. */
module SavingsRecords {
  import opened Outcomes
  import UsdcAmount

  type EntryId = nat

  datatype Kind = Deposit | Withdrawal | YieldClaim
  datatype Status = Pending | Completed | Failed
  datatype Entry = Entry(userId: string, kind: Kind, status: Status, amount: int, hash: Option<string>)
  datatype User = User(savingsBalance: int, savingsActive: bool)
  datatype State = State(users: map<string, User>, history: map<EntryId, Entry>)

  /** `kind` is None for a type the recorders do not accept. */
  datatype Input = Input(userId: string, kind: Option<Kind>, amount: int, vaultContractId: string, hash: string, errorMessage: string)

  datatype Failure =
    | UserIdRequired | InvalidType | AmountNotPositive | VaultRequired | InvalidHash | MessageRequired
    | UserNotFound | ClaimedByAnother | InsufficientBalance

  /** The server actions complete or fail a pending row with the same hash; the service's recorders
      return it untouched. */
  datatype Variant = ServerAction | Service

  /** A recorder call, with the row its query finds and the id an inserted row gets; or the wallet
      routes inserting a pending row, which look at no other row: no hash need be unique. */
  datatype Event =
    | RecordSuccess(variant: Variant, input: Input, found: Option<EntryId>, newId: EntryId)
    | RecordFailure(variant: Variant, input: Input, found: Option<EntryId>, newId: EntryId)
    | InsertPending(newId: EntryId, entry: Entry)

  predicate IsHex(c: char) { '0' <= c <= '9' || 'a' <= c <= 'f' || 'A' <= c <= 'F' }

  predicate IsTxHash(s: string) { |s| == 64 && forall i :: 0 <= i < |s| ==> IsHex(s[i]) }

  function Validated(input: Input): Option<Failure> {
    if input.userId == "" then Some(UserIdRequired)
    else if input.kind.None? || input.kind.value.YieldClaim? then Some(InvalidType)
    else if input.amount <= 0 then Some(AmountNotPositive)
    else if UsdcAmount.Trim(input.vaultContractId) == "" then Some(VaultRequired)
    else None
  }

  function SuccessInvalid(input: Input): Option<Failure> {
    if Validated(input).Some? then Validated(input)
    else if !IsTxHash(UsdcAmount.Trim(input.hash)) then Some(InvalidHash)
    else None
  }

  function FailureInvalid(input: Input): Option<Failure> {
    if Validated(input).Some? then Validated(input)
    else if UsdcAmount.Trim(input.errorMessage) == "" then Some(MessageRequired)
    else if UsdcAmount.Trim(input.hash) != "" && !IsTxHash(UsdcAmount.Trim(input.hash)) then Some(InvalidHash)
    else None
  }

  /** The transaction hash as stored: trimmed, and null when empty. */
  function HashOf(input: Input): Option<string> {
    var trimmed := UsdcAmount.Trim(input.hash);
    if trimmed == "" then None else Some(trimmed)
  }

  /** `findFirst` by transaction hash. */
  predicate QueryAnswers(history: map<EntryId, Entry>, hash: Option<string>, found: Option<EntryId>) {
    match found
    case Some(id) => id in history && history[id].hash.Some? && history[id].hash == hash
    case None => hash.Some? ==> forall id :: id in history ==> history[id].hash != hash
  }

  function SignedAmount(kind: Kind, amount: int): int {
    match kind
    case Deposit => amount
    case Withdrawal => -amount
    case YieldClaim => 0
  }

  function Credited(s: State, input: Input): State
    requires input.userId in s.users && input.kind.Some?
  {
    var user := s.users[input.userId];
    s.(users := s.users[input.userId := User(user.savingsBalance + SignedAmount(input.kind.value, input.amount), true)])
  }

  function WithStatus(s: State, id: EntryId, status: Status): State
    requires id in s.history
  {
    s.(history := s.history[id := s.history[id].(status := status)])
  }

  function NewEntry(input: Input, status: Status): Entry
    requires input.kind.Some?
  {
    Entry(input.userId, input.kind.value, status, input.amount, HashOf(input))
  }

  function RecordedSuccess(s: State, variant: Variant, input: Input, found: Option<EntryId>, newId: EntryId): Result<State, Failure>
    requires found.Some? ==> found.value in s.history
  {
    if SuccessInvalid(input).Some? then Err(SuccessInvalid(input).value)
    else if input.userId !in s.users then Err(UserNotFound)
    else match found
      case Some(id) =>
        if s.history[id].userId != input.userId then Err(ClaimedByAnother)
        else if variant.ServerAction? && s.history[id].status.Pending? then Ok(Credited(WithStatus(s, id, Completed), input))
        else Ok(s)
      case None =>
        if input.kind == Some(Withdrawal) && s.users[input.userId].savingsBalance < input.amount then Err(InsufficientBalance)
        else Ok(Credited(s.(history := s.history[newId := NewEntry(input, Completed)]), input))
  }

  function RecordedFailure(s: State, variant: Variant, input: Input, found: Option<EntryId>, newId: EntryId): Result<State, Failure>
    requires found.Some? ==> found.value in s.history
  {
    if FailureInvalid(input).Some? then Err(FailureInvalid(input).value)
    else if input.userId !in s.users then Err(UserNotFound)
    else match found
      case Some(id) =>
        if s.history[id].userId != input.userId then Err(ClaimedByAnother)
        else if variant.ServerAction? && s.history[id].status.Pending? then Ok(WithStatus(s, id, Status.Failed))
        else Ok(s)
      case None => Ok(s.(history := s.history[newId := NewEntry(input, Status.Failed)]))
  }

  predicate Enabled(s: State, e: Event) {
    match e
    case RecordSuccess(_, input, found, newId) => newId !in s.history && QueryAnswers(s.history, HashOf(input), found)
    case RecordFailure(_, input, found, newId) => newId !in s.history && QueryAnswers(s.history, HashOf(input), found)
    case InsertPending(newId, entry) => newId !in s.history && entry.status.Pending? && entry.userId in s.users
  }

  function Attempt(s: State, e: Event): Result<State, Failure>
    requires Enabled(s, e)
  {
    match e
    case RecordSuccess(variant, input, found, newId) => RecordedSuccess(s, variant, input, found, newId)
    case RecordFailure(variant, input, found, newId) => RecordedFailure(s, variant, input, found, newId)
    case InsertPending(newId, entry) => Ok(s.(history := s.history[newId := entry]))
  }

  /** A call that throws is rolled back. */
  function Apply(s: State, e: Event): State {
    if !Enabled(s, e) then s
    else match Attempt(s, e)
      case Ok(next) => next
      case Err(_) => s
  }

  function Run(s: State, events: seq<Event>): State
    decreases |events|
  {
    if events == [] then s else Run(Apply(s, events[0]), events[1..])
  }
}

module SavingsRecordsProofs {
  import opened Numbers
  import opened FiniteSets
  import opened Outcomes
  import opened MapSums
  import opened SavingsRecords
  import UsdcAmount

  ghost predicate UniqueHashes(s: State) {
    forall i, j :: i in s.history && j in s.history && s.history[i].hash.Some? && s.history[i].hash == s.history[j].hash ==> i == j
  }

  ghost function CompletedOf(s: State, who: string): map<EntryId, int> {
    map i | i in s.history && s.history[i].userId == who && s.history[i].status.Completed?
      :: SignedAmount(s.history[i].kind, s.history[i].amount)
  }

  /** The cached balance less the fold of the completed history. */
  ghost function Drift(s: State, who: string): int
    requires who in s.users
  {
    s.users[who].savingsBalance - Sum(CompletedOf(s, who))
  }

  /** The call completes a pending row. */
  predicate Promotes(s: State, e: Event) {
    && e.RecordSuccess? && Enabled(s, e) && Attempt(s, e).Ok? && e.variant.ServerAction?
    && e.found.Some? && s.history[e.found.value].status.Pending?
  }

  /** By how much a promotion's input differs from the row it completes. */
  function Mismatch(s: State, e: Event, who: string): int {
    if Promotes(s, e) && e.input.userId == who then
      SignedAmount(e.input.kind.value, e.input.amount)
        - SignedAmount(s.history[e.found.value].kind, s.history[e.found.value].amount)
    else 0
  }

  function TotalMismatch(s: State, events: seq<Event>, who: string): int
    decreases |events|
  {
    if events == [] then 0 else Mismatch(s, events[0], who) + TotalMismatch(Apply(s, events[0]), events[1..], who)
  }

  lemma SetEntryMovesFold(s: State, id: EntryId, entry: Entry, who: string)
    requires id in s.history ==> !s.history[id].status.Completed?
    ensures Sum(CompletedOf(s.(history := s.history[id := entry]), who)) ==
              Sum(CompletedOf(s, who))
                + (if entry.userId == who && entry.status.Completed? then SignedAmount(entry.kind, entry.amount) else 0)
  {
    var before, after := CompletedOf(s, who), CompletedOf(s.(history := s.history[id := entry]), who);
    if entry.userId == who && entry.status.Completed? {
      assert after == before[id := SignedAmount(entry.kind, entry.amount)];
      SumSet(before, id, SignedAmount(entry.kind, entry.amount));
    } else {
      assert after == before;
    }
  }

  lemma FoldIgnoresUsers(s: State, t: State, who: string)
    requires s.history == t.history
    ensures CompletedOf(s, who) == CompletedOf(t, who)
  {}

  /** One step moves the drift of `who` by its mismatch and nothing else. */
  lemma StepDrift(s: State, e: Event, who: string)
    requires who in s.users
    ensures who in Apply(s, e).users && Drift(Apply(s, e), who) == Drift(s, who) + Mismatch(s, e, who)
  {
    if Enabled(s, e) && Attempt(s, e).Ok? {
      var next := Apply(s, e);
      match e
      case RecordSuccess(variant, input, found, newId) =>
        if found.None? {
          SetEntryMovesFold(s, newId, NewEntry(input, Completed), who);
          FoldIgnoresUsers(s.(history := next.history), next, who);
        } else if Promotes(s, e) {
          SetEntryMovesFold(s, found.value, s.history[found.value].(status := Completed), who);
          FoldIgnoresUsers(s.(history := next.history), next, who);
        }
      case RecordFailure(variant, input, found, newId) =>
        if found.None? {
          SetEntryMovesFold(s, newId, NewEntry(input, Status.Failed), who);
        } else if s.history[found.value].status.Pending? {
          SetEntryMovesFold(s, found.value, s.history[found.value].(status := Status.Failed), who);
        }
      case InsertPending(newId, entry) => SetEntryMovesFold(s, newId, entry, who);
    }
  }

  /** Over any run the cached balance leaves the fold of the completed history by exactly what the
      promotions' inputs differ from their rows; with repeated types and amounts, by nothing. */
  lemma {:induction false} BalanceFollowsHistory(s: State, events: seq<Event>, who: string)
    requires who in s.users
    ensures who in Run(s, events).users
    ensures Drift(Run(s, events), who) == Drift(s, who) + TotalMismatch(s, events, who)
    decreases |events|
  {
    hide Drift, Mismatch;
    if events != [] {
      StepDrift(s, events[0], who);
      BalanceFollowsHistory(Apply(s, events[0]), events[1..], who);
    }
  }

  /** One call keeps balance and history in step if and only if it promotes nothing or repeats the
      signed amount of the row it promotes. */
  lemma InStepExactlyWhenRepeated(s: State, e: Event, who: string)
    requires who in s.users && Drift(s, who) == 0
    ensures who in Apply(s, e).users
    ensures Drift(Apply(s, e), who) == 0 <==>
              (Promotes(s, e) && e.input.userId == who ==>
                 SignedAmount(e.input.kind.value, e.input.amount)
                   == SignedAmount(s.history[e.found.value].kind, s.history[e.found.value].amount))
  {
    StepDrift(s, e, who);
  }

  /** The code does not check that: a deposit pending for 100 can be promoted as one of 40. */
  lemma PromotionCanLeaveStep(hash: string)
    requires IsTxHash(hash)
    ensures var s := State(map["u" := User(0, true)], map[0 := Entry("u", Deposit, Pending, 100, Some(hash))]);
            var e := RecordSuccess(ServerAction, Input("u", Some(Deposit), 40, "vault", hash, ""), Some(0), 1);
            Drift(s, "u") == 0 && "u" in Apply(s, e).users && Drift(Apply(s, e), "u") == -60
  {
    var s := State(map["u" := User(0, true)], map[0 := Entry("u", Deposit, Pending, 100, Some(hash))]);
    var e := RecordSuccess(ServerAction, Input("u", Some(Deposit), 40, "vault", hash, ""), Some(0), 1);
    assert CompletedOf(s, "u") == map[];
    assert IsHex(hash[0]) && IsHex(hash[63]);
    assert HashOf(e.input) == Some(hash);
    assert Promotes(s, e);
    StepDrift(s, e, "u");
  }

  // ---- One call ---------------------------------------------------------------------

  /** What both recorders ask of the input. */
  predicate WellFormed(input: Input) {
    && input.userId != "" && (input.kind == Some(Deposit) || input.kind == Some(Withdrawal)) && input.amount > 0
    && UsdcAmount.Trim(input.vaultContractId) != ""
  }

  /** The found row, if any, is the caller's own. */
  predicate OwnRow(s: State, input: Input, found: Option<EntryId>) {
    found.Some? ==> found.value in s.history && s.history[found.value].userId == input.userId
  }

  function BalanceAfter(s: State, input: Input): int
    requires input.userId in s.users
  {
    if input.kind == Some(Deposit) then s.users[input.userId].savingsBalance + input.amount
    else s.users[input.userId].savingsBalance - input.amount
  }

  /** A success is recorded exactly for well-formed input with a transaction hash, for a known user, when
      the hash is new or the caller's own, and a new withdrawal is covered. A new hash gets a completed row
      of the input; the server action completes a pending one; both credit the user. Any other row stays
      as it is. */
  lemma SuccessIsRecordedExactly(s: State, e: Event)
    requires e.RecordSuccess? && Enabled(s, e)
    ensures var input, recorded := e.input, Attempt(s, e);
      && (recorded.Ok? <==>
            && WellFormed(input) && IsTxHash(UsdcAmount.Trim(input.hash)) && input.userId in s.users && OwnRow(s, input, e.found)
            && (e.found.None? && input.kind == Some(Withdrawal) ==> input.amount <= s.users[input.userId].savingsBalance))
      && (recorded.Ok? ==>
            var credited := s.users[input.userId := User(BalanceAfter(s, input), true)];
            match e.found
            case None =>
              recorded.value == State(credited, s.history[e.newId :=
                Entry(input.userId, input.kind.value, Completed, input.amount, Some(UsdcAmount.Trim(input.hash)))])
            case Some(id) =>
              recorded.value == if e.variant.ServerAction? && s.history[id].status.Pending?
                then State(credited, s.history[id := s.history[id].(status := Completed)]) else s)
  {}

  /** A failure is recorded exactly for well-formed input with a message and a transaction hash or none,
      for a known user, when the hash is new or the caller's own. No balance moves. */
  lemma FailureIsRecordedExactly(s: State, e: Event)
    requires e.RecordFailure? && Enabled(s, e)
    ensures var input, recorded, hash := e.input, Attempt(s, e), UsdcAmount.Trim(e.input.hash);
      && (recorded.Ok? <==>
            && WellFormed(input) && UsdcAmount.Trim(input.errorMessage) != "" && (hash == "" || IsTxHash(hash))
            && input.userId in s.users && OwnRow(s, input, e.found))
      && (recorded.Ok? ==>
            match e.found
            case None =>
              recorded.value == s.(history := s.history[e.newId :=
                Entry(input.userId, input.kind.value, Status.Failed, input.amount, if hash == "" then None else Some(hash))])
            case Some(id) =>
              recorded.value == if e.variant.ServerAction? && s.history[id].status.Pending?
                then s.(history := s.history[id := s.history[id].(status := Status.Failed)]) else s)
  {}

  /** What a refusal says about the call and the state. */
  predicate Holds(s: State, e: Event, failure: Failure)
    requires !e.InsertPending?
  {
    var input, hash := e.input, UsdcAmount.Trim(e.input.hash);
    match failure
    case UserIdRequired => input.userId == ""
    case InvalidType => input.kind.None? || input.kind.value.YieldClaim?
    case AmountNotPositive => input.amount <= 0
    case VaultRequired => UsdcAmount.Trim(input.vaultContractId) == ""
    case InvalidHash => !IsTxHash(hash) && (e.RecordFailure? ==> hash != "")
    case MessageRequired => e.RecordFailure? && UsdcAmount.Trim(input.errorMessage) == ""
    case UserNotFound => input.userId !in s.users
    case ClaimedByAnother => e.found.Some? && !OwnRow(s, input, e.found)
    case InsufficientBalance =>
      e.RecordSuccess? && e.found.None? && input.kind == Some(Withdrawal) && input.userId in s.users
        && s.users[input.userId].savingsBalance < input.amount
  }

  lemma RefusalsHaveReasons(s: State, e: Event)
    requires !e.InsertPending? && Enabled(s, e)
    ensures Attempt(s, e).Err? ==> Holds(s, e, Attempt(s, e).error)
  {}

  /** The step is a call or an insert for the user. */
  predicate IsFor(e: Event, who: string) {
    match e
    case RecordSuccess(_, input, _, _) => input.userId == who
    case RecordFailure(_, input, _, _) => input.userId == who
    case InsertPending(_, entry) => entry.userId == who
  }

  lemma StepOfOthers(s: State, e: Event, who: string, id: EntryId)
    requires !IsFor(e, who)
    ensures var next := Apply(s, e);
            && (who in next.users <==> who in s.users) && (who in s.users ==> next.users[who] == s.users[who])
            && (id in next.history && next.history[id].userId == who ==> id in s.history && s.history[id] == next.history[id])
            && (id in s.history && s.history[id].userId == who ==> id in next.history && next.history[id] == s.history[id])
  {}

  /** Over any run of calls and inserts for others a user's balance and rows stay as they are, whatever
      hashes those calls name. */
  lemma {:induction false} OthersLeaveUsersAlone(s: State, events: seq<Event>, who: string, id: EntryId)
    requires forall i :: 0 <= i < |events| ==> !IsFor(events[i], who)
    ensures var end := Run(s, events);
            && (who in end.users <==> who in s.users) && (who in s.users ==> end.users[who] == s.users[who])
            && (id in end.history && end.history[id].userId == who ==> id in s.history && s.history[id] == end.history[id])
            && (id in s.history && s.history[id].userId == who ==> id in end.history && end.history[id] == s.history[id])
    decreases |events|
  {
    hide Apply, IsFor;
    if events != [] {
      StepOfOthers(s, events[0], who, id);
      OthersLeaveUsersAlone(Apply(s, events[0]), events[1..], who, id);
    }
  }

  // ---- Rows -------------------------------------------------------------------------

  /** The call inserts a pending row under a hash that is stored already. */
  ghost predicate InsertsStored(s: State, e: Event) {
    e.InsertPending? && Enabled(s, e) && e.entry.hash.Some? && Stored(s, e.entry.hash.value)
  }

  ghost predicate Stored(s: State, hash: string) { exists i :: i in s.history && s.history[i].hash == Some(hash) }

  /** One step keeps hashes unique if and only if it is not such an insert. */
  lemma StepKeepsUnique(s: State, e: Event)
    requires UniqueHashes(s)
    ensures UniqueHashes(Apply(s, e)) <==> !InsertsStored(s, e)
  {
    if InsertsStored(s, e) {
      var i :| i in s.history && s.history[i].hash == e.entry.hash;
      assert Apply(s, e).history[i] == s.history[i] && Apply(s, e).history[e.newId] == e.entry;
    }
  }

  ghost predicate InsertsFresh(s: State, events: seq<Event>)
    decreases |events|
  {
    events == [] || (!InsertsStored(s, events[0]) && InsertsFresh(Apply(s, events[0]), events[1..]))
  }

  ghost predicate AlwaysUnique(s: State, events: seq<Event>)
    decreases |events|
  {
    UniqueHashes(s) && (events == [] || AlwaysUnique(Apply(s, events[0]), events[1..]))
  }

  /** The recorders keep hashes unique; over a run they stay unique throughout if and only if no
      wallet route inserts a stored one. */
  lemma {:induction false} RunKeepsUnique(s: State, events: seq<Event>)
    requires UniqueHashes(s)
    ensures AlwaysUnique(s, events) <==> InsertsFresh(s, events)
    ensures InsertsFresh(s, events) ==> UniqueHashes(Run(s, events))
    decreases |events|
  {
    hide UniqueHashes, InsertsStored, Apply;
    if events != [] {
      StepKeepsUnique(s, events[0]);
      if !InsertsStored(s, events[0]) { RunKeepsUnique(Apply(s, events[0]), events[1..]); }
    }
  }

  /** Rows stay, settled ones unchanged; only the status of a pending row can change. */
  lemma {:induction false} StatusesAreTerminal(s: State, events: seq<Event>, id: EntryId)
    requires id in s.history
    ensures id in Run(s, events).history
    ensures var before, after := s.history[id], Run(s, events).history[id];
            after == before.(status := after.status) && (!before.status.Pending? ==> after == before)
    decreases |events|
  {
    if events != [] { StatusesAreTerminal(Apply(s, events[0]), events[1..], id); }
  }

  // ---- How often a hash counts ------------------------------------------------------

  ghost function CompletedRows(s: State, hash: string): set<EntryId> {
    set i | i in s.history && s.history[i].hash == Some(hash) && s.history[i].status.Completed?
  }

  /** The rows of a hash that count or still can. */
  ghost function LiveRows(s: State, hash: string): set<EntryId> {
    set i | i in s.history && s.history[i].hash == Some(hash) && !s.history[i].status.Failed?
  }

  /** Rows belong to known users, by the schema's foreign key, and user ids are not empty. */
  ghost predicate OwnersKnown(s: State) {
    "" !in s.users && forall i :: i in s.history ==> s.history[i].userId in s.users
  }

  lemma StepKeepsOwners(s: State, e: Event)
    requires OwnersKnown(s)
    ensures OwnersKnown(Apply(s, e))
  {}

  predicate RecordersOnly(events: seq<Event>) { forall k :: 0 <= k < |events| ==> !events[k].InsertPending? }

  /** Whatever the recorders are called with from here on, the hash is counted at most once in all. */
  ghost predicate CountsOnce(s: State, hash: string) {
    forall events: seq<Event> | RecordersOnly(events) :: |CompletedRows(Run(s, events), hash)| <= 1
  }

  /** The call inserts a row of the hash while another one counts or still can. */
  ghost predicate InsertsRival(s: State, e: Event, hash: string) {
    e.InsertPending? && Enabled(s, e) && e.entry.hash == Some(hash) && LiveRows(s, hash) != {}
  }

  lemma StepLive(s: State, e: Event, hash: string)
    requires |LiveRows(s, hash)| <= 1 && !InsertsRival(s, e, hash)
    ensures |LiveRows(Apply(s, e), hash)| <= 1
  {
    var before, after := LiveRows(s, hash), LiveRows(Apply(s, e), hash);
    if after <= before {
      SubsetIsSmaller(after, before);
    } else {
      var id :| id in after && id !in before;
      assert id !in s.history;
      assert before == {} && after == {id};
    }
  }

  lemma {:induction false} LiveRowsBound(s: State, events: seq<Event>, hash: string)
    requires |LiveRows(s, hash)| <= 1 && RecordersOnly(events)
    ensures |LiveRows(Run(s, events), hash)| <= 1
    decreases |events|
  {
    hide Apply, LiveRows;
    if events != [] {
      StepLive(s, events[0], hash);
      LiveRowsBound(Apply(s, events[0]), events[1..], hash);
    }
  }

  /** A server action that promotes a given pending row. */
  lemma Promotion(s: State, id: EntryId, hash: string) returns (e: Event)
    requires OwnersKnown(s) && IsTxHash(hash)
    requires id in s.history && s.history[id].hash == Some(hash) && s.history[id].status.Pending?
    ensures e.RecordSuccess? && Promotes(s, e) && e.found == Some(id) && HashOf(e.input) == Some(hash)
    ensures Apply(s, e).history == s.history[id := s.history[id].(status := Completed)]
  {
    var newId := UpperBound(s.history.Keys);
    var input := Input(s.history[id].userId, Some(Deposit), 1, "vault", hash, "");
    e := RecordSuccess(ServerAction, input, Some(id), newId);
    assert IsHex(hash[0]) && IsHex(hash[63]);
    assert newId !in s.history;
  }

  /** The recorders can count a hash twice if and only if two rows of it count or still can. */
  lemma CountsOnceExactly(s: State, hash: string)
    requires OwnersKnown(s) && IsTxHash(hash)
    ensures CountsOnce(s, hash) <==> |LiveRows(s, hash)| <= 1
  {
    hide Apply, IsTxHash, OwnersKnown;
    if |LiveRows(s, hash)| <= 1 {
      forall events: seq<Event> | RecordersOnly(events) ensures |CompletedRows(Run(s, events), hash)| <= 1 {
        LiveRowsBound(s, events, hash);
        SubsetIsSmaller(CompletedRows(Run(s, events), hash), LiveRows(Run(s, events), hash));
      }
    } else {
      var events := CountedTwice(s, hash);
    }
  }

  lemma CountedTwice(s: State, hash: string) returns (events: seq<Event>)
    requires OwnersKnown(s) && IsTxHash(hash) && |LiveRows(s, hash)| > 1
    ensures RecordersOnly(events) && |CompletedRows(Run(s, events), hash)| > 1
  {
    hide Apply, IsTxHash, Promotes;
    var live := LiveRows(s, hash);
    var i :| i in live;
    assert |live - {i}| == |live| - 1;
    var j :| j in live - {i};
    var first, mid := CompletedRun(s, i, hash);
    var second, end := CompletedRun(mid, j, hash);
    events := first + second;
    RunConcat(s, first, second);
    SubsetIsSmaller({i, j}, CompletedRows(end, hash));
  }

  /** At most one call that completes a live row and leaves the other rows alone. */
  lemma CompletedRun(s: State, id: EntryId, hash: string) returns (events: seq<Event>, next: State)
    requires OwnersKnown(s) && IsTxHash(hash) && id in LiveRows(s, hash)
    ensures RecordersOnly(events) && |events| <= 1 && next == Run(s, events) && OwnersKnown(next)
    ensures next.history == s.history[id := s.history[id].(status := Completed)]
  {
    hide Apply, IsTxHash, Promotes, OwnersKnown;
    events, next := [], s;
    if s.history[id].status.Pending? {
      var e := Promotion(s, id, hash);
      StepKeepsOwners(s, e);
      events, next := [e], Apply(s, e);
    }
  }

  lemma {:induction false} RunConcat(s: State, events: seq<Event>, more: seq<Event>)
    ensures Run(s, events + more) == Run(Run(s, events), more)
    decreases |events|
  {
    if events == [] {
      assert events + more == more;
    } else {
      assert (events + more)[1..] == events[1..] + more;
      RunConcat(Apply(s, events[0]), events[1..], more);
    }
  }

  ghost predicate InsertsNoRival(s: State, events: seq<Event>, hash: string)
    decreases |events|
  {
    events == [] || (!InsertsRival(s, events[0], hash) && InsertsNoRival(Apply(s, events[0]), events[1..], hash))
  }

  ghost predicate AlwaysCountsOnce(s: State, events: seq<Event>, hash: string)
    decreases |events|
  {
    CountsOnce(s, hash) && (events == [] || AlwaysCountsOnce(Apply(s, events[0]), events[1..], hash))
  }

  /** Over a run with inserts a hash stays one that counts at most once if and only if the wallet
      routes insert it only while no row of it is pending or completed. */
  lemma {:induction false} HashCountsOnceExactly(s: State, events: seq<Event>, hash: string)
    requires OwnersKnown(s) && IsTxHash(hash) && CountsOnce(s, hash)
    ensures AlwaysCountsOnce(s, events, hash) <==> InsertsNoRival(s, events, hash)
    decreases |events|
  {
    hide Apply, IsTxHash, OwnersKnown, CountsOnce, LiveRows;
    if events != [] {
      var next := Apply(s, events[0]);
      CountsOnceExactly(s, hash);
      StepKeepsOwners(s, events[0]);
      CountsOnceExactly(next, hash);
      if InsertsRival(s, events[0], hash) {
        RivalIsLive(s, events[0], hash);
      } else {
        StepLive(s, events[0], hash);
        HashCountsOnceExactly(next, events[1..], hash);
      }
    }
  }

  lemma RivalIsLive(s: State, e: Event, hash: string)
    requires InsertsRival(s, e, hash)
    ensures |LiveRows(Apply(s, e), hash)| > 1
  {
    var i :| i in LiveRows(s, hash);
    SubsetIsSmaller({i, e.newId}, LiveRows(Apply(s, e), hash));
  }

  /** The call completes a row of the hash: inserts it completed, or promotes it. */
  ghost predicate Completes(s: State, e: Event, hash: string) { CompletedRows(Apply(s, e), hash) != CompletedRows(s, hash) }

  ghost function TimesCompleted(s: State, events: seq<Event>, hash: string): nat
    decreases |events|
  {
    if events == [] then 0
    else Count(Completes(s, events[0], hash)) + TimesCompleted(Apply(s, events[0]), events[1..], hash)
  }

  lemma StepCompletes(s: State, e: Event, hash: string)
    ensures |CompletedRows(Apply(s, e), hash)| == |CompletedRows(s, hash)| + Count(Completes(s, e, hash))
  {
    var id := StepChangesOneRow(s, e);
    hide Apply;
    OneMoreAtMost(CompletedRows(s, hash), CompletedRows(Apply(s, e), hash), id);
  }

  lemma OneMoreAtMost(before: set<EntryId>, after: set<EntryId>, id: EntryId)
    requires before <= after <= before + {id}
    ensures |after| == |before| + Count(after != before)
  {
    assert after == before || after == before + {id};
  }

  /** A step inserts or settles at most one row. */
  lemma StepChangesOneRow(s: State, e: Event) returns (id: EntryId)
    ensures var next := Apply(s, e).history;
            && (forall i :: i != id ==> (i in next <==> i in s.history) && (i in next ==> next[i] == s.history[i]))
            && (id in s.history ==> id in next && (!s.history[id].status.Pending? ==> next[id] == s.history[id]))
  {
    if e.InsertPending? || e.found.None? { id := e.newId; } else { id := e.found.value; }
  }

  lemma {:induction false} RunCompletes(s: State, events: seq<Event>, hash: string)
    ensures |CompletedRows(Run(s, events), hash)| == |CompletedRows(s, hash)| + TimesCompleted(s, events, hash)
    decreases |events|
  {
    hide Apply, CompletedRows, Completes;
    if events != [] {
      StepCompletes(s, events[0], hash);
      RunCompletes(Apply(s, events[0]), events[1..], hash);
    }
  }

  lemma {:induction false} NoRivalKeepsLive(s: State, events: seq<Event>, hash: string)
    requires |LiveRows(s, hash)| <= 1 && InsertsNoRival(s, events, hash)
    ensures |LiveRows(Run(s, events), hash)| <= 1
    decreases |events|
  {
    hide Apply, LiveRows;
    if events != [] {
      StepLive(s, events[0], hash);
      NoRivalKeepsLive(Apply(s, events[0]), events[1..], hash);
    }
  }

  /** In such a run the hash is completed, and so counted, at most once, and not at all if it
      already was. */
  lemma HashCountsOnce(s: State, events: seq<Event>, hash: string)
    requires |LiveRows(s, hash)| <= 1 && InsertsNoRival(s, events, hash)
    ensures |CompletedRows(s, hash)| + TimesCompleted(s, events, hash) <= 1
  {
    RunCompletes(s, events, hash);
    NoRivalKeepsLive(s, events, hash);
    SubsetIsSmaller(CompletedRows(Run(s, events), hash), LiveRows(Run(s, events), hash));
  }

  /** The routes do not check that: with two pending rows of one hash, recording it twice credits
      it twice. */
  lemma DuplicateRowsCountTwice(hash: string)
    requires IsTxHash(hash)
    ensures var row := Entry("u", Deposit, Pending, 100, Some(hash));
            var input := Input("u", Some(Deposit), 100, "vault", hash, "");
            var events := [InsertPending(0, row), InsertPending(1, row),
                           RecordSuccess(ServerAction, input, Some(0), 2), RecordSuccess(ServerAction, input, Some(1), 2)];
            Run(State(map["u" := User(0, true)], map[]), events).users == map["u" := User(200, true)]
  {
    var s := State(map["u" := User(0, true)], map[]);
    var row := Entry("u", Deposit, Pending, 100, Some(hash));
    var input := Input("u", Some(Deposit), 100, "vault", hash, "");
    var a, b := InsertPending(0, row), InsertPending(1, row);
    var c, d := RecordSuccess(ServerAction, input, Some(0), 2), RecordSuccess(ServerAction, input, Some(1), 2);
    assert IsHex(hash[0]) && IsHex(hash[63]);
    assert HashOf(input) == Some(hash) && SuccessInvalid(input).None?;
    hide IsTxHash, HashOf, SuccessInvalid;
    assert Apply(s, a) == State(s.users, map[0 := row]);
    var two := Apply(Apply(s, a), b);
    assert two == State(s.users, map[0 := row, 1 := row]);
    var once := Apply(two, c);
    assert once == State(map["u" := User(100, true)], map[0 := row.(status := Completed), 1 := row]);
    assert Apply(once, d).users == map["u" := User(200, true)];
    RunOfFour(s, a, b, c, d);
  }

  lemma RunOfFour(s: State, a: Event, b: Event, c: Event, d: Event)
    ensures Run(s, [a, b, c, d]) == Apply(Apply(Apply(Apply(s, a), b), c), d)
  {
    hide Apply;
    assert [a, b, c, d][1..] == [b, c, d] && [b, c, d][1..] == [c, d] && [c, d][1..] == [d];
    var two := Apply(Apply(s, a), b);
    assert Run(Apply(s, a), [b, c, d]) == Run(two, [c, d]) == Run(Apply(two, c), [d]);
    assert Run(Apply(two, c), [d]) == Run(Apply(Apply(two, c), d), []);
  }

  // ---- Replay -----------------------------------------------------------------------

  predicate Records(e: Event) { e.RecordSuccess? || e.RecordFailure? }

  /** No recorder call for the hash, of either kind and variant and with any input, changes anything. */
  ghost predicate Inert(s: State, hash: string) {
    forall e: Event | Records(e) && HashOf(e.input) == Some(hash) :: Apply(s, e) == s
  }

  ghost predicate SettledHash(s: State, hash: string) {
    Stored(s, hash) && forall i :: i in s.history && s.history[i].hash == Some(hash) ==> !s.history[i].status.Pending?
  }

  /** Replaying a hash changes nothing if and only if it is stored and no row of it is pending. */
  lemma InertExactly(s: State, hash: string)
    requires OwnersKnown(s) && IsTxHash(hash) && s.users != map[]
    ensures Inert(s, hash) <==> SettledHash(s, hash)
  {
    if SettledHash(s, hash) {
      forall e: Event | Records(e) && HashOf(e.input) == Some(hash) ensures Apply(s, e) == s {
        SettledIsLeft(s, e, hash);
      }
    } else if Stored(s, hash) {
      var i :| i in s.history && s.history[i].hash == Some(hash) && s.history[i].status.Pending?;
      var e := Promotion(s, i, hash);
      assert Apply(s, e).history[i].status.Completed?;
    } else {
      var e := NewFailure(s, hash);
      assert Apply(s, e) != s;
    }
  }

  lemma SettledIsLeft(s: State, e: Event, hash: string)
    requires SettledHash(s, hash) && Records(e) && HashOf(e.input) == Some(hash)
    ensures Apply(s, e) == s
  {}

  lemma NewFailure(s: State, hash: string) returns (e: Event)
    requires OwnersKnown(s) && IsTxHash(hash) && s.users != map[] && !Stored(s, hash)
    ensures e.RecordFailure? && HashOf(e.input) == Some(hash) && Apply(s, e) != s
  {
    var u :| u in s.users;
    var newId := UpperBound(s.history.Keys);
    e := RecordFailure(Service, Input(u, Some(Deposit), 1, "vault", hash, "failed"), None, newId);
    assert IsHex(hash[0]) && IsHex(hash[63]);
    assert newId !in s.history && newId in Apply(s, e).history;
  }

  ghost predicate Reinserts(s: State, e: Event, hash: string) { e.InsertPending? && Enabled(s, e) && e.entry.hash == Some(hash) }

  ghost predicate NeverReinserts(s: State, events: seq<Event>, hash: string)
    decreases |events|
  {
    events == [] || (!Reinserts(s, events[0], hash) && NeverReinserts(Apply(s, events[0]), events[1..], hash))
  }

  ghost predicate AlwaysInert(s: State, events: seq<Event>, hash: string)
    decreases |events|
  {
    Inert(s, hash) && (events == [] || AlwaysInert(Apply(s, events[0]), events[1..], hash))
  }

  lemma StepKeepsSettled(s: State, e: Event, hash: string)
    requires SettledHash(s, hash)
    ensures SettledHash(Apply(s, e), hash) <==> !Reinserts(s, e, hash)
  {
    var i :| i in s.history && s.history[i].hash == Some(hash);
    assert i in Apply(s, e).history && Apply(s, e).history[i] == s.history[i];
    if Reinserts(s, e, hash) { assert Apply(s, e).history[e.newId] == e.entry; }
  }

  lemma {:induction false} SettledStaysInert(s: State, events: seq<Event>, hash: string)
    requires OwnersKnown(s) && IsTxHash(hash) && s.users != map[] && SettledHash(s, hash)
    ensures AlwaysInert(s, events, hash) <==> NeverReinserts(s, events, hash)
    decreases |events|
  {
    hide Apply, IsTxHash, OwnersKnown, Inert, SettledHash;
    InertExactly(s, hash);
    if events != [] {
      var next := Apply(s, events[0]);
      StepKeepsOwners(s, events[0]);
      UsersStay(s, events[0]);
      StepKeepsSettled(s, events[0], hash);
      InertExactly(next, hash);
      if !Reinserts(s, events[0], hash) { SettledStaysInert(next, events[1..], hash); }
    }
  }

  lemma UsersStay(s: State, e: Event)
    ensures Apply(s, e).users.Keys == s.users.Keys
  {}

  /** The call leaves its row settled: only the service's recorders leave a pending row pending. */
  predicate Settles(s: State, e: Event)
    requires Records(e) && Enabled(s, e)
  {
    e.variant.ServerAction? || e.found.None? || !s.history[e.found.value].status.Pending?
  }

  /** No row of the hash is pending, except perhaps the one that the call finds. */
  ghost predicate NoOtherPending(s: State, hash: string, found: Option<EntryId>) {
    forall i :: i in s.history && s.history[i].hash == Some(hash) && found != Some(i) ==> !s.history[i].status.Pending?
  }

  lemma RecordingSettles(s: State, e: Event, hash: string)
    requires Records(e) && Enabled(s, e) && Attempt(s, e).Ok? && HashOf(e.input) == Some(hash)
    ensures IsTxHash(hash) && e.input.userId in s.users
    ensures SettledHash(Apply(s, e), hash) <==> Settles(s, e) && NoOtherPending(s, hash, e.found)
  {
    var next := Apply(s, e);
    var id := if e.found.Some? then e.found.value else e.newId;
    assert id in next.history && next.history[id].hash == Some(hash);
    assert next.history[id].status.Pending? <==> !Settles(s, e);
    forall i | i in s.history && i != id ensures i in next.history && next.history[i] == s.history[i] {}
  }

  /** Once a hash has been recorded, as successful or failed, recording it again, either way, by
      either variant and with whatever input, changes nothing throughout a run if and only if the
      recording settled its row, no other row of the hash was pending, and no wallet route inserts the
      hash anew. */
  lemma ReplayChangesNothing(s: State, first: Event, events: seq<Event>, hash: string)
    requires OwnersKnown(s) && Records(first) && Enabled(s, first) && Attempt(s, first).Ok? && HashOf(first.input) == Some(hash)
    ensures AlwaysInert(Apply(s, first), events, hash) <==>
              Settles(s, first) && NoOtherPending(s, hash, first.found) && NeverReinserts(Apply(s, first), events, hash)
  {
    hide Apply, OwnersKnown, NoOtherPending, Settles, SettledHash, IsTxHash, Inert;
    var next := Apply(s, first);
    RecordingSettles(s, first, hash);
    StepKeepsOwners(s, first);
    UsersStay(s, first);
    assert first.input.userId in next.users.Keys;
    InertExactly(next, hash);
    if SettledHash(next, hash) { SettledStaysInert(next, events, hash); }
  }

  /** The service's recorders change nothing for a stored hash, whatever has happened in between. */
  lemma {:induction false} ServiceReplayChangesNothing(s: State, events: seq<Event>, e: Event, hash: string)
    requires Stored(s, hash) && Records(e) && e.variant.Service? && HashOf(e.input) == Some(hash)
    ensures Apply(Run(s, events), e) == Run(s, events)
  {
    var i :| i in s.history && s.history[i].hash == Some(hash);
    StatusesAreTerminal(s, events, i);
  }

  // ---- Overdrafts -------------------------------------------------------------------

  ghost predicate NoOverdraft(s: State) {
    forall u :: u in s.users ==> s.users[u].savingsBalance >= 0
  }

  /** A call overdraws if and only if it promotes a pending row as a withdrawal of more than the
      balance: only the promoting branch skips the check. */
  lemma OverdrawsExactlyWhenPromoting(s: State, e: Event)
    requires NoOverdraft(s)
    ensures !NoOverdraft(Apply(s, e)) <==>
              Promotes(s, e) && e.input.kind == Some(Withdrawal) && s.users[e.input.userId].savingsBalance < e.input.amount
  {
    if Promotes(s, e) {
      assert Apply(s, e).users[e.input.userId].savingsBalance ==
             s.users[e.input.userId].savingsBalance + SignedAmount(e.input.kind.value, e.input.amount);
    }
  }

  /** A withdrawal of 100 left pending by the route and promoted at balance 0 ends at -100. */
  lemma PromotionCanOverdraw(hash: string)
    requires IsTxHash(hash)
    ensures var row := Entry("u", Withdrawal, Pending, 100, Some(hash));
            var e := RecordSuccess(ServerAction, Input("u", Some(Withdrawal), 100, "vault", hash, ""), Some(0), 1);
            var inserted := Apply(State(map["u" := User(0, true)], map[]), InsertPending(0, row));
            Apply(inserted, e).users == map["u" := User(-100, true)]
  {
    var row := Entry("u", Withdrawal, Pending, 100, Some(hash));
    var e := RecordSuccess(ServerAction, Input("u", Some(Withdrawal), 100, "vault", hash, ""), Some(0), 1);
    assert IsHex(hash[0]) && IsHex(hash[63]);
    assert HashOf(e.input) == Some(hash);
  }

  predicate ServiceOnly(events: seq<Event>) {
    forall i :: 0 <= i < |events| && events[i].RecordSuccess? ==> events[i].variant.Service?
  }

  /** The service's recorder, which promotes nothing, never overdraws. */
  lemma {:induction false} ServiceNeverOverdraws(s: State, events: seq<Event>)
    requires NoOverdraft(s) && ServiceOnly(events)
    ensures NoOverdraft(Run(s, events))
    decreases |events|
  {
    if events != [] {
      OverdrawsExactlyWhenPromoting(s, events[0]);
      ServiceNeverOverdraws(Apply(s, events[0]), events[1..]);
    }
  }
}

/** The recorders: the user row and the history rows are updated in place, in one transaction. */
module SavingsLedger {
  import opened Outcomes
  import opened SavingsRecords
  import UsdcAmount

  class Ledger {
    var users: map<string, User>
    var history: map<EntryId, Entry>

    ghost function Model(): State
      reads this
    {
      State(users, history)
    }

    method FindByHash(hash: Option<string>) returns (found: Option<EntryId>)
      ensures QueryAnswers(history, hash, found)
    {
      if hash.None? { return None; }
      var left := history.Keys;
      while left != {}
        invariant left <= history.Keys && forall i :: i in history && i !in left ==> history[i].hash != hash
        decreases |left|
      {
        var i :| i in left;
        left := left - {i};
        if history[i].hash == hash { return Some(i); }
      }
      found := None;
    }

    method UpdateBalance(input: Input)
      requires input.userId in users && input.kind.Some? && !input.kind.value.YieldClaim?
      modifies `users
      ensures Model() == Credited(old(Model()), input)
    {
      var balance := users[input.userId].savingsBalance;
      balance := if input.kind.value.Deposit? then balance + input.amount else balance - input.amount;
      users := users[input.userId := User(balance, true)];
    }

    method RecordSuccessful(variant: Variant, input: Input, newId: EntryId) returns (r: Result<EntryId, Failure>, found: Option<EntryId>)
      requires newId !in history
      modifies this
      ensures QueryAnswers(old(history), HashOf(input), found)
      ensures Model() == Apply(old(Model()), RecordSuccess(variant, input, found, newId))
      ensures match RecordedSuccess(old(Model()), variant, input, found, newId)
              case Err(e) => r == Err(e)
              case Ok(_) => r == Ok(if found.Some? then found.value else newId)
    {
      found := FindByHash(HashOf(input));
      var invalid := SuccessInvalid(input);
      if invalid.Some? { return Err(invalid.value), found; }
      if input.userId !in users { return Err(UserNotFound), found; }
      if found.Some? {
        var existing := history[found.value];
        if existing.userId != input.userId { return Err(ClaimedByAnother), found; }
        if variant.ServerAction? && existing.status.Pending? {
          history := history[found.value := existing.(status := Completed)];
          UpdateBalance(input);
        }
        return Ok(found.value), found;
      }
      if input.kind.value.Withdrawal? && users[input.userId].savingsBalance < input.amount {
        return Err(InsufficientBalance), found;
      }
      history := history[newId := Entry(input.userId, input.kind.value, Completed, input.amount, HashOf(input))];
      UpdateBalance(input);
      r := Ok(newId);
    }

    method RecordFailed(variant: Variant, input: Input, newId: EntryId) returns (r: Result<EntryId, Failure>, found: Option<EntryId>)
      requires newId !in history
      modifies `history
      ensures QueryAnswers(old(history), HashOf(input), found)
      ensures Model() == Apply(old(Model()), RecordFailure(variant, input, found, newId))
      ensures match RecordedFailure(old(Model()), variant, input, found, newId)
              case Err(e) => r == Err(e)
              case Ok(_) => r == Ok(if found.Some? then found.value else newId)
    {
      found := FindByHash(HashOf(input));
      var invalid := FailureInvalid(input);
      if invalid.Some? { return Err(invalid.value), found; }
      if input.userId !in users { return Err(UserNotFound), found; }
      if found.Some? {
        var existing := history[found.value];
        if existing.userId != input.userId { return Err(ClaimedByAnother), found; }
        if variant.ServerAction? && existing.status.Pending? {
          history := history[found.value := existing.(status := Status.Failed)];
        }
        return Ok(found.value), found;
      }
      history := history[newId := Entry(input.userId, input.kind.value, Status.Failed, input.amount, HashOf(input))];
      r := Ok(newId);
    }
  }
}
