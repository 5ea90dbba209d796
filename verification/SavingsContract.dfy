/** The on-chain savings vault as a state machine over user records, a fee pool and the token ledger. */
module SavingsMachine {
  import opened Outcomes
  import opened Token

  const MIN_DEPOSIT_AMOUNT := 10_000_000

  datatype UserSavings = UserSavings(principal: I128, yieldShares: I128)

  datatype State = State(balances: Balances, admin: Address, paused: bool, platformFees: I128, records: map<Address, UserSavings>)

  datatype Failure =
    | AuthFailed | TransferFailed | ProtocolPaused | InvalidAmount | AmountTooSmall | Overflow
    | NoYieldToClaim | UserNotFound | InsufficientBalance | Unauthorized | NoFeesToCollect

  datatype Call =
    | Deposit(user: Address, amount: I128)
    | Withdraw(user: Address, amount: I128)
    | ClaimYield(user: Address)
    | AccrueYield(admin: Address, user: Address, yieldAmount: I128)
    | CollectFees(admin: Address)
    | Pause(admin: Address, status: bool)

  /** A call, a token movement elsewhere, or the storage accessor that adds to the fee pool. */
  datatype Event =
    | Invoke(signers: set<Address>, call: Call)
    | OutsideTransfer(from: Address, to: Address, amount: int)
    | AccumulateFees(delta: I128)

  function CheckedI128(x: int): Option<I128> {
    if I128_MIN <= x <= I128_MAX then Some(x) else None
  }

  function RecordOf(s: State, user: Address): UserSavings {
    if user in s.records then s.records[user] else UserSavings(0, 0)
  }

  function Store(s: State, user: Address, record: UserSavings): State {
    s.(records := s.records[user := record])
  }

  function Pay(s: State, from: Address, to: Address, amount: int): Result<State, Failure> {
    match Transfer(s.balances, from, to, amount)
    case None => Err(TransferFailed)
    case Some(b) => Ok(s.(balances := b))
  }

  function DepositSavings(s: State, signers: set<Address>, user: Address, amount: I128): Result<State, Failure> {
    if s.paused then Err(ProtocolPaused)
    else if !Signed(signers, user) then Err(AuthFailed)
    else if amount <= 0 then Err(InvalidAmount)
    else if amount < MIN_DEPOSIT_AMOUNT then Err(AmountTooSmall)
    else match Pay(s, user, CONTRACT, amount)
      case Err(e) => Err(e)
      case Ok(paid) =>
        var record := RecordOf(paid, user);
        match CheckedI128(record.principal + amount)
        case None => Err(Overflow)
        case Some(principal) => Ok(Store(paid, user, record.(principal := principal)))
  }

  function WithdrawSavings(s: State, signers: set<Address>, user: Address, amount: I128): Result<State, Failure> {
    if !Signed(signers, user) then Err(AuthFailed)
    else if user !in s.records then Err(UserNotFound)
    else
      var record := s.records[user];
      if record.principal < amount then Err(InsufficientBalance)
      else match CheckedI128(record.principal - amount)
        case None => Err(Overflow)
        case Some(principal) => Pay(Store(s, user, record.(principal := principal)), CONTRACT, user, amount)
  }

  function ClaimAllYield(s: State, signers: set<Address>, user: Address): Result<State, Failure> {
    if !Signed(signers, user) then Err(AuthFailed)
    else
      var record := RecordOf(s, user);
      if record.yieldShares <= 0 then Err(NoYieldToClaim)
      else Pay(Store(s, user, record.(yieldShares := 0)), CONTRACT, user, record.yieldShares)
  }

  function Accrue(s: State, signers: set<Address>, admin: Address, user: Address, yieldAmount: I128): Result<State, Failure> {
    if !Signed(signers, admin) then Err(AuthFailed)
    else if admin != s.admin then Err(Unauthorized)
    else if user !in s.records then Err(UserNotFound)
    else match CheckedI128(s.records[user].yieldShares + yieldAmount)
      case None => Err(Overflow)
      case Some(shares) => Ok(Store(s, user, s.records[user].(yieldShares := shares)))
  }

  function Collect(s: State, signers: set<Address>, admin: Address): Result<State, Failure> {
    if !Signed(signers, admin) then Err(AuthFailed)
    else if admin != s.admin then Err(Unauthorized)
    else if s.platformFees == 0 then Err(NoFeesToCollect)
    else Pay(s.(platformFees := 0), CONTRACT, admin, s.platformFees)
  }

  function Exec(s: State, signers: set<Address>, call: Call): Result<State, Failure> {
    match call
    case Deposit(user, amount) => DepositSavings(s, signers, user, amount)
    case Withdraw(user, amount) => WithdrawSavings(s, signers, user, amount)
    case ClaimYield(user) => ClaimAllYield(s, signers, user)
    case AccrueYield(admin, user, yieldAmount) => Accrue(s, signers, admin, user, yieldAmount)
    case CollectFees(admin) => Collect(s, signers, admin)
    case Pause(admin, status) =>
      if !Signed(signers, admin) then Err(AuthFailed)
      else if admin != s.admin then Err(Unauthorized)
      else Ok(s.(paused := status))
  }

  /** A failing call changes nothing; nobody outside moves the contract's own tokens. */
  function Apply(s: State, e: Event): State {
    match e
    case Invoke(signers, call) => (
      match Exec(s, signers, call)
      case Ok(next) => next
      case Err(_) => s
    )
    case OutsideTransfer(from, to, amount) =>
      if from == CONTRACT || Transfer(s.balances, from, to, amount).None? then s
      else s.(balances := Transfer(s.balances, from, to, amount).value)
    case AccumulateFees(delta) => (
      match CheckedI128(s.platformFees + delta)
      case None => s
      case Some(fees) => s.(platformFees := fees)
    )
  }

  function Run(s: State, events: seq<Event>): State
    decreases |events|
  {
    if events == [] then s else Run(Apply(s, events[0]), events[1..])
  }
}

/** Liabilities against the balance, over every run. */
module SavingsProofs {
  import opened Outcomes
  import opened Token
  import opened MapSums
  import opened SavingsMachine

  ghost function Owed(records: map<Address, UserSavings>): map<Address, int> {
    map u | u in records :: records[u].principal + records[u].yieldShares
  }

  ghost function Liabilities(s: State): int { Sum(Owed(s.records)) + s.platformFees }

  ghost function Held(s: State): int { BalanceOf(s.balances, CONTRACT) }

  /** What the contract holds beyond what it owes. */
  ghost function Slack(s: State): int { Held(s) - Liabilities(s) }

  /** Tokens one event brings in from outside. */
  function Received(s: State, e: Event): int {
    if e.OutsideTransfer? && e.to == CONTRACT && e.from != CONTRACT && Transfer(s.balances, e.from, e.to, e.amount).Some?
    then e.amount else 0
  }

  /** New obligations one event creates without bringing in tokens. */
  function Promised(s: State, e: Event): int {
    match e
    case Invoke(signers, AccrueYield(_, _, yieldAmount)) => if Exec(s, signers, e.call).Ok? then yieldAmount else 0
    case AccumulateFees(delta) => if CheckedI128(s.platformFees + delta).Some? then delta else 0
    case _ => 0
  }

  function TotalReceived(s: State, events: seq<Event>): int
    decreases |events|
  {
    if events == [] then 0 else Received(s, events[0]) + TotalReceived(Apply(s, events[0]), events[1..])
  }

  function TotalPromised(s: State, events: seq<Event>): int
    decreases |events|
  {
    if events == [] then 0 else Promised(s, events[0]) + TotalPromised(Apply(s, events[0]), events[1..])
  }

  lemma OwedStore(s: State, user: Address, record: UserSavings)
    ensures Sum(Owed(s.records[user := record])) ==
              Sum(Owed(s.records)) - RecordOf(s, user).principal - RecordOf(s, user).yieldShares
                                   + record.principal + record.yieldShares
  {
    assert Owed(s.records[user := record]) == Owed(s.records)[user := record.principal + record.yieldShares];
    SumSet(Owed(s.records), user, record.principal + record.yieldShares);
  }

  lemma PayMoves(s: State, from: Address, to: Address, amount: int)
    requires Pay(s, from, to, amount).Ok?
    ensures var paid := Pay(s, from, to, amount).value;
            && paid == s.(balances := paid.balances)
            && Held(paid) == Held(s) - (if from == CONTRACT then amount else 0) + (if to == CONTRACT then amount else 0)
  {}

  lemma DepositSlack(s: State, signers: set<Address>, user: Address, amount: I128)
    requires DepositSavings(s, signers, user, amount).Ok?
    ensures Slack(DepositSavings(s, signers, user, amount).value) == Slack(s)
  {
    hide Transfer;
    PayMoves(s, user, CONTRACT, amount);
    OwedStore(s, user, RecordOf(s, user).(principal := RecordOf(s, user).principal + amount));
  }

  lemma WithdrawSlack(s: State, signers: set<Address>, user: Address, amount: I128)
    requires WithdrawSavings(s, signers, user, amount).Ok?
    ensures Slack(WithdrawSavings(s, signers, user, amount).value) == Slack(s)
  {
    hide Transfer;
    var record := s.records[user].(principal := s.records[user].principal - amount);
    PayMoves(Store(s, user, record), CONTRACT, user, amount);
    OwedStore(s, user, record);
  }

  lemma ClaimSlack(s: State, signers: set<Address>, user: Address)
    requires ClaimAllYield(s, signers, user).Ok?
    ensures Slack(ClaimAllYield(s, signers, user).value) == Slack(s)
  {
    hide Transfer;
    var record := RecordOf(s, user).(yieldShares := 0);
    PayMoves(Store(s, user, record), CONTRACT, user, RecordOf(s, user).yieldShares);
    OwedStore(s, user, record);
  }

  lemma CallSlack(s: State, signers: set<Address>, call: Call)
    requires Exec(s, signers, call).Ok?
    ensures Slack(Exec(s, signers, call).value) == Slack(s) - Promised(s, Invoke(signers, call))
  {
    hide DepositSavings, WithdrawSavings, ClaimAllYield;
    match call
    case Deposit(user, amount) => DepositSlack(s, signers, user, amount);
    case Withdraw(user, amount) => WithdrawSlack(s, signers, user, amount);
    case ClaimYield(user) => ClaimSlack(s, signers, user);
    case AccrueYield(admin, user, yieldAmount) =>
      OwedStore(s, user, s.records[user].(yieldShares := s.records[user].yieldShares + yieldAmount));
    case CollectFees(admin) => PayMoves(s.(platformFees := 0), CONTRACT, admin, s.platformFees);
    case Pause(_, _) =>
  }

  /** Deposits, withdrawals, yield claims and fee collection leave the slack alone; only outside
      transfers raise it and only accruals lower it, by exactly their amounts. */
  lemma StepSlack(s: State, e: Event)
    ensures Slack(Apply(s, e)) == Slack(s) + Received(s, e) - Promised(s, e)
  {
    match e
    case Invoke(signers, call) => if Exec(s, signers, call).Ok? { CallSlack(s, signers, call); }
    case OutsideTransfer(from, to, amount) =>
    case AccumulateFees(_) =>
  }

  lemma {:induction false} RunSlack(s: State, events: seq<Event>)
    ensures Slack(Run(s, events)) == Slack(s) + TotalReceived(s, events) - TotalPromised(s, events)
    decreases |events|
  {
    if events != [] {
      StepSlack(s, events[0]);
      RunSlack(Apply(s, events[0]), events[1..]);
    }
  }

  // ---- Coverage ---------------------------------------------------------------------

  /** No negative obligations, and every obligation is owed to someone who can sign for it. */
  ghost predicate Sound(s: State) {
    && (forall u :: u in s.records ==> s.records[u].principal >= 0 && s.records[u].yieldShares >= 0)
    && s.platformFees >= 0 && CONTRACT !in s.records && s.admin != CONTRACT
  }

  predicate NonNegativeAccrual(e: Event) {
    match e
    case Invoke(_, AccrueYield(_, _, yieldAmount)) => yieldAmount >= 0
    case AccumulateFees(delta) => delta >= 0
    case _ => true
  }

  lemma StepKeepsSound(s: State, e: Event)
    requires Sound(s) && NonNegativeAccrual(e)
    ensures Sound(Apply(s, e))
  {}

  lemma {:induction false} RunKeepsSound(s: State, events: seq<Event>)
    requires Sound(s) && forall i :: 0 <= i < |events| ==> NonNegativeAccrual(events[i])
    ensures Sound(Run(s, events))
    decreases |events|
  {
    if events != [] {
      StepKeepsSound(s, events[0]);
      RunKeepsSound(Apply(s, events[0]), events[1..]);
    }
  }

  lemma ObligationWithinLiabilities(s: State, user: Address)
    requires Sound(s)
    ensures s.platformFees <= Liabilities(s)
    ensures RecordOf(s, user).principal <= Liabilities(s) && RecordOf(s, user).yieldShares <= Liabilities(s)
  {
    SumBoundsEntry(Owed(s.records), user);
  }

  /** What the contract promises a caller who asks for their own money. */
  predicate Permitted(s: State, signers: set<Address>, call: Call) {
    match call
    case Withdraw(user, amount) => Signed(signers, user) && user in s.records && 0 <= amount <= s.records[user].principal
    case ClaimYield(user) => Signed(signers, user) && RecordOf(s, user).yieldShares > 0
    case CollectFees(admin) => Signed(signers, admin) && admin == s.admin && s.platformFees != 0
    case _ => false
  }

  predicate IsPayout(call: Call) { call.Withdraw? || call.ClaimYield? || call.CollectFees? }

  lemma PayoutsNeedPermission(s: State, signers: set<Address>, call: Call)
    requires IsPayout(call)
    ensures Exec(s, signers, call).Ok? ==> Permitted(s, signers, call)
    ensures Permitted(s, signers, call) && Exec(s, signers, call).Err? ==>
              Sound(s) ==> Exec(s, signers, call) == Err(TransferFailed)
  {}

  /** From a sound start, as long as non-negative accruals stay within the slack plus what came in
      from outside, a withdrawal, claim or collection succeeds exactly when it is permitted. */
  lemma PermittedPayoutsAreCovered(s: State, events: seq<Event>, signers: set<Address>, call: Call)
    requires Sound(s) && forall i :: 0 <= i < |events| ==> NonNegativeAccrual(events[i])
    requires TotalPromised(s, events) <= Slack(s) + TotalReceived(s, events)
    requires IsPayout(call)
    ensures Exec(Run(s, events), signers, call).Ok? <==> Permitted(Run(s, events), signers, call)
  {
    var now := Run(s, events);
    RunSlack(s, events);
    RunKeepsSound(s, events);
    ObligationWithinLiabilities(now, if call.CollectFees? then call.admin else call.user);
    PayoutsNeedPermission(now, signers, call);
  }

  predicate OnlyPayouts(events: seq<Event>) {
    forall i :: 0 <= i < |events| ==> events[i].Invoke? && IsPayout(events[i].call)
  }

  /** Every permitted payout goes through, in whatever order the parties ask. */
  ghost predicate EveryoneIsPaid(s: State) {
    forall events: seq<Event>, signers: set<Address>, call: Call
      | OnlyPayouts(events) && Permitted(Run(s, events), signers, call)
      :: Exec(Run(s, events), signers, call).Ok?
  }

  lemma {:induction false} PayoutsPromiseNothing(s: State, events: seq<Event>)
    requires OnlyPayouts(events)
    ensures TotalPromised(s, events) == 0 && TotalReceived(s, events) == 0
    decreases |events|
  {
    if events != [] { PayoutsPromiseNothing(Apply(s, events[0]), events[1..]); }
  }

  /** The condition is exact: everyone can be paid if and only if the slack is not negative. */
  lemma PaidExactlyWhenSolvent(s: State)
    requires Sound(s) && Held(s) >= 0
    ensures EveryoneIsPaid(s) <==> Slack(s) >= 0
  {
    if Slack(s) >= 0 {
      forall events: seq<Event>, signers: set<Address>, call: Call
        | OnlyPayouts(events) && Permitted(Run(s, events), signers, call)
        ensures Exec(Run(s, events), signers, call).Ok?
      {
        PayoutsPromiseNothing(s, events);
        PermittedPayoutsAreCovered(s, events, signers, call);
      }
    } else {
      var events, signers, call := ShortfallStrandsSomeone(s);
    }
  }

  /** Someone with a positive claim, while there are liabilities at all. */
  lemma SomeoneIsOwed(s: State) returns (signers: set<Address>, call: Call)
    requires Sound(s) && Liabilities(s) > 0
    ensures Permitted(s, signers, call) && (call.Withdraw? ==> call.amount > 0)
  {
    if s.platformFees > 0 {
      return {s.admin}, CollectFees(s.admin);
    }
    if u :| u in s.records && s.records[u].yieldShares > 0 {
      return {u}, ClaimYield(u);
    }
    if u :| u in s.records && s.records[u].principal > 0 {
      return {u}, Withdraw(u, s.records[u].principal);
    }
    AllZeroSumsToZero(Owed(s.records));
    assert false;
  }

  /** A successful payout lowers the liabilities by what it pays. */
  lemma PayoutLowersLiabilities(s: State, signers: set<Address>, call: Call)
    requires Sound(s) && Permitted(s, signers, call) && (call.Withdraw? ==> call.amount > 0) && Exec(s, signers, call).Ok?
    ensures var next := Exec(s, signers, call).value;
            && Sound(next) && 0 <= Liabilities(next) < Liabilities(s) && Held(next) >= 0 && Slack(next) == Slack(s)
  {
    var next := Exec(s, signers, call).value;
    StepKeepsSound(s, Invoke(signers, call));
    CallSlack(s, signers, call);
    ObligationWithinLiabilities(next, "");
    match call
    case Withdraw(user, amount) =>
    case ClaimYield(user) =>
    case CollectFees(admin) =>
  }

  lemma {:induction false} ShortfallStrandsSomeone(s: State) returns (events: seq<Event>, signers: set<Address>, call: Call)
    requires Sound(s) && Held(s) >= 0 && Slack(s) < 0
    ensures OnlyPayouts(events)
    ensures Permitted(Run(s, events), signers, call) && Exec(Run(s, events), signers, call).Err?
    decreases Liabilities(s)
  {
    signers, call := SomeoneIsOwed(s);
    if Exec(s, signers, call).Err? {
      events := [];
    } else {
      var first := Invoke(signers, call);
      PayoutLowersLiabilities(s, signers, call);
      var rest;
      rest, signers, call := ShortfallStrandsSomeone(Apply(s, first));
      events := [first] + rest;
      assert events[1..] == rest;
    }
  }

  // ---- Per user ---------------------------------------------------------------------

  /** A party's tokens plus what the contract owes them. */
  function Worth(s: State, who: Address): int {
    BalanceOf(s.balances, who) + RecordOf(s, who).principal + RecordOf(s, who).yieldShares
      + (if who == s.admin then s.platformFees else 0)
  }

  /** No call makes anyone richer or poorer, except that an accrual enriches its user. */
  lemma CallsOnlyMoveOnesOwnMoney(s: State, signers: set<Address>, call: Call, who: Address)
    requires who != CONTRACT
    ensures Worth(Apply(s, Invoke(signers, call)), who) ==
              Worth(s, who) + (if call.AccrueYield? && call.user == who then Promised(s, Invoke(signers, call)) else 0)
  {}

  /** What one event adds to a party's worth: accruals to them, and their transfers with others. */
  function Gained(s: State, e: Event, who: Address): int {
    match e
    case Invoke(_, call) => if call.AccrueYield? && call.user == who then Promised(s, e) else 0
    case OutsideTransfer(from, to, amount) =>
      if from == CONTRACT || Transfer(s.balances, from, to, amount).None? then 0
      else (if to == who then amount else 0) - (if from == who then amount else 0)
    case AccumulateFees(_) => if who == s.admin then Promised(s, e) else 0
  }

  function TotalGained(s: State, events: seq<Event>, who: Address): int
    decreases |events|
  {
    if events == [] then 0 else Gained(s, events[0], who) + TotalGained(Apply(s, events[0]), events[1..], who)
  }

  lemma StepKeepsWorth(s: State, e: Event, who: Address)
    requires who != CONTRACT
    ensures Worth(Apply(s, e), who) == Worth(s, who) + Gained(s, e, who)
  {
    if e.Invoke? {
      CallsOnlyMoveOnesOwnMoney(s, e.signers, e.call, who);
      hide Exec;
    }
  }

  /** Over any run tokens plus claims of a party change only by accruals to them and by their own
      dealings outside: no deposit, withdrawal, claim or collection, of theirs or of others, does. */
  lemma {:induction false} RunKeepsWorth(s: State, events: seq<Event>, who: Address)
    requires who != CONTRACT
    ensures Worth(Run(s, events), who) == Worth(s, who) + TotalGained(s, events, who)
    decreases |events|
  {
    hide Worth, Gained, Apply;
    if events != [] {
      StepKeepsWorth(s, events[0], who);
      RunKeepsWorth(Apply(s, events[0]), events[1..], who);
    }
  }

  /** The event is not a call signed by `who`, nor an accrual to them. */
  predicate Foreign(e: Event, who: Address) {
    e.Invoke? ==> who !in e.signers && !(e.call.AccrueYield? && e.call.user == who)
  }

  /** Over any run of others' calls a user's record stays as it is. */
  lemma {:induction false} RecordsAreIsolated(s: State, events: seq<Event>, who: Address)
    requires forall i :: 0 <= i < |events| ==> Foreign(events[i], who)
    ensures who in Run(s, events).records <==> who in s.records
    ensures RecordOf(Run(s, events), who) == RecordOf(s, who)
    decreases |events|
  {
    if events != [] { RecordsAreIsolated(Apply(s, events[0]), events[1..], who); }
  }

  // ---- Who may do what --------------------------------------------------------------

  predicate NotSignedBy(e: Event, who: Address) { e.Invoke? ==> who !in e.signers }

  predicate NeverSigns(events: seq<Event>, who: Address) {
    forall i :: 0 <= i < |events| ==> NotSignedBy(events[i], who)
  }

  function Caller(call: Call): Address {
    match call
    case Deposit(user, _) => user
    case Withdraw(user, _) => user
    case ClaimYield(user) => user
    case AccrueYield(admin, _, _) => admin
    case CollectFees(admin) => admin
    case Pause(admin, _) => admin
  }

  predicate ForAdmin(call: Call) { call.AccrueYield? || call.CollectFees? || call.Pause? }

  /** What a call needs besides its caller's signature. */
  ghost predicate Allowed(s: State, call: Call) {
    && (ForAdmin(call) ==> Caller(call) == s.admin)
    && match call
       case Deposit(user, amount) =>
         && !s.paused && MIN_DEPOSIT_AMOUNT <= amount <= BalanceOf(s.balances, user)
         && RecordOf(s, user).principal + amount <= I128_MAX
       case Withdraw(user, amount) => user in s.records && 0 <= amount <= s.records[user].principal && amount <= Held(s)
       case ClaimYield(user) => 0 < RecordOf(s, user).yieldShares <= Held(s)
       case AccrueYield(_, user, yieldAmount) =>
         user in s.records && I128_MIN <= s.records[user].yieldShares + yieldAmount <= I128_MAX
       case CollectFees(_) => 0 < s.platformFees <= Held(s)
       case Pause(_, _) => true
  }

  /** A call succeeds exactly when its caller signed and it is allowed: only the admin accrues, collects
      and pauses, and a pause stops deposits alone. */
  lemma CallSucceedsExactlyWhenAllowed(s: State, signers: set<Address>, call: Call)
    ensures Exec(s, signers, call).Ok? <==> Signed(signers, Caller(call)) && Allowed(s, call)
  {}

  /** What a refusal tells the caller about the state. */
  ghost predicate Holds(s: State, signers: set<Address>, call: Call, e: Failure) {
    match e
    case AuthFailed => !Signed(signers, Caller(call))
    case ProtocolPaused => call.Deposit? && s.paused
    case InvalidAmount => call.Deposit? && call.amount <= 0
    case AmountTooSmall => call.Deposit? && 0 < call.amount < MIN_DEPOSIT_AMOUNT
    case Unauthorized => ForAdmin(call) && Caller(call) != s.admin
    case UserNotFound => (call.Withdraw? || call.AccrueYield?) && call.user !in s.records
    case InsufficientBalance => call.Withdraw? && RecordOf(s, call.user).principal < call.amount
    case NoYieldToClaim => call.ClaimYield? && RecordOf(s, call.user).yieldShares <= 0
    case NoFeesToCollect => call.CollectFees? && s.platformFees == 0
    case Overflow => (
      match call
      case Deposit(user, amount) => RecordOf(s, user).principal + amount > I128_MAX
      case Withdraw(user, amount) => RecordOf(s, user).principal - amount > I128_MAX
      case AccrueYield(_, user, yieldAmount) => CheckedI128(RecordOf(s, user).yieldShares + yieldAmount).None?
      case _ => false
    )
    case TransferFailed =>
      match call
      case Deposit(user, amount) => BalanceOf(s.balances, user) < amount
      case Withdraw(_, amount) => amount < 0 || Held(s) < amount
      case ClaimYield(user) => Held(s) < RecordOf(s, user).yieldShares
      case CollectFees(_) => s.platformFees < 0 || Held(s) < s.platformFees
      case _ => false
  }

  /** A refusal names a condition that holds. */
  lemma RefusalsHaveReasons(s: State, signers: set<Address>, call: Call)
    ensures Exec(s, signers, call).Err? ==> Holds(s, signers, call, Exec(s, signers, call).error)
  {}

  // ---- Records as histories ---------------------------------------------------------

  /** What one event adds to the principal of `who`: deposits, less withdrawals. */
  function PrincipalMoved(s: State, e: Event, who: Address): int {
    if !(e.Invoke? && Exec(s, e.signers, e.call).Ok?) then 0
    else match e.call
      case Deposit(user, amount) => if user == who then amount else 0
      case Withdraw(user, amount) => if user == who then -amount else 0
      case _ => 0
  }

  /** What one event adds to their yield: accruals, less everything at a claim. */
  function YieldMoved(s: State, e: Event, who: Address): int {
    if !(e.Invoke? && Exec(s, e.signers, e.call).Ok?) then 0
    else match e.call
      case AccrueYield(_, user, yieldAmount) => if user == who then yieldAmount else 0
      case ClaimYield(user) => if user == who then -RecordOf(s, who).yieldShares else 0
      case _ => 0
  }

  /** What one event adds to the fee pool: fees taken in, less everything at a collection. */
  function FeesMoved(s: State, e: Event): int {
    match e
    case Invoke(signers, CollectFees(_)) => if Exec(s, signers, e.call).Ok? then -s.platformFees else 0
    case AccumulateFees(_) => Promised(s, e)
    case _ => 0
  }

  datatype Moves = Moves(principal: int, yieldShares: int, fees: int)

  function TotalMoved(s: State, events: seq<Event>, who: Address): Moves
    decreases |events|
  {
    if events == [] then Moves(0, 0, 0)
    else
      var e, rest := events[0], TotalMoved(Apply(s, events[0]), events[1..], who);
      Moves(PrincipalMoved(s, e, who) + rest.principal, YieldMoved(s, e, who) + rest.yieldShares, FeesMoved(s, e) + rest.fees)
  }

  lemma StepMoves(s: State, e: Event, who: Address)
    ensures var next := Apply(s, e);
            && RecordOf(next, who).principal == RecordOf(s, who).principal + PrincipalMoved(s, e, who)
            && RecordOf(next, who).yieldShares == RecordOf(s, who).yieldShares + YieldMoved(s, e, who)
            && next.platformFees == s.platformFees + FeesMoved(s, e)
            && next.admin == s.admin
  {
    if e.Invoke? && Exec(s, e.signers, e.call).Ok? { CallMoves(s, e.signers, e.call, who); }
    hide Exec;
  }

  lemma CallMoves(s: State, signers: set<Address>, call: Call, who: Address)
    requires Exec(s, signers, call).Ok?
    ensures var next, e := Exec(s, signers, call).value, Invoke(signers, call);
            && RecordOf(next, who).principal == RecordOf(s, who).principal + PrincipalMoved(s, e, who)
            && RecordOf(next, who).yieldShares == RecordOf(s, who).yieldShares + YieldMoved(s, e, who)
            && next.platformFees == s.platformFees + FeesMoved(s, e)
            && next.admin == s.admin
  {
    hide Transfer;
  }

  /** Over any run a principal is what was deposited less what was withdrawn, the yield what was accrued
      less what was claimed, and the fee pool what was taken in less what was collected: none pays for
      another. */
  lemma {:induction false} RecordsAreTheirHistories(s: State, events: seq<Event>, who: Address)
    ensures var end, moved := Run(s, events), TotalMoved(s, events, who);
            && RecordOf(end, who).principal == RecordOf(s, who).principal + moved.principal
            && RecordOf(end, who).yieldShares == RecordOf(s, who).yieldShares + moved.yieldShares
            && end.platformFees == s.platformFees + moved.fees
            && end.admin == s.admin
    decreases |events|
  {
    hide Apply, RecordOf, PrincipalMoved, YieldMoved, FeesMoved;
    if events != [] {
      StepMoves(s, events[0], who);
      RecordsAreTheirHistories(Apply(s, events[0]), events[1..], who);
    }
  }

  /** What `who` received from others in one event less what they sent, and fees taken in for them. */
  function Dealt(s: State, e: Event, who: Address): int {
    if e.Invoke? then 0 else Gained(s, e, who)
  }

  function TotalDealt(s: State, events: seq<Event>, who: Address): int
    decreases |events|
  {
    if events == [] then 0 else Dealt(s, events[0], who) + TotalDealt(Apply(s, events[0]), events[1..], who)
  }

  lemma OnlyTheAdminAccrues(s: State, e: Event, who: Address)
    requires NotSignedBy(e, s.admin)
    ensures Gained(s, e, who) == Dealt(s, e, who)
    ensures Apply(s, e).admin == s.admin && Apply(s, e).paused == s.paused
    ensures e.Invoke? ==> Apply(s, e).platformFees == s.platformFees
  {}

  /** Over any run that the admin does not sign, no call makes anyone richer, whoever signs what; the
      admin stays the same, and deposits are neither paused nor resumed. */
  lemma {:induction false} NobodyGainsWithoutTheAdmin(s: State, events: seq<Event>, who: Address)
    requires NeverSigns(events, s.admin) && who != CONTRACT
    ensures TotalGained(s, events, who) == TotalDealt(s, events, who)
    ensures Worth(Run(s, events), who) == Worth(s, who) + TotalDealt(s, events, who)
    ensures Run(s, events).admin == s.admin && Run(s, events).paused == s.paused
    decreases |events|
  {
    hide Worth, Gained, Dealt, Apply, NotSignedBy;
    RunKeepsWorth(s, events, who);
    if events != [] {
      OnlyTheAdminAccrues(s, events[0], who);
      NobodyGainsWithoutTheAdmin(Apply(s, events[0]), events[1..], who);
    }
  }

  /** Whatever happens, tokens only move: the supply over all accounts stays what it was. */
  lemma StepConservesSupply(s: State, e: Event)
    ensures Sum(Apply(s, e).balances) == Sum(s.balances)
  {
    hide Transfer;
    match e
    case OutsideTransfer(from, to, amount) => if Transfer(s.balances, from, to, amount).Some? { TransferConserves(s.balances, from, to, amount); }
    case AccumulateFees(_) =>
    case Invoke(signers, call) =>
      if Exec(s, signers, call).Ok? {
        match call
        case Deposit(user, amount) => TransferConserves(s.balances, user, CONTRACT, amount);
        case Withdraw(user, amount) => TransferConserves(s.balances, CONTRACT, user, amount);
        case ClaimYield(user) => TransferConserves(s.balances, CONTRACT, user, RecordOf(s, user).yieldShares);
        case CollectFees(admin) => TransferConserves(s.balances, CONTRACT, admin, s.platformFees);
        case AccrueYield(_, _, _) =>
        case Pause(_, _) =>
      }
  }

  lemma {:induction false} RunConservesSupply(s: State, events: seq<Event>)
    ensures Sum(Run(s, events).balances) == Sum(s.balances)
    decreases |events|
  {
    if events != [] {
      StepConservesSupply(s, events[0]);
      RunConservesSupply(Apply(s, events[0]), events[1..]);
    }
  }
}

/** The contract object: records and balances are updated in place, and an aborted call is rolled back. */
module SavingsContract {
  import opened Outcomes
  import opened Token
  import opened SavingsMachine

  class Contract {
    var balances: Balances
    var admin: Address
    var paused: bool
    var platformFees: I128
    var records: map<Address, UserSavings>

    ghost function Model(): State
      reads this
    {
      State(balances, admin, paused, platformFees, records)
    }

    /** The outcome and the new state are those of `Exec`, and a failure leaves the old state. */
    ghost predicate Did(before: State, signers: set<Address>, call: Call, r: Result<(), Failure>)
      reads this
    {
      match Exec(before, signers, call)
      case Ok(next) => r.Ok? && Model() == next
      case Err(e) => r == Err(e) && Model() == before
    }

    constructor (admin: Address, balances: Balances)
      ensures Model() == State(balances, admin, false, 0, map[])
    {
      this.balances, this.admin := balances, admin;
      paused, platformFees, records := false, 0, map[];
    }

    method TokenTransfer(from: Address, to: Address, amount: int) returns (ok: bool)
      modifies `balances
      ensures ok == Transfer(old(balances), from, to, amount).Some?
      ensures balances == if ok then Transfer(old(balances), from, to, amount).value else old(balances)
    {
      ok := amount >= 0 && BalanceOf(balances, from) >= amount;
      if ok {
        balances := balances[from := BalanceOf(balances, from) - amount];
        balances := balances[to := BalanceOf(balances, to) + amount];
      }
    }

    method GetUserSavings(user: Address) returns (record: UserSavings)
      ensures record == RecordOf(Model(), user)
    {
      record := UserSavings(0, 0);
      if user in records { record := records[user]; }
    }

    method AccumulatePlatformFees(delta: I128) returns (r: Option<I128>)
      modifies `platformFees
      ensures Model() == Apply(old(Model()), AccumulateFees(delta))
      ensures r == CheckedI128(old(platformFees) + delta)
    {
      r := CheckedI128(platformFees + delta);
      if r.Some? { platformFees := r.value; }
    }

    method DepositSavings(signers: set<Address>, user: Address, amount: I128) returns (r: Result<(), Failure>)
      modifies this
      ensures Did(old(Model()), signers, Deposit(user, amount), r)
    {
      if paused { return Err(ProtocolPaused); }
      if !Signed(signers, user) { return Err(AuthFailed); }
      if amount <= 0 { return Err(InvalidAmount); }
      if amount < MIN_DEPOSIT_AMOUNT { return Err(AmountTooSmall); }
      var before := balances;
      var ok := TokenTransfer(user, CONTRACT, amount);
      if !ok { return Err(TransferFailed); }
      var record := GetUserSavings(user);
      var principal := CheckedI128(record.principal + amount);
      if principal.None? {
        balances := before;
        return Err(Overflow);
      }
      records := records[user := record.(principal := principal.value)];
      r := Ok(());
    }

    method ClaimYield(signers: set<Address>, user: Address) returns (r: Result<(), Failure>)
      modifies this
      ensures Did(old(Model()), signers, Call.ClaimYield(user), r)
    {
      if !Signed(signers, user) { return Err(AuthFailed); }
      var record := GetUserSavings(user);
      if record.yieldShares <= 0 { return Err(NoYieldToClaim); }
      var yieldToTransfer := record.yieldShares;
      var before := records;
      records := records[user := record.(yieldShares := 0)];
      var ok := TokenTransfer(CONTRACT, user, yieldToTransfer);
      if !ok {
        records := before;
        return Err(TransferFailed);
      }
      r := Ok(());
    }

    method WithdrawSavings(signers: set<Address>, user: Address, amount: I128) returns (r: Result<(), Failure>)
      modifies this
      ensures Did(old(Model()), signers, Withdraw(user, amount), r)
    {
      if !Signed(signers, user) { return Err(AuthFailed); }
      if user !in records { return Err(UserNotFound); }
      var record := GetUserSavings(user);
      if record.principal < amount { return Err(InsufficientBalance); }
      var principal := CheckedI128(record.principal - amount);
      if principal.None? { return Err(Overflow); }
      var before := records;
      records := records[user := record.(principal := principal.value)];
      var ok := TokenTransfer(CONTRACT, user, amount);
      if !ok {
        records := before;
        return Err(TransferFailed);
      }
      r := Ok(());
    }

    method AccrueYield(signers: set<Address>, caller: Address, user: Address, yieldAmount: I128) returns (r: Result<(), Failure>)
      modifies this
      ensures Did(old(Model()), signers, Call.AccrueYield(caller, user, yieldAmount), r)
    {
      if !Signed(signers, caller) { return Err(AuthFailed); }
      if caller != admin { return Err(Unauthorized); }
      if user !in records { return Err(UserNotFound); }
      var savings := GetUserSavings(user);
      var shares := CheckedI128(savings.yieldShares + yieldAmount);
      if shares.None? { return Err(Overflow); }
      records := records[user := savings.(yieldShares := shares.value)];
      r := Ok(());
    }

    method CollectFees(signers: set<Address>, caller: Address) returns (r: Result<(), Failure>)
      modifies this
      ensures Did(old(Model()), signers, Call.CollectFees(caller), r)
    {
      if !Signed(signers, caller) { return Err(AuthFailed); }
      if caller != admin { return Err(Unauthorized); }
      var fees := platformFees;
      if fees == 0 { return Err(NoFeesToCollect); }
      platformFees := 0;
      var ok := TokenTransfer(CONTRACT, caller, fees);
      if !ok {
        platformFees := fees;
        return Err(TransferFailed);
      }
      r := Ok(());
    }

    method PauseContract(signers: set<Address>, caller: Address, status: bool) returns (r: Result<(), Failure>)
      modifies this
      ensures Did(old(Model()), signers, Pause(caller, status), r)
    {
      if !Signed(signers, caller) { return Err(AuthFailed); }
      if caller != admin { return Err(Unauthorized); }
      paused := status;
      r := Ok(());
    }
  }
}
