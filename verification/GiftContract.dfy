/** The time-locked gift escrow as a state machine over contract storage and the token ledger. */
module GiftMachine {
  import opened Numbers
  import opened Outcomes
  import opened Token

  const MAX_LOCK_DURATION_SECONDS := 157_680_000
  const MIN_DEPOSIT_AMOUNT := 10_000_000
  const AVG_LEDGER_TIME_SECONDS := 5
  const TTL_SAFETY_MARGIN_LEDGERS := 100

  datatype Gift = Gift(sender: Address, recipient: Address, amount: I128, unlockTime: U64, isClaimed: bool)

  /** Network limits on the lifetime of a persistent entry, in ledgers. */
  datatype Network = Network(minTtl: U32, maxTtl: U32)

  datatype State = State(
    network: Network, timestamp: U64, ledger: nat, balances: Balances,
    admin: Option<Address>, token: Option<Address>, paused: bool, counter: U64,
    gifts: map<U64, Gift>, liveUntil: map<U64, int>)

  datatype Failure =
    | AuthFailed | NotInitialized | TransferFailed | CounterOverflow | Archived
    | AlreadyInitialized | ProtocolPaused | InvalidAmount | LockTimeTooFarInFuture | AmountTooSmall
    | GiftNotFound | Unauthorized | AlreadyClaimed | TimeLockActive

  datatype Call =
    | Initialize(admin: Address, tokenAddress: Address)
    | CreateGift(sender: Address, recipient: Address, amount: I128, unlockTime: U64)
    | CancelGift(sender: Address, id: U64)
    | ClaimGift(recipient: Address, id: U64)
    | UpdateRecipient(sender: Address, id: U64, newRecipient: Address)
    | PauseContract(admin: Address, status: bool)

  /** A call, or something the network does around the contract. */
  datatype Event =
    | Invoke(signers: set<Address>, call: Call)
    | CloseLedgers(count: nat, seconds: nat)
    | OutsideTransfer(from: Address, to: Address, amount: int)
    | Restore(id: U64)

  // ---- Record lifetime (storage.rs) -------------------------------------------------

  /** `u64::div_ceil`. */
  function DivCeil(a: int, b: int): int
    requires b > 0
  {
    if a % b > 0 then a / b + 1 else a / b
  }

  /** `u32::try_from(x).unwrap_or(u32::MAX)`. */
  function ToU32(x: U64): U32 { if x <= U32_MAX then x else U32_MAX }

  function SaturatingAddU32(a: U32, b: U32): U32 { Min(a + b, U32_MAX) }

  function ExtendTo(now: U64, unlockTime: U64, maxTtl: U32): U32 {
    var secondsUntilUnlock := Max(0, unlockTime - now);
    var ledgersUntilUnlock := DivCeil(secondsUntilUnlock, AVG_LEDGER_TIME_SECONDS);
    Min(SaturatingAddU32(ToU32(ledgersUntilUnlock), TTL_SAFETY_MARGIN_LEDGERS), maxTtl)
  }

  /** `extend_ttl` with equal threshold and target: lengthens a lifetime that falls short. */
  function Extended(liveUntil: int, ledger: nat, extendTo: U32): int {
    if liveUntil - ledger < extendTo then ledger + extendTo else liveUntil
  }

  predicate Live(s: State, id: U64) {
    id in s.liveUntil && s.ledger <= s.liveUntil[id]
  }

  /** `set_gift`: a new entry starts with the network's minimum lifetime, then is bumped. */
  function SetGift(s: State, id: U64, gift: Gift): State {
    var current := if id in s.liveUntil then s.liveUntil[id] else s.ledger + s.network.minTtl - 1;
    var until := Extended(current, s.ledger, ExtendTo(s.timestamp, gift.unlockTime, s.network.maxTtl));
    s.(gifts := s.gifts[id := gift], liveUntil := s.liveUntil[id := until])
  }

  function RemoveGift(s: State, id: U64): State {
    s.(gifts := s.gifts - {id}, liveUntil := s.liveUntil - {id})
  }

  /** Reading a record: absent, archived, or its contents. */
  function GetGift(s: State, id: U64): Result<Gift, Failure> {
    if id !in s.gifts then Err(GiftNotFound)
    else if !Live(s, id) then Err(Archived)
    else Ok(s.gifts[id])
  }

  // ---- Entry points (contract.rs) ---------------------------------------------------

  function Pay(s: State, from: Address, to: Address, amount: int): Result<State, Failure> {
    if s.token.None? then Err(NotInitialized)
    else match Transfer(s.balances, from, to, amount)
      case None => Err(TransferFailed)
      case Some(b) => Ok(s.(balances := b))
  }

  function Create(s: State, signers: set<Address>, sender: Address, recipient: Address, amount: I128, unlockTime: U64): Result<State, Failure> {
    if s.paused then Err(ProtocolPaused)
    else if amount <= 0 then Err(InvalidAmount)
    else if unlockTime > Min(s.timestamp + MAX_LOCK_DURATION_SECONDS, U64_MAX) then Err(LockTimeTooFarInFuture)
    else if !Signed(signers, sender) then Err(AuthFailed)
    else if amount < MIN_DEPOSIT_AMOUNT then Err(AmountTooSmall)
    else match Pay(s, sender, CONTRACT, amount)
      case Err(e) => Err(e)
      case Ok(paid) =>
        if s.counter == U64_MAX then Err(CounterOverflow)
        else Ok(SetGift(paid.(counter := s.counter + 1), s.counter + 1, Gift(sender, recipient, amount, unlockTime, false)))
  }

  function Cancel(s: State, signers: set<Address>, sender: Address, id: U64): Result<State, Failure> {
    if !Signed(signers, sender) then Err(AuthFailed)
    else match GetGift(s, id)
      case Err(e) => Err(e)
      case Ok(gift) =>
        if sender != gift.sender then Err(Unauthorized)
        else if gift.isClaimed then Err(AlreadyClaimed)
        else match Pay(s, CONTRACT, sender, gift.amount)
          case Err(e) => Err(e)
          case Ok(paid) => Ok(RemoveGift(paid, id))
  }

  function Claim(s: State, signers: set<Address>, recipient: Address, id: U64): Result<State, Failure> {
    if !Signed(signers, recipient) then Err(AuthFailed)
    else match GetGift(s, id)
      case Err(e) => Err(e)
      case Ok(gift) =>
        if gift.recipient != recipient then Err(Unauthorized)
        else if s.timestamp < gift.unlockTime then Err(TimeLockActive)
        else if gift.isClaimed then Err(AlreadyClaimed)
        else Pay(SetGift(s, id, gift.(isClaimed := true)), CONTRACT, recipient, gift.amount)
  }

  function Redirect(s: State, signers: set<Address>, sender: Address, id: U64, newRecipient: Address): Result<State, Failure> {
    if !Signed(signers, sender) then Err(AuthFailed)
    else match GetGift(s, id)
      case Err(e) => Err(e)
      case Ok(gift) =>
        if gift.sender != sender then Err(Unauthorized)
        else if gift.isClaimed then Err(AlreadyClaimed)
        else Ok(SetGift(s, id, gift.(recipient := newRecipient)))
  }

  function Exec(s: State, signers: set<Address>, call: Call): Result<State, Failure> {
    match call
    case Initialize(admin, tokenAddress) =>
      if !Signed(signers, admin) then Err(AuthFailed)
      else if s.admin.Some? then Err(AlreadyInitialized)
      else Ok(s.(admin := Some(admin), token := Some(tokenAddress)))
    case CreateGift(sender, recipient, amount, unlockTime) => Create(s, signers, sender, recipient, amount, unlockTime)
    case CancelGift(sender, id) => Cancel(s, signers, sender, id)
    case ClaimGift(recipient, id) => Claim(s, signers, recipient, id)
    case UpdateRecipient(sender, id, newRecipient) => Redirect(s, signers, sender, id, newRecipient)
    case PauseContract(admin, status) =>
      if !Signed(signers, admin) then Err(AuthFailed)
      else if s.admin.None? then Err(NotInitialized)
      else if admin != s.admin.value then Err(Unauthorized)
      else Ok(s.(paused := status))
  }

  /** A failing call changes nothing. Tokens elsewhere move freely, and anyone may pay for
      bringing an archived record back. */
  function Apply(s: State, e: Event): State {
    match e
    case Invoke(signers, call) => (
      match Exec(s, signers, call)
      case Ok(next) => next
      case Err(_) => s
    )
    case CloseLedgers(count, seconds) =>
      if s.timestamp + seconds > U64_MAX then s
      else s.(ledger := s.ledger + count, timestamp := s.timestamp + seconds)
    case OutsideTransfer(from, to, amount) =>
      if from == CONTRACT || Transfer(s.balances, from, to, amount).None? then s
      else s.(balances := Transfer(s.balances, from, to, amount).value)
    case Restore(id) =>
      if id in s.gifts && !Live(s, id) then s.(liveUntil := s.liveUntil[id := s.ledger + Max(s.network.minTtl, 1) - 1])
      else s
  }

  function Run(s: State, events: seq<Event>): State
    decreases |events|
  {
    if events == [] then s else Run(Apply(s, events[0]), events[1..])
  }

  predicate JustDeployed(s: State) {
    && s.admin == None && s.token == None && !s.paused && s.counter == 0
    && s.gifts == map[] && s.liveUntil == map[] && BalanceOf(s.balances, CONTRACT) >= 0
  }
}

/** What every run of the gift contract keeps. */
module GiftProofs {
  import opened Numbers
  import opened Outcomes
  import opened Token
  import opened MapSums
  import opened GiftMachine

  ghost function Unclaimed(gifts: map<U64, Gift>): map<U64, int> {
    map id | id in gifts && !gifts[id].isClaimed :: gifts[id].amount
  }

  /** The sum of the stored unclaimed amounts. */
  ghost function Locked(s: State): int { Sum(Unclaimed(s.gifts)) }

  ghost function Held(s: State): int { BalanceOf(s.balances, CONTRACT) }

  /** Stored records are issued, above the minimum, within the lock cap and accounted for. */
  ghost predicate Records(s: State) {
    && (forall id :: id in s.gifts ==> 1 <= id <= s.counter && GoodTerms(s, s.gifts[id]))
    && s.gifts.Keys == s.liveUntil.Keys
    && (s.gifts != map[] ==> s.token.Some?)
  }

  ghost predicate GoodTerms(s: State, gift: Gift) {
    gift.amount >= MIN_DEPOSIT_AMOUNT && gift.unlockTime <= s.timestamp + MAX_LOCK_DURATION_SECONDS
  }

  ghost predicate Inv(s: State) {
    Records(s) && Held(s) >= Locked(s)
  }

  /** Amounts moved by one event, or by a run. */
  datatype Totals = Totals(created: int, claimed: int, refunded: int, donated: int)

  function Moved(s: State, e: Event): Totals {
    match e
    case Invoke(signers, call) =>
      if Exec(s, signers, call).Err? then Totals(0, 0, 0, 0)
      else (
        match call
        case CreateGift(_, _, amount, _) => Totals(amount, 0, 0, 0)
        case ClaimGift(_, id) => Totals(0, AmountOf(s, id), 0, 0)
        case CancelGift(_, id) => Totals(0, 0, AmountOf(s, id), 0)
        case _ => Totals(0, 0, 0, 0)
      )
    case OutsideTransfer(from, to, amount) =>
      if to == CONTRACT && from != CONTRACT && Transfer(s.balances, from, to, amount).Some? then Totals(0, 0, 0, amount) else Totals(0, 0, 0, 0)
    case _ => Totals(0, 0, 0, 0)
  }

  function AmountOf(s: State, id: U64): int {
    if id in s.gifts then s.gifts[id].amount else 0
  }

  function Tally(s: State, events: seq<Event>): Totals
    decreases |events|
  {
    if events == [] then Totals(0, 0, 0, 0)
    else
      var first, rest := Moved(s, events[0]), Tally(Apply(s, events[0]), events[1..]);
      Totals(first.created + rest.created, first.claimed + rest.claimed, first.refunded + rest.refunded, first.donated + rest.donated)
  }

  lemma LockedSet(gifts: map<U64, Gift>, id: U64, gift: Gift)
    ensures Sum(Unclaimed(gifts[id := gift])) ==
              Sum(Unclaimed(gifts)) - (if id in gifts && !gifts[id].isClaimed then gifts[id].amount else 0)
                                    + (if gift.isClaimed then 0 else gift.amount)
  {
    var before, after := Unclaimed(gifts), Unclaimed(gifts[id := gift]);
    if gift.isClaimed {
      assert after == before - {id};
      if id in before { SumWithout(before, id); } else { assert before - {id} == before; }
    } else {
      assert after == before[id := gift.amount];
      SumSet(before, id, gift.amount);
    }
  }

  lemma LockedRemove(gifts: map<U64, Gift>, id: U64)
    requires id in gifts && !gifts[id].isClaimed
    ensures Sum(Unclaimed(gifts - {id})) == Sum(Unclaimed(gifts)) - gifts[id].amount
  {
    assert Unclaimed(gifts - {id}) == Unclaimed(gifts) - {id};
    SumWithout(Unclaimed(gifts), id);
  }

  /** From `s` to `next` the locked sum and the balance move by exactly `t`. */
  ghost predicate Accounted(s: State, next: State, t: Totals) {
    && Locked(next) == Locked(s) + t.created - t.claimed - t.refunded
    && Held(next) == Held(s) + t.created - t.claimed - t.refunded + t.donated
    && t.donated >= 0
  }

  lemma PayMoves(s: State, from: Address, to: Address, amount: int)
    ensures Pay(s, from, to, amount).Ok? ==>
              var paid := Pay(s, from, to, amount).value;
              && paid == s.(balances := paid.balances)
              && Held(paid) == Held(s) - (if from == CONTRACT then amount else 0) + (if to == CONTRACT then amount else 0)
  {}

  lemma SetGiftKeepsRecords(s: State, id: U64, gift: Gift)
    requires Records(s) && 1 <= id <= s.counter && GoodTerms(s, gift) && s.token.Some?
    ensures Records(SetGift(s, id, gift))
  {}

  lemma CreateKeeps(s: State, signers: set<Address>, sender: Address, recipient: Address, amount: I128, unlockTime: U64)
    requires Inv(s) && Create(s, signers, sender, recipient, amount, unlockTime).Ok?
    ensures var next := Create(s, signers, sender, recipient, amount, unlockTime).value;
            Accounted(s, next, Totals(amount, 0, 0, 0)) && Inv(next)
  {
    hide Create, Progress;
    CreateEffects(s, signers, sender, recipient, amount, unlockTime);
    LockedSet(s.gifts, s.counter + 1, Gift(sender, recipient, amount, unlockTime, false));
  }

  lemma CreateEffects(s: State, signers: set<Address>, sender: Address, recipient: Address, amount: I128, unlockTime: U64)
    requires Create(s, signers, sender, recipient, amount, unlockTime).Ok?
    ensures var next := Create(s, signers, sender, recipient, amount, unlockTime).value;
            && next.counter == s.counter + 1 && next.timestamp == s.timestamp && next.token == s.token && s.token.Some?
            && next.gifts == s.gifts[next.counter := Gift(sender, recipient, amount, unlockTime, false)]
            && next.liveUntil.Keys == s.liveUntil.Keys + {next.counter}
            && GoodTerms(next, next.gifts[next.counter])
            && Held(next) == Held(s) + amount
  {
    hide ExtendTo, Extended;
    PayMoves(s, sender, CONTRACT, amount);
  }

  lemma CancelKeeps(s: State, signers: set<Address>, sender: Address, id: U64)
    requires Inv(s) && Cancel(s, signers, sender, id).Ok?
    ensures var next := Cancel(s, signers, sender, id).value;
            Accounted(s, next, Totals(0, 0, AmountOf(s, id), 0)) && Inv(next)
  {
    PayMoves(s, CONTRACT, sender, s.gifts[id].amount);
    LockedRemove(s.gifts, id);
  }

  lemma ClaimKeeps(s: State, signers: set<Address>, recipient: Address, id: U64)
    requires Inv(s) && Claim(s, signers, recipient, id).Ok?
    ensures var next := Claim(s, signers, recipient, id).value;
            Accounted(s, next, Totals(0, AmountOf(s, id), 0, 0)) && Inv(next)
  {
    var gift := s.gifts[id].(isClaimed := true);
    PayMoves(SetGift(s, id, gift), CONTRACT, recipient, gift.amount);
    LockedSet(s.gifts, id, gift);
    SetGiftKeepsRecords(s, id, gift);
  }

  lemma RedirectKeeps(s: State, signers: set<Address>, sender: Address, id: U64, newRecipient: Address)
    requires Inv(s) && Redirect(s, signers, sender, id, newRecipient).Ok?
    ensures var next := Redirect(s, signers, sender, id, newRecipient).value;
            Accounted(s, next, Totals(0, 0, 0, 0)) && Inv(next)
  {
    LockedSet(s.gifts, id, s.gifts[id].(recipient := newRecipient));
    SetGiftKeepsRecords(s, id, s.gifts[id].(recipient := newRecipient));
  }

  lemma CallKeeps(s: State, signers: set<Address>, call: Call)
    requires Inv(s) && Exec(s, signers, call).Ok?
    ensures Accounted(s, Exec(s, signers, call).value, Moved(s, Invoke(signers, call)))
    ensures Inv(Exec(s, signers, call).value)
  {
    hide Create, Cancel, Claim, Redirect;
    match call
    case CreateGift(sender, recipient, amount, unlockTime) => CreateKeeps(s, signers, sender, recipient, amount, unlockTime);
    case ClaimGift(recipient, id) => ClaimKeeps(s, signers, recipient, id);
    case CancelGift(sender, id) => CancelKeeps(s, signers, sender, id);
    case UpdateRecipient(sender, id, newRecipient) => RedirectKeeps(s, signers, sender, id, newRecipient);
    case Initialize(_, _) =>
    case PauseContract(_, _) =>
  }

  /** One event moves the locked sum and the balance by exactly what it reports. */
  lemma StepKeeps(s: State, e: Event)
    requires Inv(s)
    ensures Accounted(s, Apply(s, e), Moved(s, e)) && Inv(Apply(s, e))
  {
    hide Create, Cancel, Claim, Redirect;
    match e
    case Invoke(signers, call) => if Exec(s, signers, call).Ok? { CallKeeps(s, signers, call); }
    case OutsideTransfer(from, to, amount) =>
    case CloseLedgers(_, _) =>
    case Restore(_) =>
  }

  lemma {:induction false} RunKeepsInv(s: State, events: seq<Event>)
    requires Inv(s)
    ensures Inv(Run(s, events))
    decreases |events|
  {
    if events != [] {
      StepKeeps(s, events[0]);
      RunKeepsInv(Apply(s, events[0]), events[1..]);
    }
  }

  // ---- Conservation over whole runs -------------------------------------------------

  lemma {:induction false} RunAccounts(s: State, events: seq<Event>)
    requires Inv(s)
    ensures Accounted(s, Run(s, events), Tally(s, events)) && Inv(Run(s, events))
    decreases |events|
  {
    if events != [] {
      StepKeeps(s, events[0]);
      RunAccounts(Apply(s, events[0]), events[1..]);
    }
  }

  /** Since deployment: everything created is locked, claimed or refunded, and the contract
      holds exactly what is locked plus what was sent to it from outside. */
  lemma EveryTokenAccountedFor(s: State, events: seq<Event>)
    requires JustDeployed(s)
    ensures var end, t := Run(s, events), Tally(s, events);
            && t.created == Locked(end) + t.claimed + t.refunded
            && Held(end) == Locked(end) + t.donated + Held(s)
            && t.donated >= 0
  {
    assert Unclaimed(s.gifts) == map[];
    RunAccounts(s, events);
  }

  /** In a reachable state a claim goes through exactly when the record is live and its terms
      allow it, paused or not; lack of funds is never the reason it fails. */
  lemma ClaimSucceedsExactlyWhenPermitted(s: State, events: seq<Event>, signers: set<Address>, recipient: Address, id: U64)
    requires JustDeployed(s)
    ensures var now := Run(s, events);
            Exec(now, signers, ClaimGift(recipient, id)).Ok? <==>
              && Signed(signers, recipient) && id in now.gifts && Live(now, id)
              && now.gifts[id].recipient == recipient && !now.gifts[id].isClaimed
              && now.timestamp >= now.gifts[id].unlockTime
  {
    EveryTokenAccountedFor(s, events);
    assert Unclaimed(s.gifts) == map[];
    RunKeepsInv(s, events);
    LockedCoversEach(Run(s, events), id);
  }

  lemma CancelSucceedsExactlyWhenPermitted(s: State, events: seq<Event>, signers: set<Address>, sender: Address, id: U64)
    requires JustDeployed(s)
    ensures var now := Run(s, events);
            Exec(now, signers, CancelGift(sender, id)).Ok? <==>
              && Signed(signers, sender) && id in now.gifts && Live(now, id)
              && now.gifts[id].sender == sender && !now.gifts[id].isClaimed
  {
    assert Unclaimed(s.gifts) == map[];
    RunKeepsInv(s, events);
    LockedCoversEach(Run(s, events), id);
  }

  lemma LockedCoversEach(s: State, id: U64)
    requires Inv(s)
    ensures id in s.gifts && !s.gifts[id].isClaimed ==> s.token.Some? && s.gifts[id].amount <= Held(s)
  {
    SumBoundsEntry(Unclaimed(s.gifts), id);
  }

  /** A payout goes to the record's own recipient or, on cancelling, to its sender; nobody
      else's balance moves. */
  lemma PayoutReachesItsOwner(s: State, e: Event, who: Address)
    requires Inv(s) && e.Invoke? && (e.call.ClaimGift? || e.call.CancelGift?) && Exec(s, e.signers, e.call).Ok?
    requires who != CONTRACT
    ensures var gift := s.gifts[e.call.id];
            var payee := if e.call.ClaimGift? then gift.recipient else gift.sender;
            BalanceOf(Apply(s, e).balances, who) == BalanceOf(s.balances, who) + (if who == payee then gift.amount else 0)
  {}

  lemma CreationChargesSender(s: State, e: Event, who: Address)
    requires e.Invoke? && e.call.CreateGift? && Exec(s, e.signers, e.call).Ok? && who != CONTRACT
    ensures BalanceOf(Apply(s, e).balances, who) == BalanceOf(s.balances, who) - (if who == e.call.sender then e.call.amount else 0)
  {}

  /** Whatever happens, tokens only move: the supply over all accounts stays what it was. */
  lemma StepConservesSupply(s: State, e: Event)
    ensures Sum(Apply(s, e).balances) == Sum(s.balances)
  {
    match e
    case Invoke(signers, call) => if Exec(s, signers, call).Ok? { CallConservesSupply(s, signers, call); }
    case OutsideTransfer(from, to, amount) => if Transfer(s.balances, from, to, amount).Some? { TransferConserves(s.balances, from, to, amount); }
    case CloseLedgers(_, _) =>
    case Restore(_) =>
  }

  lemma CallConservesSupply(s: State, signers: set<Address>, call: Call)
    requires Exec(s, signers, call).Ok?
    ensures Sum(Exec(s, signers, call).value.balances) == Sum(s.balances)
  {
    hide Transfer;
    match call
    case CreateGift(sender, _, amount, _) => TransferConserves(s.balances, sender, CONTRACT, amount);
    case CancelGift(sender, id) => TransferConserves(s.balances, CONTRACT, sender, s.gifts[id].amount);
    case ClaimGift(recipient, id) => TransferConserves(s.balances, CONTRACT, recipient, s.gifts[id].amount);
    case UpdateRecipient(_, _, _) =>
    case Initialize(_, _) =>
    case PauseContract(_, _) =>
  }

  lemma {:induction false} RunConservesSupply(s: State, events: seq<Event>)
    ensures Sum(Run(s, events).balances) == Sum(s.balances)
    decreases |events|
  {
    if events != [] {
      StepConservesSupply(s, events[0]);
      RunConservesSupply(Apply(s, events[0]), events[1..]);
    }
  }

  /** What the contract paid `who` in one event less what it took from them. */
  function NetPaid(s: State, e: Event, who: Address): int {
    if !(e.Invoke? && Exec(s, e.signers, e.call).Ok?) then 0
    else match e.call
      case CreateGift(sender, _, amount, _) => if sender == who then -amount else 0
      case ClaimGift(_, id) => if id in s.gifts && s.gifts[id].recipient == who then s.gifts[id].amount else 0
      case CancelGift(_, id) => if id in s.gifts && s.gifts[id].sender == who then s.gifts[id].amount else 0
      case _ => 0
  }

  /** What `who` received from others in one event less what they sent. */
  function NetReceived(s: State, e: Event, who: Address): int {
    if !(e.OutsideTransfer? && e.from != CONTRACT && Transfer(s.balances, e.from, e.to, e.amount).Some?) then 0
    else (if e.to == who then e.amount else 0) - (if e.from == who then e.amount else 0)
  }

  function TotalNet(s: State, events: seq<Event>, who: Address): int
    decreases |events|
  {
    if events == [] then 0
    else NetPaid(s, events[0], who) + NetReceived(s, events[0], who) + TotalNet(Apply(s, events[0]), events[1..], who)
  }

  lemma StepMovesOwnMoney(s: State, e: Event, who: Address)
    requires Inv(s) && who != CONTRACT
    ensures BalanceOf(Apply(s, e).balances, who) == BalanceOf(s.balances, who) + NetPaid(s, e, who) + NetReceived(s, e, who)
  {
    if e.Invoke? && Exec(s, e.signers, e.call).Ok? {
      match e.call
      case CreateGift(_, _, _, _) => CreationChargesSender(s, e, who);
      case ClaimGift(_, _) => PayoutReachesItsOwner(s, e, who);
      case CancelGift(_, _) => PayoutReachesItsOwner(s, e, who);
      case _ =>
    }
  }

  /** Over any run a party's balance moves by the gifts they created, claimed and were refunded, and
      by their own transfers; nobody else's gifts touch it. */
  lemma {:induction false} RunMovesOwnMoney(s: State, events: seq<Event>, who: Address)
    requires Inv(s) && who != CONTRACT
    ensures BalanceOf(Run(s, events).balances, who) == BalanceOf(s.balances, who) + TotalNet(s, events, who)
    decreases |events|
  {
    hide NetPaid, NetReceived;
    if events != [] {
      StepKeeps(s, events[0]);
      StepMovesOwnMoney(s, events[0], who);
      RunMovesOwnMoney(Apply(s, events[0]), events[1..], who);
    }
  }

  // ---- The life of a gift id --------------------------------------------------------

  datatype Status = NeverIssued | Waiting | Claimed | Cancelled

  function StatusOf(s: State, id: U64): Status {
    if id in s.gifts then (if s.gifts[id].isClaimed then Claimed else Waiting)
    else if 1 <= id <= s.counter then Cancelled
    else NeverIssued
  }

  ghost predicate SameTerms(g: Gift, h: Gift) {
    g.sender == h.sender && g.amount == h.amount && g.unlockTime == h.unlockTime
  }

  /** Time goes forward; terms are fixed at creation; removed ids stay removed; claimed
      records are frozen; no record's lifetime gets shorter. */
  ghost predicate Progress(s: State, next: State) {
    && s.network == next.network && s.timestamp <= next.timestamp && s.ledger <= next.ledger && s.counter <= next.counter
    && (forall id :: 1 <= id <= s.counter && id !in s.gifts ==> id !in next.gifts)
    && (forall id :: id in s.gifts && id in next.gifts ==>
          && SameTerms(s.gifts[id], next.gifts[id])
          && (s.gifts[id].isClaimed ==> next.gifts[id] == s.gifts[id]))
    && (forall id :: id in s.gifts && s.gifts[id].isClaimed ==> id in next.gifts)
    && (forall id :: id in s.liveUntil && id in next.liveUntil ==> s.liveUntil[id] <= next.liveUntil[id])
  }

  lemma SetGiftProgress(s: State, id: U64, gift: Gift)
    requires Records(s)
    requires id in s.gifts ==> SameTerms(s.gifts[id], gift) && !s.gifts[id].isClaimed
    requires id !in s.gifts ==> id > s.counter
    ensures Progress(s, SetGift(s, id, gift))
  {}

  lemma CreateShape(s: State, signers: set<Address>, sender: Address, recipient: Address, amount: I128, unlockTime: U64)
    requires Inv(s) && Create(s, signers, sender, recipient, amount, unlockTime).Ok?
    ensures var next := Create(s, signers, sender, recipient, amount, unlockTime).value;
            && next.counter == s.counter + 1 && next.counter !in s.gifts
            && next.gifts == s.gifts[next.counter := Gift(sender, recipient, amount, unlockTime, false)]
            && next.counter in next.liveUntil
            && next.liveUntil[next.counter] >= s.ledger + ExtendTo(s.timestamp, unlockTime, s.network.maxTtl)
            && Progress(s, next)
  {
    hide ExtendTo;
    PayMoves(s, sender, CONTRACT, amount);
    SetGiftProgress(s, s.counter + 1, Gift(sender, recipient, amount, unlockTime, false));
  }

  lemma CancelShape(s: State, signers: set<Address>, sender: Address, id: U64)
    requires Inv(s) && Cancel(s, signers, sender, id).Ok?
    ensures var next := Cancel(s, signers, sender, id).value;
            && StatusOf(s, id).Waiting? && StatusOf(next, id).Cancelled?
            && next.gifts == s.gifts - {id} && next.counter == s.counter
            && Progress(s, next)
  {
    PayMoves(s, CONTRACT, sender, s.gifts[id].amount);
  }

  lemma ClaimShape(s: State, signers: set<Address>, recipient: Address, id: U64)
    requires Inv(s) && Claim(s, signers, recipient, id).Ok?
    ensures var next := Claim(s, signers, recipient, id).value;
            && StatusOf(s, id).Waiting? && s.timestamp >= s.gifts[id].unlockTime
            && next.gifts == s.gifts[id := s.gifts[id].(isClaimed := true)] && next.counter == s.counter
            && Progress(s, next)
  {
    var gift := s.gifts[id].(isClaimed := true);
    PayMoves(SetGift(s, id, gift), CONTRACT, recipient, gift.amount);
    SetGiftProgress(s, id, gift);
  }

  lemma RedirectShape(s: State, signers: set<Address>, sender: Address, id: U64, newRecipient: Address)
    requires Inv(s) && Redirect(s, signers, sender, id, newRecipient).Ok?
    ensures var next := Redirect(s, signers, sender, id, newRecipient).value;
            && StatusOf(s, id).Waiting? && next.counter == s.counter
            && next.gifts == s.gifts[id := s.gifts[id].(recipient := newRecipient)]
            && Progress(s, next)
  {
    SetGiftProgress(s, id, s.gifts[id].(recipient := newRecipient));
  }

  lemma CallProgress(s: State, signers: set<Address>, call: Call)
    requires Inv(s) && Exec(s, signers, call).Ok?
    ensures Progress(s, Exec(s, signers, call).value)
  {
    match call
    case CreateGift(sender, recipient, amount, unlockTime) => CreateShape(s, signers, sender, recipient, amount, unlockTime);
    case ClaimGift(recipient, id) => ClaimShape(s, signers, recipient, id);
    case CancelGift(sender, id) => CancelShape(s, signers, sender, id);
    case UpdateRecipient(sender, id, newRecipient) => RedirectShape(s, signers, sender, id, newRecipient);
    case Initialize(_, _) =>
    case PauseContract(_, _) =>
  }

  lemma StepProgress(s: State, e: Event)
    requires Inv(s)
    ensures Progress(s, Apply(s, e))
  {
    hide Create, Cancel, Claim, Redirect;
    if e.Invoke? && Exec(s, e.signers, e.call).Ok? {
      CallProgress(s, e.signers, e.call);
    }
  }

  lemma {:induction false} RunProgress(s: State, events: seq<Event>)
    requires Inv(s)
    ensures Progress(s, Run(s, events)) && Inv(Run(s, events))
    decreases |events|
  {
    if events != [] {
      var next := Apply(s, events[0]);
      StepKeeps(s, events[0]);
      StepProgress(s, events[0]);
      RunProgress(next, events[1..]);
      ProgressTransitive(s, next, Run(next, events[1..]));
    }
  }

  lemma ProgressTransitive(a: State, b: State, c: State)
    requires Records(a) && Records(b) && Records(c) && Progress(a, b) && Progress(b, c)
    ensures Progress(a, c)
  {}

  predicate Settled(status: Status) { status.Claimed? || status.Cancelled? }

  /** Never issued, then waiting, then claimed or cancelled for good. */
  lemma {:induction false} StatusOnlyMovesForward(s: State, events: seq<Event>, id: U64)
    requires Inv(s)
    ensures var before, after := StatusOf(s, id), StatusOf(Run(s, events), id);
            && (Settled(before) ==> after == before)
            && (after.NeverIssued? ==> before.NeverIssued?)
            && (after.Waiting? ==> !Settled(before))
  {
    RunProgress(s, events);
  }

  predicate Issues(s: State, e: Event, id: U64) {
    e.Invoke? && e.call.CreateGift? && Exec(s, e.signers, e.call).Ok? && Apply(s, e).counter == id
  }

  predicate PaysOut(s: State, e: Event, id: U64) {
    e.Invoke? && (e.call.ClaimGift? || e.call.CancelGift?) && e.call.id == id && Exec(s, e.signers, e.call).Ok?
  }

  function TimesIssued(s: State, events: seq<Event>, id: U64): nat
    decreases |events|
  {
    if events == [] then 0
    else Count(Issues(s, events[0], id)) + TimesIssued(Apply(s, events[0]), events[1..], id)
  }

  function TimesPaid(s: State, events: seq<Event>, id: U64): nat
    decreases |events|
  {
    if events == [] then 0
    else Count(PaysOut(s, events[0], id)) + TimesPaid(Apply(s, events[0]), events[1..], id)
  }

  lemma StepCounts(s: State, e: Event, id: U64)
    requires Inv(s)
    ensures Issues(s, e, id) <==> StatusOf(s, id).NeverIssued? && !StatusOf(Apply(s, e), id).NeverIssued?
    ensures PaysOut(s, e, id) <==> !Settled(StatusOf(s, id)) && Settled(StatusOf(Apply(s, e), id))
  {
    if e.Invoke? && Exec(s, e.signers, e.call).Ok? {
      CallCounts(s, e.signers, e.call, id);
    }
  }

  lemma CallCounts(s: State, signers: set<Address>, call: Call, id: U64)
    requires Inv(s) && Exec(s, signers, call).Ok?
    ensures var next := Exec(s, signers, call).value;
            && (call.CreateGift? && next.counter == id <==>
                  StatusOf(s, id).NeverIssued? && !StatusOf(next, id).NeverIssued?)
            && ((call.ClaimGift? || call.CancelGift?) && call.id == id <==>
                  !Settled(StatusOf(s, id)) && Settled(StatusOf(next, id)))
  {
    hide Create, Cancel, Claim, Redirect, Inv, Progress;
    match call
    case CreateGift(sender, recipient, amount, unlockTime) => CreateShape(s, signers, sender, recipient, amount, unlockTime);
    case ClaimGift(recipient, other) => ClaimShape(s, signers, recipient, other);
    case CancelGift(sender, other) => CancelShape(s, signers, sender, other);
    case UpdateRecipient(sender, other, newRecipient) => RedirectShape(s, signers, sender, other, newRecipient);
    case Initialize(_, _) =>
    case PauseContract(_, _) =>
  }

  /** An id is issued at most once and paid out at most once, and its status tells which happened. */
  lemma {:induction false} IssuedOncePaidOnce(s: State, events: seq<Event>, id: U64)
    requires Inv(s)
    ensures var before, after := StatusOf(s, id), StatusOf(Run(s, events), id);
            && TimesIssued(s, events, id) == Count(before.NeverIssued? && !after.NeverIssued?)
            && TimesPaid(s, events, id) == Count(!Settled(before) && Settled(after))
    decreases |events|
  {
    if events != [] {
      var next := Apply(s, events[0]);
      StepKeeps(s, events[0]);
      StepCounts(s, events[0], id);
      StatusOnlyMovesForward(next, events[1..], id);
      IssuedOncePaidOnce(next, events[1..], id);
      StatusAfterStep(s, events[0], id);
    }
  }

  lemma StatusAfterStep(s: State, e: Event, id: U64)
    requires Inv(s)
    ensures Settled(StatusOf(s, id)) ==> StatusOf(Apply(s, e), id) == StatusOf(s, id)
    ensures StatusOf(Apply(s, e), id).NeverIssued? ==> StatusOf(s, id).NeverIssued?
  {
    StepProgress(s, e);
  }

  /** However the run continues after a gift was created, a claim of it succeeds only at or
      after the unlock time given at creation, and pays the amount given at creation. */
  lemma ClaimWaitsForUnlock(s: State, creation: Event, events: seq<Event>, claim: Event)
    requires Inv(s) && creation.Invoke? && creation.call.CreateGift? && Exec(s, creation.signers, creation.call).Ok?
    requires claim.Invoke? && claim.call.ClaimGift? && claim.call.id == Apply(s, creation).counter
    requires Exec(Run(Apply(s, creation), events), claim.signers, claim.call).Ok?
    ensures var now := Run(Apply(s, creation), events);
            now.timestamp >= creation.call.unlockTime && Moved(now, claim).claimed == creation.call.amount
  {
    hide Create, Claim, Inv, Run;
    var call, first := creation.call, Apply(s, creation);
    StepKeeps(s, creation);
    CreateShape(s, creation.signers, call.sender, call.recipient, call.amount, call.unlockTime);
    RunProgress(first, events);
    ClaimShape(Run(first, events), claim.signers, claim.call.recipient, claim.call.id);
  }

  // ---- Who may do what --------------------------------------------------------------

  predicate NotSignedBy(e: Event, who: Address) { e.Invoke? ==> who !in e.signers }

  predicate NeverSigns(events: seq<Event>, who: Address) {
    forall i :: 0 <= i < |events| ==> NotSignedBy(events[i], who)
  }

  /** In every reachable state a gift is redirected exactly by the one who sent it, while its record
      is live and unclaimed, and then to the recipient named. */
  lemma RedirectSucceedsExactlyWhenPermitted(s: State, events: seq<Event>, signers: set<Address>, sender: Address, id: U64, newRecipient: Address)
    requires JustDeployed(s)
    ensures var now := Run(s, events);
            var redirected := Exec(now, signers, UpdateRecipient(sender, id, newRecipient));
            && (redirected.Ok? <==>
                  && Signed(signers, sender) && id in now.gifts && Live(now, id)
                  && now.gifts[id].sender == sender && !now.gifts[id].isClaimed)
            && (redirected.Ok? ==> redirected.value.gifts == now.gifts[id := now.gifts[id].(recipient := newRecipient)])
  {
    assert Unclaimed(s.gifts) == map[];
    RunKeepsInv(s, events);
    if Redirect(Run(s, events), signers, sender, id, newRecipient).Ok? {
      RedirectShape(Run(s, events), signers, sender, id, newRecipient);
    }
  }

  /** A gift is created exactly while the protocol is not paused, by a signing sender who has the
      amount, at or above the minimum, for a lock of at most five years. */
  lemma CreateSucceedsExactlyWhenPermitted(s: State, signers: set<Address>, sender: Address, recipient: Address, amount: I128, unlockTime: U64)
    requires Inv(s)
    ensures var created := Exec(s, signers, CreateGift(sender, recipient, amount, unlockTime));
            && (created.Ok? <==>
                  && !s.paused && Signed(signers, sender) && s.token.Some? && s.counter < U64_MAX
                  && MIN_DEPOSIT_AMOUNT <= amount <= BalanceOf(s.balances, sender)
                  && unlockTime <= s.timestamp + MAX_LOCK_DURATION_SECONDS)
            && (created.Ok? ==> created.value.gifts == s.gifts[s.counter + 1 := Gift(sender, recipient, amount, unlockTime, false)])
  {
    if Create(s, signers, sender, recipient, amount, unlockTime).Ok? {
      CreateShape(s, signers, sender, recipient, amount, unlockTime);
    }
  }

  lemma StepAnswersToParties(s: State, e: Event, id: U64)
    requires Inv(s) && id in s.gifts && NotSignedBy(e, s.gifts[id].sender)
    ensures var next := Apply(s, e);
            && id in next.gifts && next.gifts[id] == s.gifts[id].(isClaimed := next.gifts[id].isClaimed)
            && (NotSignedBy(e, s.gifts[id].recipient) ==> next.gifts[id] == s.gifts[id])
  {
    hide Inv;
    if e.Invoke? && Exec(s, e.signers, e.call).Ok? {
      match e.call
      case CreateGift(sender, recipient, amount, unlockTime) =>
        CreateShape(s, e.signers, sender, recipient, amount, unlockTime);
      case _ =>
    }
  }

  /** Without its sender's signature a gift is neither removed nor redirected, whatever else is called,
      and without its recipient's it is not claimed either. */
  lemma {:induction false} GiftsAnswerToTheirParties(s: State, events: seq<Event>, id: U64)
    requires Inv(s) && id in s.gifts && NeverSigns(events, s.gifts[id].sender)
    ensures var end := Run(s, events);
            && id in end.gifts && end.gifts[id] == s.gifts[id].(isClaimed := end.gifts[id].isClaimed)
            && (NeverSigns(events, s.gifts[id].recipient) ==> end.gifts[id] == s.gifts[id])
    decreases |events|
  {
    hide Apply, NotSignedBy, Inv;
    if events != [] {
      StepKeeps(s, events[0]);
      StepAnswersToParties(s, events[0], id);
      GiftsAnswerToTheirParties(Apply(s, events[0]), events[1..], id);
    }
  }

  /** The first initialization is final, and only the admin it names pauses and resumes. */
  lemma {:induction false} AdminIsFinal(s: State, events: seq<Event>)
    requires s.admin.Some?
    ensures Run(s, events).admin == s.admin && Run(s, events).token == s.token
    ensures NeverSigns(events, s.admin.value) ==> Run(s, events).paused == s.paused
    decreases |events|
  {
    if events != [] {
      AdminStays(s, events[0]);
      hide Apply, NotSignedBy;
      AdminIsFinal(Apply(s, events[0]), events[1..]);
    }
  }

  lemma AdminStays(s: State, e: Event)
    requires s.admin.Some?
    ensures var next := Apply(s, e);
            next.admin == s.admin && next.token == s.token && (NotSignedBy(e, s.admin.value) ==> next.paused == s.paused)
  {}

  lemma AdminCallsSucceedExactly(s: State, signers: set<Address>, who: Address, token: Address, status: bool)
    ensures var started, paused := Exec(s, signers, Initialize(who, token)), Exec(s, signers, PauseContract(who, status));
            && (started.Ok? <==> Signed(signers, who) && s.admin.None?)
            && (started.Ok? ==> started.value == s.(admin := Some(who), token := Some(token)))
            && (paused.Ok? <==> Signed(signers, who) && s.admin == Some(who))
            && (paused.Ok? ==> paused.value == s.(paused := status))
  {}

  function Caller(call: Call): Address {
    match call
    case Initialize(admin, _) => admin
    case CreateGift(sender, _, _, _) => sender
    case CancelGift(sender, _) => sender
    case ClaimGift(recipient, _) => recipient
    case UpdateRecipient(sender, _, _) => sender
    case PauseContract(admin, _) => admin
  }

  predicate NamesGift(call: Call) { call.CancelGift? || call.ClaimGift? || call.UpdateRecipient? }

  /** What a refusal tells the caller about the state. */
  predicate Holds(s: State, signers: set<Address>, call: Call, e: Failure) {
    match e
    case AuthFailed => !Signed(signers, Caller(call))
    case NotInitialized => (call.CreateGift? && s.token.None?) || (call.PauseContract? && s.admin.None?)
    case TransferFailed => call.CreateGift? && BalanceOf(s.balances, call.sender) < call.amount
    case CounterOverflow => call.CreateGift? && s.counter == U64_MAX
    case AlreadyInitialized => call.Initialize? && s.admin.Some?
    case ProtocolPaused => call.CreateGift? && s.paused
    case InvalidAmount => call.CreateGift? && call.amount <= 0
    case LockTimeTooFarInFuture => call.CreateGift? && call.unlockTime - s.timestamp > MAX_LOCK_DURATION_SECONDS
    case AmountTooSmall => call.CreateGift? && 0 < call.amount < MIN_DEPOSIT_AMOUNT
    case GiftNotFound => NamesGift(call) && call.id !in s.gifts
    case Archived => NamesGift(call) && call.id in s.gifts && s.ledger > LifetimeOf(s, call.id)
    case Unauthorized => Signed(signers, Caller(call)) && !Entitled(s, call)
    case AlreadyClaimed => NamesGift(call) && call.id in s.gifts && s.gifts[call.id].isClaimed
    case TimeLockActive => call.ClaimGift? && call.id in s.gifts && s.timestamp < s.gifts[call.id].unlockTime
  }

  function LifetimeOf(s: State, id: U64): int {
    if id in s.liveUntil then s.liveUntil[id] else -1
  }

  /** The caller is the one the call is for. */
  predicate Entitled(s: State, call: Call) {
    match call
    case ClaimGift(recipient, id) => id in s.gifts && s.gifts[id].recipient == recipient
    case CancelGift(sender, id) => id in s.gifts && s.gifts[id].sender == sender
    case UpdateRecipient(sender, id, _) => id in s.gifts && s.gifts[id].sender == sender
    case PauseContract(admin, _) => s.admin == Some(admin)
    case _ => true
  }

  /** In every reachable state a refusal names a condition that holds; lack of funds, and a missing
      token, are never the reason why a claim or a refund is refused. */
  lemma RefusalsHaveReasons(s: State, events: seq<Event>, signers: set<Address>, call: Call)
    requires JustDeployed(s)
    ensures var refused := Exec(Run(s, events), signers, call);
            refused.Err? ==> Holds(Run(s, events), signers, call, refused.error)
  {
    assert Unclaimed(s.gifts) == map[];
    RunKeepsInv(s, events);
    hide Run, Inv;
    ReasonsHold(Run(s, events), signers, call);
  }

  lemma ReasonsHold(s: State, signers: set<Address>, call: Call)
    requires Inv(s)
    ensures Exec(s, signers, call).Err? ==> Holds(s, signers, call, Exec(s, signers, call).error)
  {
    if NamesGift(call) { LockedCoversEach(s, call.id); }
    hide Inv, SetGift, RemoveGift;
  }

  // ---- Record lifetime --------------------------------------------------------------

  /** The lifetime of a record not written before is the network's minimum. */
  function LifetimeBefore(s: State, id: U64): int {
    if id in s.liveUntil then s.liveUntil[id] else s.ledger + s.network.minTtl - 1
  }

  /** Creating, claiming and redirecting make the record last to the target at least, never less than
      before; cancelling removes it with its lifetime; no call touches another record's. */
  lemma LifetimeAfterCall(s: State, signers: set<Address>, call: Call)
    requires Exec(s, signers, call).Ok?
    ensures var next := Exec(s, signers, call).value;
            if call.CancelGift? then next.liveUntil == s.liveUntil - {call.id}
            else if call.CreateGift? || NamesGift(call) then
              var id := if call.CreateGift? then s.counter + 1 else call.id;
              && id in next.gifts
              && next.liveUntil == s.liveUntil[id :=
                   Max(LifetimeBefore(s, id), s.ledger + ExtendTo(s.timestamp, next.gifts[id].unlockTime, s.network.maxTtl))]
            else next.liveUntil == s.liveUntil
  {
    hide ExtendTo;
  }

  /** ceil(d / 5) for the time left to the unlock. */
  function LedgersLeft(now: U64, unlockTime: U64): int { DivCeil(Max(0, unlockTime - now), AVG_LEDGER_TIME_SECONDS) }

  lemma DivCeilIsCeiling(d: nat, ceiling: int)
    ensures DivCeil(d, AVG_LEDGER_TIME_SECONDS) == ceiling <==>
              AVG_LEDGER_TIME_SECONDS * (ceiling - 1) < d <= AVG_LEDGER_TIME_SECONDS * ceiling
  {}

  /** For every stored gift of every run, at any later time, neither the u32 conversion nor the
      addition saturates, so the extension is ceil(d / 5) + 100 ledgers, capped only by the network. */
  lemma ExtensionIsExact(s: State, events: seq<Event>, id: U64)
    requires Inv(s) && id in Run(s, events).gifts
    ensures var now := Run(s, events);
            var left := LedgersLeft(now.timestamp, now.gifts[id].unlockTime);
            && ToU32(left) == left
            && SaturatingAddU32(ToU32(left), TTL_SAFETY_MARGIN_LEDGERS) == left + TTL_SAFETY_MARGIN_LEDGERS
            && ExtendTo(now.timestamp, now.gifts[id].unlockTime, now.network.maxTtl) ==
                 Min(left + TTL_SAFETY_MARGIN_LEDGERS, now.network.maxTtl)
  {
    RunKeepsInv(s, events);
  }

  /** Only the cap on the lock duration rules saturation out: the conversion alone saturates exactly
      from 5 * (2^32 - 1) seconds on, the addition 500 seconds earlier. */
  lemma SaturatesExactlyBeyond(now: U64, unlockTime: U64)
    requires now <= unlockTime
    ensures ToU32(LedgersLeft(now, unlockTime)) != LedgersLeft(now, unlockTime) <==>
              unlockTime - now > AVG_LEDGER_TIME_SECONDS * U32_MAX
    ensures SaturatingAddU32(ToU32(LedgersLeft(now, unlockTime)), TTL_SAFETY_MARGIN_LEDGERS)
              != LedgersLeft(now, unlockTime) + TTL_SAFETY_MARGIN_LEDGERS <==>
              unlockTime - now > AVG_LEDGER_TIME_SECONDS * (U32_MAX - TTL_SAFETY_MARGIN_LEDGERS)
  {
    DivCeilIsCeiling(unlockTime - now, LedgersLeft(now, unlockTime));
  }

  /** If the cap does not bite and at most ceil(d / 5) + 100 ledgers have closed since creation,
      the record is still live, or was cancelled. */
  lemma LiveWhileLedgersKeepPace(s: State, creation: Event, events: seq<Event>)
    requires Inv(s) && creation.Invoke? && creation.call.CreateGift? && Exec(s, creation.signers, creation.call).Ok?
    requires var d := Max(0, creation.call.unlockTime - s.timestamp);
             var allowance := DivCeil(d, AVG_LEDGER_TIME_SECONDS) + TTL_SAFETY_MARGIN_LEDGERS;
             allowance <= s.network.maxTtl && Run(Apply(s, creation), events).ledger <= s.ledger + allowance
    ensures var id, now := Apply(s, creation).counter, Run(Apply(s, creation), events);
            Live(now, id) || StatusOf(now, id).Cancelled?
  {
    hide Create, Run;
    var id, first := Apply(s, creation).counter, Apply(s, creation);
    StepKeeps(s, creation);
    RunProgress(first, events);
    var call := creation.call;
    CreateShape(s, creation.signers, call.sender, call.recipient, call.amount, call.unlockTime);
    assert id in Run(first, events).gifts <==> id in Run(first, events).liveUntil;
  }
}

/** The contract object: its storage is updated in place, and an aborted call is rolled back. */
module GiftContract {
  import opened Numbers
  import opened Outcomes
  import opened Token
  import opened GiftMachine

  class Contract {
    const network: Network
    var timestamp: U64
    var ledger: nat
    var balances: Balances
    var admin: Option<Address>
    var tokenAddress: Option<Address>
    var paused: bool
    var counter: U64
    var gifts: map<U64, Gift>
    var liveUntil: map<U64, int>

    ghost function Model(): State
      reads this
    {
      State(network, timestamp, ledger, balances, admin, tokenAddress, paused, counter, gifts, liveUntil)
    }

    /** What a call leaves behind: its successor state, or on failure the state it found. */
    ghost function After(before: State, signers: set<Address>, call: Call): State {
      Apply(before, Invoke(signers, call))
    }

    constructor (network: Network, timestamp: U64, ledger: nat, balances: Balances)
      ensures Model() == State(network, timestamp, ledger, balances, None, None, false, 0, map[], map[])
    {
      this.network, this.timestamp, this.ledger, this.balances := network, timestamp, ledger, balances;
      admin, tokenAddress, paused, counter, gifts, liveUntil := None, None, false, 0, map[], map[];
    }

    method TokenTransfer(from: Address, to: Address, amount: int) returns (ok: bool)
      modifies `balances
      ensures ok == Transfer(old(balances), from, to, amount).Some?
      ensures balances == if ok then Transfer(old(balances), from, to, amount).value else old(balances)
    {
      ok := amount >= 0 && BalanceOf(balances, from) >= amount;
      if ok {
        balances := balances[from := BalanceOf(balances, from) - amount];
        balances := balances[to := BalanceOf(balances, to) + amount];
      }
    }

    method BumpGiftTtl(id: U64, gift: Gift)
      requires id in liveUntil
      modifies `liveUntil
      ensures liveUntil == old(liveUntil)[id := Extended(old(liveUntil[id]), ledger, ExtendTo(timestamp, gift.unlockTime, network.maxTtl))]
    {
      var secondsUntilUnlock := if gift.unlockTime > timestamp then gift.unlockTime - timestamp else 0;
      var ledgersUntilUnlock := DivCeil(secondsUntilUnlock, AVG_LEDGER_TIME_SECONDS);
      var extendTo := SaturatingAddU32(ToU32(ledgersUntilUnlock), TTL_SAFETY_MARGIN_LEDGERS);
      extendTo := Min(extendTo, network.maxTtl);
      if liveUntil[id] - ledger < extendTo {
        liveUntil := liveUntil[id := ledger + extendTo];
      }
    }

    method StoreGift(id: U64, gift: Gift)
      modifies `gifts, `liveUntil
      ensures Model() == SetGift(old(Model()), id, gift)
    {
      gifts := gifts[id := gift];
      if id !in liveUntil {
        liveUntil := liveUntil[id := ledger + network.minTtl - 1];
      }
      BumpGiftTtl(id, gift);
    }

    method Initialize(signers: set<Address>, newAdmin: Address, token: Address) returns (r: Result<(), Failure>)
      modifies `admin, `tokenAddress
      ensures Model() == After(old(Model()), signers, Call.Initialize(newAdmin, token))
      ensures r.Ok? <==> Exec(old(Model()), signers, Call.Initialize(newAdmin, token)).Ok?
      ensures r.Err? ==> Exec(old(Model()), signers, Call.Initialize(newAdmin, token)) == Err(r.error)
    {
      if !Signed(signers, newAdmin) { return Err(AuthFailed); }
      if admin.Some? { return Err(AlreadyInitialized); }
      admin := Some(newAdmin);
      tokenAddress := Some(token);
      r := Ok(());
    }

    method CreateGift(signers: set<Address>, sender: Address, recipient: Address, amount: I128, unlockTime: U64)
      returns (r: Result<U64, Failure>)
      modifies this
      ensures Model() == After(old(Model()), signers, Call.CreateGift(sender, recipient, amount, unlockTime))
      ensures match Exec(old(Model()), signers, Call.CreateGift(sender, recipient, amount, unlockTime))
              case Ok(next) => r == Ok(next.counter)
              case Err(e) => r == Err(e)
    {
      if paused { return Err(ProtocolPaused); }
      if amount <= 0 { return Err(InvalidAmount); }
      var maxTimestamp := Min(timestamp + MAX_LOCK_DURATION_SECONDS, U64_MAX);
      if unlockTime > maxTimestamp { return Err(LockTimeTooFarInFuture); }
      if !Signed(signers, sender) { return Err(AuthFailed); }
      if amount < MIN_DEPOSIT_AMOUNT { return Err(AmountTooSmall); }
      if tokenAddress.None? { return Err(NotInitialized); }
      var before := balances;
      var ok := TokenTransfer(sender, CONTRACT, amount);
      if !ok { return Err(TransferFailed); }
      if counter == U64_MAX {
        balances := before;
        return Err(CounterOverflow);
      }
      counter := counter + 1;
      StoreGift(counter, Gift(sender, recipient, amount, unlockTime, false));
      r := Ok(counter);
    }

    method CancelGift(signers: set<Address>, sender: Address, id: U64) returns (r: Result<(), Failure>)
      modifies this
      ensures Model() == After(old(Model()), signers, Call.CancelGift(sender, id))
      ensures r.Ok? <==> Exec(old(Model()), signers, Call.CancelGift(sender, id)).Ok?
      ensures r.Err? ==> Exec(old(Model()), signers, Call.CancelGift(sender, id)) == Err(r.error)
    {
      if !Signed(signers, sender) { return Err(AuthFailed); }
      if id !in gifts { return Err(GiftNotFound); }
      if !(id in liveUntil && ledger <= liveUntil[id]) { return Err(Archived); }
      var gift := gifts[id];
      if sender != gift.sender { return Err(Unauthorized); }
      if gift.isClaimed { return Err(AlreadyClaimed); }
      if tokenAddress.None? { return Err(NotInitialized); }
      var ok := TokenTransfer(CONTRACT, sender, gift.amount);
      if !ok { return Err(TransferFailed); }
      gifts := gifts - {id};
      liveUntil := liveUntil - {id};
      r := Ok(());
    }

    method ClaimGift(signers: set<Address>, recipient: Address, id: U64) returns (r: Result<(), Failure>)
      modifies this
      ensures Model() == After(old(Model()), signers, Call.ClaimGift(recipient, id))
      ensures r.Ok? <==> Exec(old(Model()), signers, Call.ClaimGift(recipient, id)).Ok?
      ensures r.Err? ==> Exec(old(Model()), signers, Call.ClaimGift(recipient, id)) == Err(r.error)
    {
      if !Signed(signers, recipient) { return Err(AuthFailed); }
      if id !in gifts { return Err(GiftNotFound); }
      if !(id in liveUntil && ledger <= liveUntil[id]) { return Err(Archived); }
      var gift := gifts[id];
      if gift.recipient != recipient { return Err(Unauthorized); }
      if timestamp < gift.unlockTime { return Err(TimeLockActive); }
      if gift.isClaimed { return Err(AlreadyClaimed); }
      var giftsBefore, liveBefore := gifts, liveUntil;
      StoreGift(id, gift.(isClaimed := true));
      var ok := false;
      if tokenAddress.Some? { ok := TokenTransfer(CONTRACT, recipient, gift.amount); }
      if !ok {
        gifts, liveUntil := giftsBefore, liveBefore;
        return Err(if tokenAddress.None? then NotInitialized else TransferFailed);
      }
      r := Ok(());
    }

    method UpdateRecipient(signers: set<Address>, sender: Address, id: U64, newRecipient: Address) returns (r: Result<(), Failure>)
      modifies `gifts, `liveUntil
      ensures Model() == After(old(Model()), signers, Call.UpdateRecipient(sender, id, newRecipient))
      ensures r.Ok? <==> Exec(old(Model()), signers, Call.UpdateRecipient(sender, id, newRecipient)).Ok?
      ensures r.Err? ==> Exec(old(Model()), signers, Call.UpdateRecipient(sender, id, newRecipient)) == Err(r.error)
    {
      if !Signed(signers, sender) { return Err(AuthFailed); }
      if id !in gifts { return Err(GiftNotFound); }
      if !(id in liveUntil && ledger <= liveUntil[id]) { return Err(Archived); }
      var gift := gifts[id];
      if gift.sender != sender { return Err(Unauthorized); }
      if gift.isClaimed { return Err(AlreadyClaimed); }
      StoreGift(id, gift.(recipient := newRecipient));
      r := Ok(());
    }

    method PauseContract(signers: set<Address>, caller: Address, status: bool) returns (r: Result<(), Failure>)
      modifies `paused
      ensures Model() == After(old(Model()), signers, Call.PauseContract(caller, status))
      ensures r.Ok? <==> Exec(old(Model()), signers, Call.PauseContract(caller, status)).Ok?
      ensures r.Err? ==> Exec(old(Model()), signers, Call.PauseContract(caller, status)) == Err(r.error)
    {
      if !Signed(signers, caller) { return Err(AuthFailed); }
      if admin.None? { return Err(NotInitialized); }
      if caller != admin.value { return Err(Unauthorized); }
      paused := status;
      r := Ok(());
    }
  }
}
