/** The transaction verifier: sweeps over pending rows, each settling rows by what the chain says. */
module Verifier {
  import opened Outcomes

  type TxId = nat
  type WalletId = nat

  datatype Kind = Deposit | Withdrawal | Transfer | BlockchainSubmission
  datatype TxStatus = Pending | Submitted | Completed | Failed

  datatype Tx = Tx(userId: string, walletId: Option<WalletId>, kind: Kind, amount: int, currency: string,
                   status: TxStatus, hash: Option<string>, createdAt: int)
  datatype Wallet = Wallet(userId: string, currency: string, balance: int)
  datatype Db = Db(txs: map<TxId, Tx>, wallets: map<WalletId, Wallet>)

  /** A row as a sweep read it, possibly long before it is settled. */
  datatype Item = Item(id: TxId, kind: Kind, hash: string, createdAt: int)

  datatype OnChain = SUCCESS | FAILED | PENDING | NOT_FOUND
  datatype Verdict = WasCompleted | WasSettledElsewhere | WasFailed | StillPending | Errored

  /** What a database transaction meets: whether it breaks off, the wallet its query finds, and
      the id that an inserted wallet gets. */
  datatype Weather = Weather(dbFails: bool, found: Option<WalletId>, newWallet: WalletId)

  predicate IsListed(tx: Tx) { tx.status.Pending? && tx.hash.Some? }

  function ItemOf(id: TxId, tx: Tx): Item
    requires tx.hash.Some?
  {
    Item(id, tx.kind, tx.hash.value, tx.createdAt)
  }

  /** `findFirst` of the user's wallet in the currency. */
  predicate QueryAnswers(wallets: map<WalletId, Wallet>, userId: string, currency: string, found: Option<WalletId>) {
    match found
    case None => forall w :: w in wallets ==> !(wallets[w].userId == userId && wallets[w].currency == currency)
    case Some(w) => w in wallets && wallets[w].userId == userId && wallets[w].currency == currency
  }

  function Credited(wallets: map<WalletId, Wallet>, w: WalletId, amount: int): map<WalletId, Wallet>
    requires w in wallets
  {
    wallets[w := wallets[w].(balance := wallets[w].balance + amount)]
  }

  /** The row's deposit can be credited: to the wallet it names, if that is the user's, or to any. */
  predicate Creditable(db: Db, tx: Tx) {
    tx.walletId.Some? ==> tx.walletId.value in db.wallets && db.wallets[tx.walletId.value].userId == tx.userId
  }

  /** An inserted wallet's id is new: neither stored nor referred to. */
  predicate Fits(db: Db, id: TxId, weather: Weather) {
    && weather.newWallet !in db.wallets && (forall t :: t in db.txs ==> db.txs[t].walletId != Some(weather.newWallet))
    && (id in db.txs ==> QueryAnswers(db.wallets, db.txs[id].userId, db.txs[id].currency, weather.found))
  }

  /** The deposit transaction: credit and completion together, or neither. */
  function CompleteDeposit(db: Db, id: TxId, weather: Weather): (Db, Verdict)
    requires Fits(db, id, weather)
  {
    if weather.dbFails then (db, Errored)
    else if id !in db.txs || !db.txs[id].status.Pending? then (db, WasSettledElsewhere)
    else
      var tx := db.txs[id];
      match tx.walletId
      case Some(w) =>
        if w in db.wallets && db.wallets[w].userId == tx.userId then
          (Db(db.txs[id := tx.(status := Completed)], Credited(db.wallets, w, tx.amount)), WasCompleted)
        else (db, Errored)
      case None => (
        match weather.found
        case Some(w) =>
          (Db(db.txs[id := tx.(status := Completed, walletId := Some(w))], Credited(db.wallets, w, tx.amount)), WasCompleted)
        case None =>
          var w := weather.newWallet;
          (Db(db.txs[id := tx.(status := Completed, walletId := Some(w))],
              db.wallets[w := Wallet(tx.userId, tx.currency, tx.amount)]), WasCompleted)
      )
  }

  /** The guarded update that completes or fails a row only while it is pending. */
  function SetStatus(db: Db, id: TxId, status: TxStatus): Db {
    if id in db.txs && db.txs[id].status.Pending? then db.(txs := db.txs[id := db.txs[id].(status := status)]) else db
  }

  function Settle(db: Db, item: Item, answer: OnChain, now: int, timeoutMs: int, weather: Weather): (Db, Verdict)
    requires Fits(db, item.id, weather)
  {
    if answer.SUCCESS? && item.kind.Deposit? then CompleteDeposit(db, item.id, weather)
    else if answer.SUCCESS? then
      if weather.dbFails then (db, Errored) else (SetStatus(db, item.id, Completed), WasCompleted)
    else if answer.FAILED? || now - item.createdAt >= timeoutMs then
      if weather.dbFails then (db, Errored) else (SetStatus(db, item.id, Failed), WasFailed)
    else (db, StillPending)
  }

  // ---- Any number of sweeps at once -------------------------------------------------

  type SweepId = nat

  /** What is left of a sweep's list, and the chain's answer for the first of it once it came. */
  datatype Sweep = Sweep(todo: seq<Item>, answer: Option<OnChain>)

  datatype State = State(db: Db, now: int, timeoutMs: int, sweeps: map<SweepId, Sweep>,
                         confirmed: set<string>, refuted: set<string>)

  datatype Event =
    | Tick(ms: nat)
    | Record(id: TxId, tx: Tx)
    | List(sid: SweepId, order: seq<TxId>)
    | ChainAnswers(sid: SweepId, answer: OnChain)
    | ChainFails(sid: SweepId)
    | SettleFirst(sid: SweepId, weather: Weather)

  predicate AllListed(db: Db, order: seq<TxId>) {
    forall id :: id in order ==> id in db.txs && IsListed(db.txs[id])
  }

  /** The rows `listPendingTransactions` returns, each once, in whatever order. */
  predicate IsListing(db: Db, order: seq<TxId>) {
    && AllListed(db, order)
    && (forall i, j :: 0 <= i < j < |order| ==> order[i] != order[j])
    && (forall id :: id in db.txs && IsListed(db.txs[id]) ==> id in order)
  }

  function Items(db: Db, order: seq<TxId>): (items: seq<Item>)
    requires AllListed(db, order)
    ensures |items| == |order|
    ensures forall i :: 0 <= i < |order| ==> order[i] in order && items[i] == ItemOf(order[i], db.txs[order[i]])
  {
    if order == [] then []
    else
      assert order[0] in order;
      [ItemOf(order[0], db.txs[order[0]])] + Items(db, order[1..])
  }

  predicate Waiting(s: State, sid: SweepId) { sid in s.sweeps && s.sweeps[sid].todo != [] && s.sweeps[sid].answer.None? }
  predicate Ready(s: State, sid: SweepId) { sid in s.sweeps && s.sweeps[sid].todo != [] && s.sweeps[sid].answer.Some? }

  predicate Enabled(s: State, e: Event) {
    match e
    case Tick(_) => true
    case Record(id, tx) => id !in s.db.txs && tx.status.Pending?
    case List(sid, order) => sid !in s.sweeps && IsListing(s.db, order)
    case ChainAnswers(sid, _) => Waiting(s, sid)
    case ChainFails(sid) => Waiting(s, sid)
    case SettleFirst(sid, weather) => Ready(s, sid) && Fits(s.db, s.sweeps[sid].todo[0].id, weather)
  }

  function Rest(sweep: Sweep): Sweep
    requires sweep.todo != []
  {
    Sweep(sweep.todo[1..], None)
  }

  function Apply(s: State, e: Event): State {
    if !Enabled(s, e) then s
    else match e
      case Tick(ms) => s.(now := s.now + ms)
      case Record(id, tx) => s.(db := s.db.(txs := s.db.txs[id := tx]))
      case List(sid, order) => s.(sweeps := s.sweeps[sid := Sweep(Items(s.db, order), None)])
      case ChainAnswers(sid, answer) =>
        var sweep := s.sweeps[sid];
        s.(sweeps := s.sweeps[sid := sweep.(answer := Some(answer))],
           confirmed := if answer.SUCCESS? then s.confirmed + {sweep.todo[0].hash} else s.confirmed,
           refuted := if answer.FAILED? then s.refuted + {sweep.todo[0].hash} else s.refuted)
      case ChainFails(sid) => s.(sweeps := s.sweeps[sid := Rest(s.sweeps[sid])])
      case SettleFirst(sid, weather) =>
        var sweep := s.sweeps[sid];
        s.(db := Settle(s.db, sweep.todo[0], sweep.answer.value, s.now, s.timeoutMs, weather).0,
           sweeps := s.sweeps[sid := Rest(sweep)])
  }

  function Run(s: State, events: seq<Event>): State
    decreases |events|
  {
    if events == [] then s else Run(Apply(s, events[0]), events[1..])
  }
}

module VerifierProofs {
  import opened Outcomes
  import opened MapSums
  import opened Verifier

  /** Whose wallets and deposits, and in which currency; None is any. */
  datatype Scope = Scope(user: Option<string>, currency: Option<string>)

  predicate Counts(who: Scope, userId: string, currency: string) {
    (who.user.None? || who.user.value == userId) && (who.currency.None? || who.currency.value == currency)
  }

  ghost function Balances(db: Db, who: Scope): map<WalletId, int> {
    map w | w in db.wallets && Counts(who, db.wallets[w].userId, db.wallets[w].currency) :: db.wallets[w].balance
  }

  ghost function CompletedDeposits(db: Db, who: Scope): map<TxId, int> {
    map t | t in db.txs && db.txs[t].kind.Deposit? && db.txs[t].status.Completed? && Counts(who, db.txs[t].userId, db.txs[t].currency)
      :: db.txs[t].amount
  }

  /** Wallet balances beyond the completed deposits. */
  ghost function Excess(db: Db, who: Scope): int {
    Sum(Balances(db, who)) - Sum(CompletedDeposits(db, who))
  }

  predicate IsOf(tx: Tx, item: Item) {
    tx.kind == item.kind && tx.hash == Some(item.hash) && tx.createdAt == item.createdAt
  }

  /** A listed row keeps what it was listed with; only its status and wallet can change. */
  predicate Matches(db: Db, item: Item) {
    item.id in db.txs && IsOf(db.txs[item.id], item)
  }

  /** Rows are never removed; once settled they are frozen; otherwise only status and wallet move. */
  ghost predicate RowsKept(db: Db, next: Db) {
    forall t :: t in db.txs ==>
      && t in next.txs
      && (!db.txs[t].status.Pending? ==> next.txs[t] == db.txs[t])
      && (db.txs[t].walletId.Some? ==> next.txs[t].walletId == db.txs[t].walletId)
      && next.txs[t] == db.txs[t].(status := next.txs[t].status, walletId := next.txs[t].walletId)
  }

  lemma CreditRaisesBalances(db: Db, w: WalletId, amount: int, who: Scope)
    requires w in db.wallets
    ensures Sum(Balances(db.(wallets := Credited(db.wallets, w, amount)), who)) ==
              Sum(Balances(db, who)) + (if Counts(who, db.wallets[w].userId, db.wallets[w].currency) then amount else 0)
  {
    var next := db.(wallets := Credited(db.wallets, w, amount));
    if Counts(who, db.wallets[w].userId, db.wallets[w].currency) {
      assert Balances(next, who) == Balances(db, who)[w := db.wallets[w].balance + amount];
      SumSet(Balances(db, who), w, db.wallets[w].balance + amount);
    } else {
      assert Balances(next, who) == Balances(db, who);
    }
  }

  lemma InsertRaisesBalances(db: Db, w: WalletId, wallet: Wallet, who: Scope)
    requires w !in db.wallets
    ensures Sum(Balances(db.(wallets := db.wallets[w := wallet]), who)) ==
              Sum(Balances(db, who)) + (if Counts(who, wallet.userId, wallet.currency) then wallet.balance else 0)
  {
    var next := db.(wallets := db.wallets[w := wallet]);
    if Counts(who, wallet.userId, wallet.currency) {
      assert Balances(next, who) == Balances(db, who)[w := wallet.balance];
      SumSet(Balances(db, who), w, wallet.balance);
    } else {
      assert Balances(next, who) == Balances(db, who);
    }
  }

  /** Replacing a row that was not a completed deposit by `tx`. */
  lemma CompletionRaisesDeposits(db: Db, t: TxId, tx: Tx, who: Scope)
    requires t in db.txs ==> !(db.txs[t].kind.Deposit? && db.txs[t].status.Completed?)
    ensures Sum(CompletedDeposits(db.(txs := db.txs[t := tx]), who)) ==
              Sum(CompletedDeposits(db, who))
                + (if tx.kind.Deposit? && tx.status.Completed? && Counts(who, tx.userId, tx.currency) then tx.amount else 0)
  {
    var before, after := CompletedDeposits(db, who), CompletedDeposits(db.(txs := db.txs[t := tx]), who);
    if tx.kind.Deposit? && tx.status.Completed? && Counts(who, tx.userId, tx.currency) {
      assert after == before[t := tx.amount];
      SumSet(before, t, tx.amount);
    } else {
      assert after.Keys == before.Keys;
      assert after == before;
    }
  }

  /** The deposit is credited to the wallet that its row names. */
  predicate CreditsNamed(db: Db, id: TxId, weather: Weather) {
    !weather.dbFails && id in db.txs && db.txs[id].status.Pending? && db.txs[id].walletId.Some? && Creditable(db, db.txs[id])
  }

  /** What completing the deposit credits within the scope less what it completes within it: only a
      wallet named by the row can be in another currency than the row. */
  function Misplaced(db: Db, id: TxId, weather: Weather, who: Scope): int {
    if !CreditsNamed(db, id, weather) then 0
    else
      var tx := db.txs[id];
      (if Counts(who, tx.userId, db.wallets[tx.walletId.value].currency) then tx.amount else 0)
        - (if Counts(who, tx.userId, tx.currency) then tx.amount else 0)
  }

  /** Crediting and completing one deposit together. */
  lemma CreditedAndCompleted(db: Db, id: TxId, done: Tx, wallets: map<WalletId, Wallet>, credited: int, who: Scope)
    requires id in db.txs && db.txs[id].status.Pending? && done.kind.Deposit? && done.status.Completed?
    requires Sum(Balances(db.(wallets := wallets), who)) == Sum(Balances(db, who)) + credited
    ensures Excess(Db(db.txs[id := done], wallets), who) ==
              Excess(db, who) + credited - (if Counts(who, done.userId, done.currency) then done.amount else 0)
  {
    var next := Db(db.txs[id := done], wallets);
    CompletionRaisesDeposits(db, id, done, who);
    assert Balances(next, who) == Balances(db.(wallets := wallets), who);
    assert CompletedDeposits(next, who) == CompletedDeposits(db.(txs := next.txs), who);
  }

  lemma CompleteDepositMovesExcess(db: Db, id: TxId, weather: Weather, who: Scope)
    requires Fits(db, id, weather) && (id in db.txs ==> db.txs[id].kind.Deposit?)
    ensures Excess(CompleteDeposit(db, id, weather).0, who) == Excess(db, who) + Misplaced(db, id, weather, who)
    ensures RowsKept(db, CompleteDeposit(db, id, weather).0)
  {
    if CompleteDeposit(db, id, weather).1.WasCompleted? {
      var tx, next := db.txs[id], CompleteDeposit(db, id, weather).0;
      var credited: int;
      if tx.walletId.None? && weather.found.None? {
        InsertRaisesBalances(db, weather.newWallet, Wallet(tx.userId, tx.currency, tx.amount), who);
        credited := if Counts(who, tx.userId, tx.currency) then tx.amount else 0;
      } else {
        var w := if tx.walletId.Some? then tx.walletId.value else weather.found.value;
        CreditRaisesBalances(db, w, tx.amount, who);
        credited := if Counts(who, tx.userId, db.wallets[w].currency) then tx.amount else 0;
      }
      CreditedAndCompleted(db, id, next.txs[id], next.wallets, credited, who);
    }
  }

  lemma SetStatusKeepsExcess(db: Db, id: TxId, status: TxStatus, who: Scope)
    requires id in db.txs && status.Completed? ==> !db.txs[id].kind.Deposit?
    ensures Excess(SetStatus(db, id, status), who) == Excess(db, who) && RowsKept(db, SetStatus(db, id, status))
  {
    if id in db.txs && db.txs[id].status.Pending? {
      CompletionRaisesDeposits(db, id, db.txs[id].(status := status), who);
      assert Balances(SetStatus(db, id, status), who) == Balances(db, who);
    }
  }

  function MisplacedBy(db: Db, item: Item, answer: OnChain, weather: Weather, who: Scope): int {
    if answer.SUCCESS? && item.kind.Deposit? then Misplaced(db, item.id, weather, who) else 0
  }

  /** Settling any row, whatever the chain answered and however late, moves balances and completed
      deposits together, for everyone, every user and every currency, but for what it misplaces. */
  lemma SettleMovesExcess(db: Db, item: Item, answer: OnChain, now: int, timeoutMs: int, weather: Weather, who: Scope)
    requires Matches(db, item) && Fits(db, item.id, weather)
    ensures Excess(Settle(db, item, answer, now, timeoutMs, weather).0, who) == Excess(db, who) + MisplacedBy(db, item, answer, weather, who)
    ensures RowsKept(db, Settle(db, item, answer, now, timeoutMs, weather).0)
  {
    hide Excess, CompleteDeposit, SetStatus, Misplaced;
    if answer.SUCCESS? && item.kind.Deposit? {
      CompleteDepositMovesExcess(db, item.id, weather, who);
    } else {
      SetStatusKeepsExcess(db, item.id, if answer.SUCCESS? then Completed else Failed, who);
    }
  }

  // ---- Runs -------------------------------------------------------------------------

  /** Sweeps hold items that match their rows, and only answers the chain really gave. */
  ghost predicate Inv(s: State) {
    forall sid :: sid in s.sweeps ==>
      && (forall i :: 0 <= i < |s.sweeps[sid].todo| ==> Matches(s.db, s.sweeps[sid].todo[i]))
      && (s.sweeps[sid].answer == Some(SUCCESS) && s.sweeps[sid].todo != [] ==> s.sweeps[sid].todo[0].hash in s.confirmed)
      && (s.sweeps[sid].answer == Some(FAILED) && s.sweeps[sid].todo != [] ==> s.sweeps[sid].todo[0].hash in s.refuted)
  }

  /** The row may be failed: the chain refuted its hash, or its time is up. */
  predicate DueToFail(s: State, tx: Tx) {
    (tx.hash.Some? && tx.hash.value in s.refuted) || s.now - tx.createdAt >= s.timeoutMs
  }

  ghost predicate StepFacts(s: State, next: State, who: Scope, misplaced: int) {
    && Excess(next.db, who) == Excess(s.db, who) + misplaced
    && RowsKept(s.db, next.db)
    && s.confirmed <= next.confirmed && s.refuted <= next.refuted && s.now <= next.now && s.timeoutMs == next.timeoutMs
    && (forall t :: t in s.db.txs && s.db.txs[t].status.Pending? && next.db.txs[t].status.Failed? ==> DueToFail(next, s.db.txs[t]))
    && (forall t :: t in s.db.txs && s.db.txs[t].status.Pending? && next.db.txs[t].status.Completed? ==>
          s.db.txs[t].hash.Some? && s.db.txs[t].hash.value in next.confirmed)
  }

  function MisplacedAt(s: State, e: Event, who: Scope): int {
    if e.SettleFirst? && Enabled(s, e) then
      var sweep := s.sweeps[e.sid];
      MisplacedBy(s.db, sweep.todo[0], sweep.answer.value, e.weather, who)
    else 0
  }

  function TotalMisplaced(s: State, events: seq<Event>, who: Scope): int
    decreases |events|
  {
    if events == [] then 0 else MisplacedAt(s, events[0], who) + TotalMisplaced(Apply(s, events[0]), events[1..], who)
  }

  lemma RecordKeepsExcess(db: Db, id: TxId, tx: Tx, who: Scope)
    requires id !in db.txs && tx.status.Pending?
    ensures Excess(db.(txs := db.txs[id := tx]), who) == Excess(db, who)
  {
    CompletionRaisesDeposits(db, id, tx, who);
    assert Balances(db.(txs := db.txs[id := tx]), who) == Balances(db, who);
  }

  lemma OnlySettledRowChanges(db: Db, item: Item, answer: OnChain, now: int, timeoutMs: int, weather: Weather)
    requires Matches(db, item) && Fits(db, item.id, weather)
    ensures var next := Settle(db, item, answer, now, timeoutMs, weather).0;
            && next.txs.Keys == db.txs.Keys
            && (forall t :: t in next.txs && t != item.id ==> t in db.txs && next.txs[t] == db.txs[t])
            && (next.txs[item.id].status.Completed? && db.txs[item.id].status.Pending? ==> answer.SUCCESS?)
            && (next.txs[item.id].status.Failed? && db.txs[item.id].status.Pending? ==>
                  answer.FAILED? || now - item.createdAt >= timeoutMs)
  {}

  lemma SettleStep(s: State, sid: SweepId, weather: Weather, who: Scope)
    requires Inv(s) && Enabled(s, SettleFirst(sid, weather))
    ensures var next := Apply(s, SettleFirst(sid, weather));
      Inv(next) && StepFacts(s, next, who, MisplacedAt(s, SettleFirst(sid, weather), who))
  {
    hide Excess, Settle, RowsKept, QueryAnswers, MisplacedBy;
    var sweep, next := s.sweeps[sid], Apply(s, SettleFirst(sid, weather));
    SettleMovesExcess(s.db, sweep.todo[0], sweep.answer.value, s.now, s.timeoutMs, weather, who);
    OnlySettledRowChanges(s.db, sweep.todo[0], sweep.answer.value, s.now, s.timeoutMs, weather);
    hide Fits, Apply, Enabled;
    SweepsStillMatch(s, next, sid);
  }

  lemma SweepsStillMatch(s: State, next: State, sid: SweepId)
    requires Inv(s) && sid in s.sweeps && s.sweeps[sid].todo != []
    requires RowsKept(s.db, next.db) && next == s.(db := next.db, sweeps := s.sweeps[sid := Rest(s.sweeps[sid])])
    ensures Inv(next)
  {}

  lemma ListStep(s: State, sid: SweepId, order: seq<TxId>)
    requires Inv(s) && Enabled(s, List(sid, order))
    ensures Inv(Apply(s, List(sid, order)))
  {}

  lemma StepKeeps(s: State, e: Event, who: Scope)
    requires Inv(s)
    ensures Inv(Apply(s, e)) && StepFacts(s, Apply(s, e), who, MisplacedAt(s, e, who))
  {
    hide Excess, Settle, MisplacedBy;
    if Enabled(s, e) {
      match e
      case Tick(_) =>
      case Record(id, tx) => RecordStep(s, id, tx, who);
      case List(sid, order) => ListStep(s, sid, order);
      case ChainAnswers(_, _) => ChainStep(s, e);
      case ChainFails(_) => ChainStep(s, e);
      case SettleFirst(sid, weather) => SettleStep(s, sid, weather, who);
    }
  }

  lemma RecordStep(s: State, id: TxId, tx: Tx, who: Scope)
    requires Inv(s) && Enabled(s, Record(id, tx))
    ensures var next := Apply(s, Record(id, tx)); Inv(next) && StepFacts(s, next, who, 0)
  {
    RecordKeepsExcess(s.db, id, tx, who);
    hide Excess;
  }

  lemma ChainStep(s: State, e: Event)
    requires Inv(s) && Enabled(s, e) && (e.ChainAnswers? || e.ChainFails?)
    ensures Inv(Apply(s, e))
  {}

  lemma StepFactsChain(a: State, b: State, c: State, who: Scope, misplaced: int, further: int)
    requires StepFacts(a, b, who, misplaced) && StepFacts(b, c, who, further)
    ensures StepFacts(a, c, who, misplaced + further)
  {
    hide Excess;
  }

  lemma {:induction false} RunKeeps(s: State, events: seq<Event>, who: Scope)
    requires Inv(s)
    ensures Inv(Run(s, events)) && StepFacts(s, Run(s, events), who, TotalMisplaced(s, events, who))
    decreases |events|
  {
    hide Inv, StepFacts, MisplacedAt;
    if events == [] {
      RunNothing(s, who);
    } else {
      var next := Apply(s, events[0]);
      StepKeeps(s, events[0], who);
      RunKeeps(next, events[1..], who);
      StepFactsChain(s, next, Run(next, events[1..]), who, MisplacedAt(s, events[0], who), TotalMisplaced(next, events[1..], who));
    }
  }

  lemma RunNothing(s: State, who: Scope)
    ensures StepFacts(s, s, who, 0)
  {}

  const EVERYONE := Scope(None, None)

  /** Deposits of `who` that a run completed. */
  ghost function NewlyCompleted(before: Db, after: Db, who: Scope): map<TxId, int> {
    CompletedDeposits(after, who) - CompletedDeposits(before, who).Keys
  }

  /** Under every interleaving of sweeps, chain answers, failures and newly recorded rows, the balances
      in any scope grow by the deposits completed in it, but for those credited in another currency. */
  lemma BalancesGrowPerScope(s: State, events: seq<Event>, who: Scope)
    requires Inv(s)
    ensures Sum(Balances(Run(s, events).db, who)) ==
              Sum(Balances(s.db, who)) + Sum(NewlyCompleted(s.db, Run(s, events).db, who)) + TotalMisplaced(s, events, who)
  {
    RunKeeps(s, events, who);
    var before, after := CompletedDeposits(s.db, who), CompletedDeposits(Run(s, events).db, who);
    forall t | t in before ensures t in after && after[t] == before[t] {}
    SumOfExtension(before, after);
  }

  lemma {:induction false} AnyCurrencyMisplacesNothing(s: State, events: seq<Event>, who: Scope)
    requires who.currency.None?
    ensures TotalMisplaced(s, events, who) == 0
    decreases |events|
  {
    hide Apply, Enabled;
    if events != [] { AnyCurrencyMisplacesNothing(Apply(s, events[0]), events[1..], who); }
  }

  /** Currencies aside, the balances grow by exactly the deposits completed in the run; for `user`, by
      that user's alone: each deposit is credited once, to its owner. */
  lemma BalancesGrowByCompletedDeposits(s: State, events: seq<Event>, user: Option<string>)
    requires Inv(s)
    ensures var who := Scope(user, None);
            Sum(Balances(Run(s, events).db, who)) ==
              Sum(Balances(s.db, who)) + Sum(NewlyCompleted(s.db, Run(s, events).db, who))
  {
    AnyCurrencyMisplacesNothing(s, events, Scope(user, None));
    BalancesGrowPerScope(s, events, Scope(user, None));
  }

  /** The step completes a deposit into the named wallet, which is in another currency. */
  predicate Crosses(s: State, e: Event) {
    && e.SettleFirst? && Enabled(s, e) && s.sweeps[e.sid].answer.value.SUCCESS? && s.sweeps[e.sid].todo[0].kind.Deposit?
    && var id := s.sweeps[e.sid].todo[0].id;
    CreditsNamed(s.db, id, e.weather) && s.db.txs[id].amount != 0
      && s.db.wallets[s.db.txs[id].walletId.value].currency != s.db.txs[id].currency
  }

  lemma CrossesExactly(s: State, e: Event)
    ensures (forall who :: MisplacedAt(s, e, who) == 0) <==> !Crosses(s, e)
  {
    if Crosses(s, e) {
      var tx := s.db.txs[s.sweeps[e.sid].todo[0].id];
      assert MisplacedAt(s, e, Scope(None, Some(tx.currency))) == -tx.amount;
    }
  }

  /** At every step of the run, for everyone, every user and every currency, balances and completed
      deposits move together. */
  ghost predicate AlwaysConserved(s: State, events: seq<Event>)
    decreases |events|
  {
    events == [] ||
    ((forall who :: Excess(Apply(s, events[0]).db, who) == Excess(s.db, who)) && AlwaysConserved(Apply(s, events[0]), events[1..]))
  }

  predicate NeverCrosses(s: State, events: seq<Event>)
    decreases |events|
  {
    events == [] || (!Crosses(s, events[0]) && NeverCrosses(Apply(s, events[0]), events[1..]))
  }

  /** Conservation per currency holds throughout a run if and only if every deposit completed into the
      wallet its row names is in that wallet's currency. */
  lemma {:induction false} ConservedPerCurrencyExactly(s: State, events: seq<Event>)
    requires Inv(s)
    ensures AlwaysConserved(s, events) <==> NeverCrosses(s, events)
    decreases |events|
  {
    hide Inv, Excess, MisplacedAt, Crosses, Apply;
    if events != [] {
      var e, next := events[0], Apply(s, events[0]);
      CrossesExactly(s, e);
      forall who ensures Excess(next.db, who) == Excess(s.db, who) + MisplacedAt(s, e, who) && Inv(next) { StepKeeps(s, e, who); }
      StepKeeps(s, e, EVERYONE);
      ConservedPerCurrencyExactly(next, events[1..]);
    }
  }

  /** The code does not compare them: a deposit of 100 NGN whose row names a USDC wallet adds 100 USDC. */
  lemma NairaCountAsDollars(hash: string)
    ensures var tx := Tx("u", Some(0), Deposit, 100, "NGN", Pending, Some(hash), 0);
            var db := Db(map[0 := tx], map[0 := Wallet("u", "USDC", 0)]);
            CompleteDeposit(db, 0, Weather(false, None, 1)) ==
              (Db(map[0 := tx.(status := Completed)], map[0 := Wallet("u", "USDC", 100)]), WasCompleted)
  {
    var tx := Tx("u", Some(0), Deposit, 100, "NGN", Pending, Some(hash), 0);
    var db := Db(map[0 := tx], map[0 := Wallet("u", "USDC", 0)]);
    assert Credited(db.wallets, 0, 100) == map[0 := Wallet("u", "USDC", 100)];
    assert db.txs[0 := tx.(status := Completed)] == map[0 := tx.(status := Completed)];
  }

  // ---- Where a deposit goes ---------------------------------------------------------

  ghost predicate HasWallet(db: Db, userId: string, currency: string) {
    exists w :: w in db.wallets && db.wallets[w].userId == userId && db.wallets[w].currency == currency
  }

  /** The wallets are those of `db` but for the one that the row names now: raised by the row's amount
      if it was there, and otherwise new, of the row's user and currency, holding the amount. */
  ghost predicate WalletRaised(db: Db, next: Db, tx: Tx, w: WalletId) {
    next.wallets == db.wallets[w := if w in db.wallets then db.wallets[w].(balance := db.wallets[w].balance + tx.amount)
                                    else Wallet(tx.userId, tx.currency, tx.amount)]
  }

  /** A pending deposit is completed exactly when its transaction goes through and the wallet it names, if
      any, is its user's. It then goes to that wallet; if it names none, to one its user already has in
      its currency, and to a new one if and only if there is none. The row keeps its wallet. */
  lemma DepositReachesItsWallet(db: Db, id: TxId, weather: Weather)
    requires Fits(db, id, weather) && id in db.txs && db.txs[id].status.Pending?
    ensures var (next, verdict) := CompleteDeposit(db, id, weather);
      var tx := db.txs[id];
      if weather.dbFails || !Creditable(db, tx) then verdict.Errored? && next == db
      else
        && verdict.WasCompleted? && id in next.txs && next.txs[id].walletId.Some?
        && var w := next.txs[id].walletId.value;
        && next.txs == db.txs[id := tx.(status := Completed, walletId := Some(w))] && WalletRaised(db, next, tx, w)
        && next.wallets[w].userId == tx.userId
        && (tx.walletId.Some? ==> tx.walletId.value == w)
        && (tx.walletId.None? ==>
              next.wallets[w].currency == tx.currency && (next.wallets.Keys == db.wallets.Keys <==> HasWallet(db, tx.userId, tx.currency)))
  {
    if db.txs[id].walletId.None? && weather.found.None? && !weather.dbFails {
      assert weather.newWallet in CompleteDeposit(db, id, weather).0.wallets.Keys;
    }
  }

  predicate SameScope(a: Wallet, b: Wallet) { a.userId == b.userId && a.currency == b.currency }

  /** No user has two wallets of one currency, as the schema's constraint demands: an insert that another
      one beats breaks off. */
  ghost predicate OneWalletEach(db: Db) {
    forall v, w :: v in db.wallets && w in db.wallets && SameScope(db.wallets[v], db.wallets[w]) ==> v == w
  }

  lemma SettleKeepsOneWalletEach(db: Db, item: Item, answer: OnChain, now: int, timeoutMs: int, weather: Weather)
    requires OneWalletEach(db) && Fits(db, item.id, weather)
    ensures OneWalletEach(Settle(db, item, answer, now, timeoutMs, weather).0)
  {}

  /** If no user starts with two wallets of one currency, none ever has two, however sweeps interleave. */
  lemma {:induction false} RunKeepsOneWalletEach(s: State, events: seq<Event>)
    requires OneWalletEach(s.db)
    ensures OneWalletEach(Run(s, events).db)
    decreases |events|
  {
    hide OneWalletEach, Apply;
    if events != [] {
      StepKeepsOneWalletEach(s, events[0]);
      RunKeepsOneWalletEach(Apply(s, events[0]), events[1..]);
    }
  }

  lemma StepKeepsOneWalletEach(s: State, e: Event)
    requires OneWalletEach(s.db)
    ensures OneWalletEach(Apply(s, e).db)
  {
    hide Settle;
    if e.SettleFirst? && Enabled(s, e) {
      var sweep := s.sweeps[e.sid];
      SettleKeepsOneWalletEach(s.db, sweep.todo[0], sweep.answer.value, s.now, s.timeoutMs, e.weather);
    }
  }

  /** A row that has left `pending` never changes again, and no row changes its owner, amount,
      kind, currency or hash. */
  lemma {:induction false} SettledRowsAreFinal(s: State, events: seq<Event>, t: TxId)
    requires Inv(s) && t in s.db.txs
    ensures t in Run(s, events).db.txs
    ensures var before, after := s.db.txs[t], Run(s, events).db.txs[t];
            && (!before.status.Pending? ==> after == before)
            && after == before.(status := after.status, walletId := after.walletId)
  {
    RunKeeps(s, events, EVERYONE);
  }

  /** A row completes only after the chain reported success for its own hash. */
  lemma {:induction false} CompletedOnlyWhenConfirmed(s: State, events: seq<Event>, t: TxId)
    requires Inv(s) && t in s.db.txs && s.db.txs[t].status.Pending?
    requires t in Run(s, events).db.txs && Run(s, events).db.txs[t].status.Completed?
    ensures s.db.txs[t].hash.Some? && s.db.txs[t].hash.value in Run(s, events).confirmed
  {
    RunKeeps(s, events, EVERYONE);
  }

  /** A row fails only after the chain reported failure for its own hash, or after the timeout. */
  lemma {:induction false} FailedOnlyWhenDue(s: State, events: seq<Event>, t: TxId)
    requires Inv(s) && t in s.db.txs && s.db.txs[t].status.Pending?
    requires t in Run(s, events).db.txs && Run(s, events).db.txs[t].status.Failed?
    ensures DueToFail(Run(s, events), s.db.txs[t])
  {
    RunKeeps(s, events, EVERYONE);
  }

  /** What the step decides about a pending row: the status it gets, or None. */
  function Decision(s: State, e: Event, t: TxId): Option<TxStatus> {
    if !(e.SettleFirst? && Enabled(s, e) && s.sweeps[e.sid].todo[0].id == t && t in s.db.txs) then None
    else
      var answer, tx := s.sweeps[e.sid].answer.value, s.db.txs[t];
      if e.weather.dbFails then None
      else if answer.SUCCESS? then (if tx.kind.Deposit? && !Creditable(s.db, tx) then None else Some(Completed))
      else if answer.FAILED? || s.now - tx.createdAt >= s.timeoutMs then Some(Failed)
      else None
  }

  /** The first decision about the row in a run. */
  function FirstDecision(s: State, events: seq<Event>, t: TxId): Option<TxStatus>
    decreases |events|
  {
    if events == [] then None
    else if Decision(s, events[0], t).Some? then Decision(s, events[0], t)
    else FirstDecision(Apply(s, events[0]), events[1..], t)
  }

  lemma StepDecides(s: State, e: Event, t: TxId)
    requires Inv(s) && t in s.db.txs && s.db.txs[t].status.Pending?
    ensures t in Apply(s, e).db.txs
    ensures Apply(s, e).db.txs[t].status == if Decision(s, e, t).Some? then Decision(s, e, t).value else Pending
  {
    if e.SettleFirst? && Enabled(s, e) {
      assert Matches(s.db, s.sweeps[e.sid].todo[0]);
    }
  }

  /** However sweeps interleave, a pending row ends in the status that the first decision about it
      gives: it stays pending if and only if every sweep that reached it found the chain undecided and
      its time not up, or its database transaction broke off, or it names a wallet not its user's. */
  lemma {:induction false} StatusIsFirstDecision(s: State, events: seq<Event>, t: TxId)
    requires Inv(s) && t in s.db.txs && s.db.txs[t].status.Pending?
    ensures t in Run(s, events).db.txs
    ensures Run(s, events).db.txs[t].status ==
              if FirstDecision(s, events, t).Some? then FirstDecision(s, events, t).value else Pending
    decreases |events|
  {
    hide Inv, Apply, Decision;
    if events != [] {
      var next := Apply(s, events[0]);
      StepKeeps(s, events[0], EVERYONE);
      StepDecides(s, events[0], t);
      DecisionIsFinal(s, events[0], t);
      if Decision(s, events[0], t).Some? { SettledRowsAreFinal(next, events[1..], t); } else { StatusIsFirstDecision(next, events[1..], t); }
    }
  }

  lemma DecisionIsFinal(s: State, e: Event, t: TxId)
    ensures Decision(s, e, t) != Some(Pending)
  {}
}

/** The database in place, one sweep's loop over it, and the overlap guard around sweeps. */
module VerifierJob {
  import opened Numbers
  import opened Outcomes
  import opened Verifier
  import opened VerifierProofs

  datatype Summary = Summary(checked: nat, completed: nat, failed: nat, pending: nat, errors: nat)

  /** What a sweep that has the database to itself makes of a pending row it listed. */
  function VerdictOf(db: Db, tx: Tx, answer: Option<OnChain>, now: int, timeoutMs: int, dbFails: bool): Verdict {
    if answer.None? then Errored
    else if answer.value.SUCCESS? then
      if dbFails || (tx.kind.Deposit? && !Creditable(db, tx)) then Errored else WasCompleted
    else if answer.value.FAILED? || now - tx.createdAt >= timeoutMs then (if dbFails then Errored else WasFailed)
    else StillPending
  }

  function StatusAfter(verdict: Verdict): TxStatus {
    match verdict
    case WasCompleted => Completed
    case WasFailed => Failed
    case _ => Pending
  }

  /** The row ends in the verdict's status, otherwise as it was; a completed deposit names a wallet
      of its user, the one it named before if it named one. */
  predicate Decided(before: Tx, after: Tx, wallets: map<WalletId, Wallet>, verdict: Verdict) {
    && after == before.(status := StatusAfter(verdict), walletId := after.walletId)
    && (after.walletId != before.walletId ==> before.walletId.None? && before.kind.Deposit? && verdict.WasCompleted?)
    && (before.kind.Deposit? && verdict.WasCompleted? ==>
          after.walletId.Some? && after.walletId.value in wallets && wallets[after.walletId.value].userId == before.userId)
  }

  class Database {
    var txs: map<TxId, Tx>
    var wallets: map<WalletId, Wallet>

    ghost function Model(): Db
      reads this
    {
      Db(txs, wallets)
    }

    method ListPending() returns (order: seq<TxId>)
      ensures IsListing(Model(), order)
      ensures forall id :: id in order <==> id in txs && txs[id].status.Pending? && txs[id].hash.Some?
    {
      order := [];
      var left := txs.Keys;
      while left != {}
        invariant left <= txs.Keys && AllListed(Model(), order)
        invariant forall i, j :: 0 <= i < j < |order| ==> order[i] != order[j]
        invariant forall id :: id in order ==> id !in left
        invariant forall id :: id in txs && IsListed(txs[id]) && id !in left ==> id in order
        decreases |left|
      {
        var id :| id in left;
        left := left - {id};
        if IsListed(txs[id]) { order := order + [id]; }
      }
    }

    method FindWallet(userId: string, currency: string) returns (found: Option<WalletId>)
      ensures QueryAnswers(wallets, userId, currency, found)
    {
      var left := wallets.Keys;
      while left != {}
        invariant left <= wallets.Keys
        invariant forall w :: w in wallets.Keys - left ==> !(wallets[w].userId == userId && wallets[w].currency == currency)
        decreases |left|
      {
        var w :| w in left;
        left := left - {w};
        if wallets[w].userId == userId && wallets[w].currency == currency { return Some(w); }
      }
      found := None;
    }

    method NewWalletId() returns (w: WalletId)
      ensures w !in wallets && forall t :: t in txs ==> txs[t].walletId != Some(w)
    {
      w := 0;
      var used := wallets.Keys + set t | t in txs && txs[t].walletId.Some? :: txs[t].walletId.value;
      var left := used;
      while left != {}
        invariant left <= used && forall v :: v in used && v !in left ==> v < w
        decreases |left|
      {
        var v :| v in left;
        left := left - {v};
        if v >= w { w := v + 1; }
      }
      assert forall t :: t in txs && txs[t].walletId.Some? ==> txs[t].walletId.value in used;
    }

    /** Credit and completion commit together; a throw, at whatever point, rolls both back. */
    method CompleteDeposit(id: TxId, dbFails: bool) returns (verdict: Verdict, weather: Weather)
      modifies this
      ensures weather.dbFails == dbFails && Fits(old(Model()), id, weather)
      ensures (Model(), verdict) == Verifier.CompleteDeposit(old(Model()), id, weather)
    {
      var txsBefore, walletsBefore := txs, wallets;
      var newWallet := NewWalletId();
      var found := None;
      if id in txs { found := FindWallet(txs[id].userId, txs[id].currency); }
      weather := Weather(dbFails, found, newWallet);
      if id !in txs || !txs[id].status.Pending? {
        return if dbFails then Errored else WasSettledElsewhere, weather;
      }
      var tx := txs[id];
      var walletId := tx.walletId;
      if walletId.Some? {
        if !(walletId.value in wallets && wallets[walletId.value].userId == tx.userId) { return Errored, weather; }
        wallets := Credited(wallets, walletId.value, tx.amount);
      } else if found.Some? {
        walletId := found;
        wallets := Credited(wallets, found.value, tx.amount);
      } else {
        walletId := Some(newWallet);
        wallets := wallets[newWallet := Wallet(tx.userId, tx.currency, tx.amount)];
      }
      txs := txs[id := tx.(status := Completed, walletId := walletId)];
      if dbFails {
        txs, wallets := txsBefore, walletsBefore;
        return Errored, weather;
      }
      verdict := WasCompleted;
    }

    method UpdateStatus(id: TxId, status: TxStatus)
      modifies `txs
      ensures Model() == SetStatus(old(Model()), id, status)
    {
      if id in txs && txs[id].status.Pending? {
        txs := txs[id := txs[id].(status := status)];
      }
    }

    /** Settles one listed row and counts it. */
    method SettleItem(item: Item, answer: OnChain, now: int, timeoutMs: int, dbFails: bool) returns (verdict: Verdict, ghost weather: Weather)
      modifies this
      ensures weather.dbFails == dbFails && Fits(old(Model()), item.id, weather)
      ensures (Model(), verdict) == Settle(old(Model()), item, answer, now, timeoutMs, weather)
    {
      if answer.SUCCESS? && item.kind.Deposit? {
        verdict, weather := CompleteDeposit(item.id, dbFails);
        return;
      }
      var newWallet := NewWalletId();
      var found := None;
      if item.id in txs { found := FindWallet(txs[item.id].userId, txs[item.id].currency); }
      weather := Weather(dbFails, found, newWallet);
      if answer.SUCCESS? {
        if dbFails { return Errored, weather; }
        UpdateStatus(item.id, Completed);
        return WasCompleted, weather;
      }
      var hasTimedOut := now - item.createdAt >= timeoutMs;
      if answer.FAILED? || hasTimedOut {
        if dbFails { return Errored, weather; }
        UpdateStatus(item.id, Failed);
        return WasFailed, weather;
      }
      verdict := StillPending;
    }

    /** One sweep on its own: the i-th listed row gets the i-th answer (none if the call throws).
        Every row ends as its own verdict says, the summary counts the rows by how they ended, and
        balances move only with completed deposits. */
    method Reconcile(script: Script) returns (summary: Summary, order: seq<TxId>)
      modifies this
      ensures forall id :: id in order <==> id in old(txs) && old(txs)[id].status.Pending? && old(txs)[id].hash.Some?
      ensures IsListing(old(Model()), order) && Swept(old(Model()), Model(), order, |order|, script)
      ensures summary.checked == |order| == summary.completed + summary.failed + summary.pending + summary.errors
      ensures summary.completed == NumberWith(Model(), order, |order|, Completed)
      ensures summary.failed == NumberWith(Model(), order, |order|, Failed)
      ensures summary.errors == Tally(old(Model()), order, |order|, script, Errored)
    {
      hide Swept, Settle, Fits, VerdictAt, IsListed, SummaryOf;
      summary := Summary(0, 0, 0, 0, 0);
      order := ListPending();
      SweptNothing(Model(), order, script);
      SummaryStarts(Model(), order, script);
      var items := Items(Db(txs, wallets), order);
      var i := 0;
      while i < |order|
        invariant 0 <= i <= |order|
        invariant summary == SummaryOf(old(Model()), order, i, script)
        invariant Swept(old(Model()), Model(), order, i, script)
      {
        summary := summary.(checked := summary.checked + 1);
        var answer := script.rpc(i);
        ghost var before := Model();
        SummaryStep(old(Model()), order, i, script);
        if answer.None? {
          summary := summary.(errors := summary.errors + 1);
          SweepPasses(old(Model()), before, order, i, script);
        } else {
          ghost var weather;
          var verdict;
          verdict, weather := SettleItem(items[i], answer.value, script.clock(i), script.timeoutMs, script.dbFails(i));
          SweepSettles(old(Model()), before, order, i, script, weather);
          match verdict
          case WasCompleted => summary := summary.(completed := summary.completed + 1);
          case WasFailed => summary := summary.(failed := summary.failed + 1);
          case StillPending => summary := summary.(pending := summary.pending + 1);
          case Errored => summary := summary.(errors := summary.errors + 1);
          case WasSettledElsewhere =>
        }
        i := i + 1;
      }
      SummaryAddsUp(old(Model()), Model(), order, script);
    }
  }

  /** What a sweep meets: the chain's answers, the clock, and which database transactions break off. */
  datatype Script = Script(rpc: nat -> Option<OnChain>, clock: nat -> int, timeoutMs: int, dbFails: nat -> bool)

  /** The verdict on the i-th listed row, from the database as the sweep found it. */
  function VerdictAt(before: Db, order: seq<TxId>, i: nat, script: Script): Verdict
    requires AllListed(before, order) && i < |order|
  {
    assert order[i] in order;
    VerdictOf(before, before.txs[order[i]], script.rpc(i), script.clock(i), script.timeoutMs, script.dbFails(i))
  }

  /** How many of the first `n` listed rows got the verdict. */
  function Tally(before: Db, order: seq<TxId>, n: nat, script: Script, verdict: Verdict): nat
    requires AllListed(before, order) && n <= |order|
  {
    if n == 0 then 0 else Tally(before, order, n - 1, script, verdict) + Count(VerdictAt(before, order, n - 1, script) == verdict)
  }

  /** How many of the first `n` listed rows are in the status. */
  function NumberWith(db: Db, order: seq<TxId>, n: nat, status: TxStatus): nat
    requires n <= |order|
  {
    if n == 0 then 0
    else NumberWith(db, order, n - 1, status) + Count(order[n - 1] in db.txs && db.txs[order[n - 1]].status == status)
  }

  ghost function SummaryOf(before: Db, order: seq<TxId>, n: nat, script: Script): Summary
    requires AllListed(before, order) && n <= |order|
  {
    Summary(n, Tally(before, order, n, script, WasCompleted), Tally(before, order, n, script, WasFailed),
            Tally(before, order, n, script, StillPending), Tally(before, order, n, script, Errored))
  }

  /** One more row checked, with its verdict. */
  function Noted(s: Summary, verdict: Verdict): Summary {
    var t := s.(checked := s.checked + 1);
    match verdict
    case WasCompleted => t.(completed := t.completed + 1)
    case WasFailed => t.(failed := t.failed + 1)
    case StillPending => t.(pending := t.pending + 1)
    case Errored => t.(errors := t.errors + 1)
    case WasSettledElsewhere => t
  }

  lemma SummaryStarts(before: Db, order: seq<TxId>, script: Script)
    requires AllListed(before, order)
    ensures SummaryOf(before, order, 0, script) == Summary(0, 0, 0, 0, 0)
  {}

  lemma SummaryStep(before: Db, order: seq<TxId>, n: nat, script: Script)
    requires AllListed(before, order) && n < |order|
    ensures SummaryOf(before, order, n + 1, script) == Noted(SummaryOf(before, order, n, script), VerdictAt(before, order, n, script))
  {
    hide VerdictAt, AllListed;
  }

  lemma SummaryAddsUp(before: Db, now: Db, order: seq<TxId>, script: Script)
    requires AllListed(before, order) && Swept(before, now, order, |order|, script)
    ensures var s := SummaryOf(before, order, |order|, script);
            && s.checked == |order| == s.completed + s.failed + s.pending + s.errors
            && s.completed == NumberWith(now, order, |order|, Completed) && s.failed == NumberWith(now, order, |order|, Failed)
            && s.errors == Tally(before, order, |order|, script, Errored)
  {
    hide Swept, AllListed;
    TalliesAddUp(before, order, |order|, script);
    TalliesAreStatuses(before, now, order, |order|, script);
  }

  /** No verdict is left out: a row listed pending was not settled elsewhere. */
  lemma {:induction false} TalliesAddUp(before: Db, order: seq<TxId>, n: nat, script: Script)
    requires AllListed(before, order) && n <= |order|
    ensures var s := SummaryOf(before, order, n, script); s.checked == s.completed + s.failed + s.pending + s.errors
  {
    hide AllListed;
    if n > 0 { TalliesAddUp(before, order, n - 1, script); }
  }

  lemma {:induction false} TalliesAreStatuses(before: Db, now: Db, order: seq<TxId>, n: nat, script: Script)
    requires AllListed(before, order) && n <= |order| && Swept(before, now, order, |order|, script)
    ensures Tally(before, order, n, script, WasCompleted) == NumberWith(now, order, n, Completed)
    ensures Tally(before, order, n, script, WasFailed) == NumberWith(now, order, n, Failed)
  {
    hide RowsKept, WalletsKept, ExcessKept, VerdictOf;
    if n > 0 {
      TalliesAreStatuses(before, now, order, n - 1, script);
      assert order[n - 1] in order;
    }
  }

  ghost predicate ExcessKept(db: Db, next: Db) {
    forall who: Scope | who.currency.None? :: Excess(next, who) == Excess(db, who)
  }

  /** Wallets stay with their owners, and no new one bears an id that a row already named. */
  ghost predicate WalletsKept(before: Db, now: Db) {
    && (forall w :: w in before.wallets ==> w in now.wallets && now.wallets[w].userId == before.wallets[w].userId)
    && (forall w, t :: w in now.wallets && w !in before.wallets && t in before.txs ==> before.txs[t].walletId != Some(w))
  }

  lemma CreditableStays(before: Db, now: Db, t: TxId)
    requires WalletsKept(before, now) && t in before.txs
    ensures Creditable(now, before.txs[t]) <==> Creditable(before, before.txs[t])
  {}

  /** The first `n` listed rows are decided, each by its own verdict, and nothing else has moved. */
  ghost predicate Swept(before: Db, now: Db, order: seq<TxId>, n: nat, script: Script)
    requires AllListed(before, order)
  {
    && RowsKept(before, now) && WalletsKept(before, now) && ExcessKept(before, now)
    && (forall id :: id in order ==> id in before.txs && id in now.txs)
    && (forall i :: 0 <= i < n && i < |order| ==>
          Decided(before.txs[order[i]], now.txs[order[i]], now.wallets, VerdictAt(before, order, i, script)))
    && (forall i :: n <= i < |order| ==> now.txs[order[i]] == before.txs[order[i]])
    && (forall id :: id in now.txs && id !in order ==> id in before.txs && now.txs[id] == before.txs[id])
  }

  lemma SettledAlone(db: Db, item: Item, answer: OnChain, now: int, timeoutMs: int, weather: Weather)
    requires Matches(db, item) && db.txs[item.id].status.Pending? && Fits(db, item.id, weather)
    ensures var next := Settle(db, item, answer, now, timeoutMs, weather).0;
            var verdict := VerdictOf(db, db.txs[item.id], Some(answer), now, timeoutMs, weather.dbFails);
            && Settle(db, item, answer, now, timeoutMs, weather).1 == verdict
            && RowsKept(db, next) && WalletsKept(db, next) && ExcessKept(db, next)
            && (forall t :: t in next.txs && t != item.id ==> t in db.txs && next.txs[t] == db.txs[t])
            && Decided(db.txs[item.id], next.txs[item.id], next.wallets, verdict)
  {
    OnlySettledRowChanges(db, item, answer, now, timeoutMs, weather);
    SettleMovesExcess(db, item, answer, now, timeoutMs, weather, EVERYONE);
    forall who: Scope | who.currency.None? ensures Excess(Settle(db, item, answer, now, timeoutMs, weather).0, who) == Excess(db, who) {
      SettleMovesExcess(db, item, answer, now, timeoutMs, weather, who);
    }
    SettledAsJudged(db, item, answer, now, timeoutMs, weather);
  }

  lemma SettledAsJudged(db: Db, item: Item, answer: OnChain, now: int, timeoutMs: int, weather: Weather)
    requires Matches(db, item) && db.txs[item.id].status.Pending? && Fits(db, item.id, weather)
    ensures var (next, outcome) := Settle(db, item, answer, now, timeoutMs, weather);
            && outcome == VerdictOf(db, db.txs[item.id], Some(answer), now, timeoutMs, weather.dbFails)
            && WalletsKept(db, next)
            && Decided(db.txs[item.id], next.txs[item.id], next.wallets, outcome)
  {}

  lemma SweptNothing(db: Db, order: seq<TxId>, script: Script)
    requires AllListed(db, order)
    ensures Swept(db, db, order, 0, script)
  {}

  lemma SweepPasses(before: Db, mid: Db, order: seq<TxId>, n: nat, script: Script)
    requires IsListing(before, order) && Swept(before, mid, order, n, script) && n < |order| && script.rpc(n).None?
    ensures Swept(before, mid, order, n + 1, script) && VerdictAt(before, order, n, script) == Errored
  {
    assert order[n] in order && before.txs[order[n]].status.Pending?;
  }

  lemma SweepSettles(before: Db, mid: Db, order: seq<TxId>, n: nat, script: Script, weather: Weather)
    requires IsListing(before, order) && Swept(before, mid, order, n, script) && n < |order| && script.rpc(n).Some?
    requires order[n] in order && Fits(mid, order[n], weather) && weather.dbFails == script.dbFails(n)
    ensures var item := ItemOf(order[n], before.txs[order[n]]);
            var (next, verdict) := Settle(mid, item, script.rpc(n).value, script.clock(n), script.timeoutMs, weather);
            Swept(before, next, order, n + 1, script) && verdict == VerdictAt(before, order, n, script)
  {
    var item := ItemOf(order[n], before.txs[order[n]]);
    SettledAlone(mid, item, script.rpc(n).value, script.clock(n), script.timeoutMs, weather);
    CreditableStays(before, mid, order[n]);
    SweepAdvances(before, mid, Settle(mid, item, script.rpc(n).value, script.clock(n), script.timeoutMs, weather).0, order, n, script);
  }

  lemma SweepAdvances(before: Db, mid: Db, next: Db, order: seq<TxId>, n: nat, script: Script)
    requires IsListing(before, order) && Swept(before, mid, order, n, script) && n < |order|
    requires RowsKept(mid, next) && WalletsKept(mid, next) && ExcessKept(mid, next) && order[n] in next.txs
    requires forall t :: t in next.txs && t != order[n] ==> t in mid.txs && next.txs[t] == mid.txs[t]
    requires Decided(before.txs[order[n]], next.txs[order[n]], next.wallets, VerdictAt(before, order, n, script))
    ensures Swept(before, next, order, n + 1, script)
  {
    hide IsListed, VerdictAt, RowsKept, WalletsKept, ExcessKept, Decided;
    KeptChain(before, mid, next);
    assert forall id :: id in order ==> id in next.txs by { KeepsRows(mid, next); }
    forall i | 0 <= i < n
      ensures Decided(before.txs[order[i]], next.txs[order[i]], next.wallets, VerdictAt(before, order, i, script))
    {
      assert order[i] != order[n] && order[i] in order;
      DecidedStays(before.txs[order[i]], next.txs[order[i]], mid, next, VerdictAt(before, order, i, script));
    }
  }

  lemma KeepsRows(before: Db, now: Db)
    requires RowsKept(before, now)
    ensures forall t :: t in before.txs ==> t in now.txs
  {}

  lemma KeptChain(before: Db, mid: Db, next: Db)
    requires RowsKept(before, mid) && WalletsKept(before, mid) && ExcessKept(before, mid)
    requires RowsKept(mid, next) && WalletsKept(mid, next) && ExcessKept(mid, next)
    ensures RowsKept(before, next) && WalletsKept(before, next) && ExcessKept(before, next)
  {
    hide Excess;
  }

  lemma DecidedStays(before: Tx, after: Tx, mid: Db, next: Db, verdict: Verdict)
    requires Decided(before, after, mid.wallets, verdict) && WalletsKept(mid, next)
    ensures Decided(before, after, next.wallets, verdict)
  {}
}
