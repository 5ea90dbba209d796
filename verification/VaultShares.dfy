/** The share arithmetic of the DeFindex service: converting between USDC and vault shares,
    and runs of deposits and withdrawals priced by it. */
module VaultShares {
  import opened Outcomes
  import opened BigIntDivision
  import opened MapSums

  const PRICE_SCALE := 10_000_000
  const MAX_SAFE_INTEGER := 0x1F_FFFF_FFFF_FFFF

  datatype ShareError =
    | AmountNotPositive
    | AmountUnsafe
    | NoManagedAssets
    | FundsWithoutShares
    | SharesWithoutFunds
    | NoShares
    | NoFunds
    | InsufficientBalance(maxWithdrawable: int)
    | InsufficientShares(required: int)

  datatype Withdrawal = Withdrawal(sharesToBurn: int, expectedAssets: int, minAmountsOut: seq<int>, sharePrice: int)
  datatype Deposit = Deposit(sharePrice: int, estimatedShares: int)
  datatype Position = Position(sharePrice: int, underlying: int)

  /** The `reduce` over the managed assets. */
  function Total(assets: seq<int>): int {
    if assets == [] then 0 else assets[0] + Total(assets[1..])
  }

  function SharePrice(total: int, supply: int): int
    requires supply != 0
  {
    TruncDiv(total * PRICE_SCALE, supply)
  }

  /** Assets a number of shares is worth. */
  function AssetsFor(shares: int, total: int, supply: int): int
    requires supply != 0
  {
    TruncDiv(shares * total, supply)
  }

  function SharesToBurn(amount: int, total: int, supply: int): int
    requires total != 0
  {
    TruncDiv(amount * supply + total - 1, total)
  }

  function SharesForDeposit(amount: int, total: int, supply: int): int
    requires total != 0
  {
    TruncDiv(amount * supply, total)
  }

  /** The `map` that yields one minimum per asset. */
  function MinAmountsOut(assets: seq<int>, shares: int, supply: int): (mins: seq<int>)
    requires supply != 0
    ensures |mins| == |assets|
    ensures forall i :: 0 <= i < |assets| ==> mins[i] == TruncDiv(assets[i] * shares, supply)
  {
    if assets == [] then []
    else [TruncDiv(assets[0] * shares, supply)] + MinAmountsOut(assets[1..], shares, supply)
  }

  /** The computed part of `calculateWithdrawalParams`. */
  function CalculateWithdrawal(userBalance: int, supply: int, assets: seq<int>, amount: int): Result<Withdrawal, ShareError> {
    if amount <= 0 then Err(AmountNotPositive)
    else if assets == [] then Err(NoManagedAssets)
    else
      var total := Total(assets);
      if supply <= 0 then Err(NoShares)
      else if total <= 0 then Err(NoFunds)
      else
        var maxWithdrawable := AssetsFor(userBalance, total, supply);
        if amount > maxWithdrawable then Err(InsufficientBalance(maxWithdrawable))
        else
          var shares := SharesToBurn(amount, total, supply);
          if shares > userBalance then Err(InsufficientShares(shares))
          else
            var mins := MinAmountsOut(assets, shares, supply);
            Ok(Withdrawal(shares, mins[0], mins, SharePrice(total, supply)))
  }

  /** The computed part of `calculateDepositParams`. */
  function CalculateDeposit(supply: int, assets: seq<int>, amount: int): Result<Deposit, ShareError> {
    if amount <= 0 then Err(AmountNotPositive)
    else if amount > MAX_SAFE_INTEGER then Err(AmountUnsafe)
    else if assets == [] then Err(NoManagedAssets)
    else
      var total := Total(assets);
      if supply <= 0 && total > 0 then Err(FundsWithoutShares)
      else if total <= 0 && supply > 0 then Err(SharesWithoutFunds)
      else if supply <= 0 then Ok(Deposit(PRICE_SCALE, amount))
      else Ok(Deposit(SharePrice(total, supply), SharesForDeposit(amount, total, supply)))
  }

  /** The computed part of `getVaultBalance`. */
  function VaultPosition(userBalance: int, supply: int, assets: seq<int>): Result<Position, ShareError> {
    if assets == [] then Err(NoManagedAssets)
    else
      var total := Total(assets);
      if supply <= 0 && total > 0 then Err(FundsWithoutShares)
      else if total <= 0 && supply > 0 then Err(SharesWithoutFunds)
      else if supply <= 0 then Ok(Position(PRICE_SCALE, userBalance))
      else Ok(Position(SharePrice(total, supply), AssetsFor(userBalance, total, supply)))
  }

  // ---- One withdrawal ---------------------------------------------------------------

  /** `sharesToBurn` is the least number of shares worth at least the amount. */
  lemma BurnIsLeast(amount: int, total: int, supply: int, shares: int)
    requires amount > 0 && total > 0 && supply > 0
    ensures AssetsFor(shares, total, supply) >= amount <==> shares >= SharesToBurn(amount, total, supply)
  {
    TruncDivAtLeast(shares * total, supply, amount);
    var numerator := amount * supply + total - 1;
    assert amount * supply > 0 by { MulMonotone(1, amount, supply); }
    if shares > 0 {
      TruncDivAtLeast(numerator, total, shares + 1);
      assert (shares + 1) * total == shares * total + total;
    } else {
      assert shares * total <= 0 by { MulMonotone(shares, 0, total); }
      TruncDivAtLeast(numerator, total, 1);
    }
  }

  /** The share check that follows the balance check is dead code, whatever the vault reports. */
  lemma ShareCheckNeverFires(userBalance: int, supply: int, assets: seq<int>, amount: int)
    ensures CalculateWithdrawal(userBalance, supply, assets, amount).Err? ==>
              !CalculateWithdrawal(userBalance, supply, assets, amount).error.InsufficientShares?
  {
    var total := Total(assets);
    if amount > 0 && total > 0 && supply > 0 {
      BurnIsLeast(amount, total, supply, userBalance);
    }
  }

  /** So a withdrawal is quoted exactly when the position is worth at least the amount. */
  lemma QuotedExactlyWhenCovered(userBalance: int, supply: int, assets: seq<int>, amount: int)
    ensures CalculateWithdrawal(userBalance, supply, assets, amount).Ok? <==>
              amount > 0 && assets != [] && supply > 0 && Total(assets) > 0 &&
              userBalance * Total(assets) >= amount * supply
  {
    ShareCheckNeverFires(userBalance, supply, assets, amount);
    if amount > 0 && supply > 0 {
      TruncDivAtLeast(userBalance * Total(assets), supply, amount);
    }
  }

  /** Rounding each asset down loses less than one unit per asset. */
  lemma {:induction false} FlooredSumBracket(assets: seq<int>, shares: int, supply: int)
    requires supply > 0 && shares >= 0
    requires forall i :: 0 <= i < |assets| ==> assets[i] >= 0
    ensures Total(MinAmountsOut(assets, shares, supply)) >= 0
    ensures Total(MinAmountsOut(assets, shares, supply)) * supply <= Total(assets) * shares
    ensures Total(assets) * shares <= Total(MinAmountsOut(assets, shares, supply)) * supply + |assets| * (supply - 1)
  {
    if assets != [] {
      var head, rest := assets[0], assets[1..];
      FlooredSumBracket(rest, shares, supply);
      MulMonotone(0, head, shares);
      var mins := MinAmountsOut(assets, shares, supply);
      assert mins[1..] == MinAmountsOut(rest, shares, supply);
      AddOneAsset(head, Total(rest), Total(mins[1..]), |rest|, shares, supply);
    }
  }

  lemma AddOneAsset(head: int, total: int, paid: int, k: nat, shares: int, supply: int)
    requires supply > 0 && head * shares >= 0
    requires paid * supply <= total * shares <= paid * supply + k * (supply - 1)
    ensures TruncDiv(head * shares, supply) >= 0
    ensures (TruncDiv(head * shares, supply) + paid) * supply <= (head + total) * shares
    ensures (head + total) * shares <= (TruncDiv(head * shares, supply) + paid) * supply + (k + 1) * (supply - 1)
  {
    FloorBracket(head * shares, supply);
    MulDistributes(TruncDiv(head * shares, supply), paid, supply);
    MulDistributes(head, total, shares);
    MulDistributes(k, 1, supply - 1);
  }

  /** `worth` exceeds `amount` by less than total / supply, the value of one share. */
  ghost predicate ExcessBelowOneShare(worth: int, amount: int, total: int, supply: int) {
    (worth - amount) * supply < total
  }

  /** The shares burnt are worth at least the amount, by less than the value of one share. */
  lemma BurnIsTight(amount: int, total: int, supply: int, shares: int)
    requires amount > 0 && total > 0 && supply > 0
    requires shares == SharesToBurn(amount, total, supply)
    ensures shares > 0
    ensures amount <= AssetsFor(shares, total, supply)
    ensures amount * supply <= shares * total
    ensures ExcessBelowOneShare(AssetsFor(shares, total, supply), amount, total, supply)
  {
    BurnIsLeast(amount, total, supply, shares);
    BurnIsLeast(amount, total, supply, 0);
    BurnIsLeast(amount, total, supply, shares - 1);
    TruncDivAtLeast(shares * total, supply, amount);
    TruncDivAtLeast((shares - 1) * total, supply, amount);
    MulMonotone(0, shares, total);
    FloorBracket(shares * total, supply);
    MulDistributes(shares, 1, total);
    MulDistributes(AssetsFor(shares, total, supply), amount, supply);
  }

  /** The minimums of a quoted withdrawal against the amount asked for: between k - 1 units
      short of it and less than one share's worth above it; never short with one asset. */
  lemma MinimumsBracketAmount(userBalance: int, supply: int, assets: seq<int>, amount: int)
    requires forall i :: 0 <= i < |assets| ==> assets[i] >= 0
    ensures var quote := CalculateWithdrawal(userBalance, supply, assets, amount);
            quote.Ok? ==>
              var w := quote.value;
              && |w.minAmountsOut| == |assets| > 0 && w.expectedAssets == w.minAmountsOut[0]
              && amount - (|assets| - 1) <= Total(w.minAmountsOut) <= AssetsFor(w.sharesToBurn, Total(assets), supply)
              && ExcessBelowOneShare(AssetsFor(w.sharesToBurn, Total(assets), supply), amount, Total(assets), supply)
              && (|assets| == 1 ==> w.expectedAssets >= amount)
  {
    var quote := CalculateWithdrawal(userBalance, supply, assets, amount);
    if quote.Ok? {
      QuotedParts(userBalance, supply, assets, amount);
      BurnIsTight(amount, Total(assets), supply, quote.value.sharesToBurn);
      MinimumsBracketShares(assets, quote.value.sharesToBurn, supply, amount);
    }
  }

  lemma QuotedParts(userBalance: int, supply: int, assets: seq<int>, amount: int)
    ensures var quote := CalculateWithdrawal(userBalance, supply, assets, amount);
            quote.Ok? ==>
              var w := quote.value;
              && amount > 0 && assets != [] && supply > 0 && Total(assets) > 0
              && w.sharesToBurn == SharesToBurn(amount, Total(assets), supply) && w.sharesToBurn <= userBalance
              && w.minAmountsOut == MinAmountsOut(assets, w.sharesToBurn, supply)
              && w.expectedAssets == w.minAmountsOut[0]
  {}

  lemma MinimumsBracketShares(assets: seq<int>, shares: int, supply: int, amount: int)
    requires supply > 0 && shares > 0 && assets != []
    requires forall i :: 0 <= i < |assets| ==> assets[i] >= 0
    requires amount * supply <= shares * Total(assets)
    ensures var mins := MinAmountsOut(assets, shares, supply);
            && amount - (|assets| - 1) <= Total(mins) <= AssetsFor(shares, Total(assets), supply)
            && (|assets| == 1 ==> mins[0] >= amount)
  {
    var mins := MinAmountsOut(assets, shares, supply);
    FlooredSumBracket(assets, shares, supply);
    assert Total(assets) * shares == shares * Total(assets);
    ShortfallBelowCount(Total(mins), amount, |assets|, supply, shares * Total(assets));
    TotalNonNegative(assets);
    MulMonotone(0, shares, Total(assets));
    QuotientAbove(Total(mins), shares * Total(assets), supply);
    if |assets| == 1 {
      assert Total(mins) == mins[0] + Total(mins[1..]);
    }
  }

  lemma {:induction false} TotalNonNegative(assets: seq<int>)
    requires forall i :: 0 <= i < |assets| ==> assets[i] >= 0
    ensures Total(assets) >= 0
  {
    if assets != [] { TotalNonNegative(assets[1..]); }
  }

  lemma ShortfallBelowCount(paid: int, amount: int, k: nat, supply: int, product: int)
    requires supply > 0 && k > 0
    requires amount * supply <= product <= paid * supply + k * (supply - 1)
    ensures paid > amount - k
  {
    if paid <= amount - k {
      MulMonotone(paid, amount - k, supply);
      MulDistributes(amount, k, supply);
      MulDistributes(supply, 1, k);
    }
  }

  lemma QuotientAbove(paid: int, product: int, supply: int)
    requires supply > 0 && paid >= 0 && product >= 0 && paid * supply <= product
    ensures paid <= TruncDiv(product, supply)
  {
    FloorBracket(product, supply);
    if paid > 0 {
      TruncDivAtLeast(product, supply, paid);
    }
  }

  /** Depositing and withdrawing straight away never yields a profit. */
  lemma DepositThenPreviewNeverGains(supply: int, assets: seq<int>, amount: int, d: Deposit)
    requires CalculateDeposit(supply, assets, amount) == Ok(d)
    requires supply >= 0 && Total(assets) >= 0
    ensures d.estimatedShares >= 0
    ensures supply + d.estimatedShares > 0
    ensures AssetsFor(d.estimatedShares, Total(assets) + amount, supply + d.estimatedShares) <= amount
  {
    var total, shares := Total(assets), d.estimatedShares;
    if supply == 0 {
      QuotientAtMost(shares * amount, shares, amount);
    } else {
      FlooredShares(amount * supply, total, shares);
      ShareOfPool(supply, total, amount, shares);
      QuotientAtMost(shares * (total + amount), supply + shares, amount);
    }
  }

  lemma QuotientAtMost(product: int, divisor: int, bound: int)
    requires divisor > 0 && bound >= 0 && product <= bound * divisor
    ensures TruncDiv(product, divisor) <= bound
  {
    TruncDivAtLeast(product, divisor, bound + 1);
    MulDistributes(bound, 1, divisor);
  }

  lemma FlooredShares(product: int, total: int, shares: int)
    requires total > 0 && product >= 0 && shares == TruncDiv(product, total)
    ensures 0 <= shares && shares * total <= product
  {
    FloorBracket(product, total);
  }

  lemma ShareOfPool(supply: int, total: int, amount: int, shares: int)
    requires shares * total <= amount * supply
    ensures shares * (total + amount) <= amount * (supply + shares)
  {
    MulDistributes(total, amount, shares);
    MulDistributes(supply, shares, amount);
  }

  // ---- What the quotes mean ---------------------------------------------------------

  /** The largest whole number whose multiple by `divisor` stays within `product`. */
  ghost predicate IsFloor(quotient: int, product: int, divisor: int) {
    forall n: int :: Covers(product, divisor, n) <==> n <= quotient
  }

  predicate Covers(product: int, divisor: int, n: int) { n * divisor <= product }

  lemma QuotientIsFloor(product: int, divisor: int)
    requires product >= 0 && divisor > 0
    ensures IsFloor(TruncDiv(product, divisor), product, divisor)
  {
    var quotient := TruncDiv(product, divisor);
    FloorBracket(product, divisor);
    forall n: int ensures Covers(product, divisor, n) <==> n <= quotient {
      if n <= quotient { MulMonotone(n, quotient, divisor); } else { MulMonotone(quotient + 1, n, divisor); }
      MulDistributes(quotient, 1, divisor);
    }
  }

  /** A deposit is quoted exactly for a safe positive amount into a vault that has both shares and
      funds or neither. It buys the most shares that are worth no more than the amount, or one share
      a unit in an empty vault. */
  lemma DepositBuysTheMostShares(supply: int, assets: seq<int>, amount: int)
    ensures var quote, total := CalculateDeposit(supply, assets, amount), Total(assets);
      && (quote.Ok? <==> 0 < amount <= MAX_SAFE_INTEGER && assets != [] && (supply > 0 <==> total > 0))
      && (quote.Ok? && supply > 0 ==>
            && IsFloor(quote.value.estimatedShares, amount * supply, total)
            && IsFloor(quote.value.sharePrice, total * PRICE_SCALE, supply))
      && (quote.Ok? && supply <= 0 ==> quote.value == Deposit(PRICE_SCALE, amount))
  {
    var total := Total(assets);
    if amount > 0 && supply > 0 && total > 0 {
      MulMonotone(0, amount, supply);
      QuotientIsFloor(amount * supply, total);
      QuotientIsFloor(total * PRICE_SCALE, supply);
    }
  }

  /** The depositor's loss to rounding is below one share's worth, and below that plus one unit in what
      the vault then shows. */
  lemma {:induction false} DepositorLosesBelowOneShare(supply: int, assets: seq<int>, amount: int, d: Deposit)
    requires CalculateDeposit(supply, assets, amount) == Ok(d) && supply > 0
    ensures var total, shares := Total(assets), d.estimatedShares;
      && 0 <= amount * supply - shares * total < total
      && shares >= 0 && (amount - AssetsFor(shares, total + amount, supply + shares) - 1) * (supply + shares) < total
  {
    var total, shares := Total(assets), d.estimatedShares;
    MulMonotone(0, amount, supply);
    FloorBracket(amount * supply, total);
    MulMonotone(0, shares, total + amount);
    FloorBracket(shares * (total + amount), supply + shares);
    LossIsBounded(supply, total, amount, shares, AssetsFor(shares, total + amount, supply + shares));
  }

  lemma LossIsBounded(supply: int, total: int, amount: int, shares: int, worth: int)
    requires amount * supply - shares * total < total
    requires shares * (total + amount) < worth * (supply + shares) + (supply + shares)
    ensures (amount - worth - 1) * (supply + shares) < total
  {
    MulDistributes(total, amount, shares);
    MulDistributes(amount, worth, supply + shares);
    MulDistributes(amount - worth, 1, supply + shares);
    MulDistributes(supply, shares, amount);
  }

  /** A position is shown exactly for a vault that has both shares and funds or neither, and rounds
      the user's part of the funds down by less than one unit. */
  lemma PositionIsFloor(userBalance: int, supply: int, assets: seq<int>)
    requires userBalance >= 0
    ensures var shown, total := VaultPosition(userBalance, supply, assets), Total(assets);
      && (shown.Ok? <==> assets != [] && (supply > 0 <==> total > 0))
      && (shown.Ok? && supply > 0 ==>
            && IsFloor(shown.value.underlying, userBalance * total, supply)
            && IsFloor(shown.value.sharePrice, total * PRICE_SCALE, supply))
      && (shown.Ok? && supply <= 0 ==> shown.value == Position(PRICE_SCALE, userBalance))
  {
    var total := Total(assets);
    if supply > 0 && total > 0 {
      MulMonotone(0, userBalance, total);
      QuotientIsFloor(userBalance * total, supply);
      QuotientIsFloor(total * PRICE_SCALE, supply);
    }
  }

  /** Each minimum of a quoted withdrawal is its asset's part for the shares burnt, rounded down. */
  lemma MinimumsAreFloors(userBalance: int, supply: int, assets: seq<int>, amount: int, i: nat)
    requires (forall k :: 0 <= k < |assets| ==> assets[k] >= 0) && i < |assets|
    ensures var quote := CalculateWithdrawal(userBalance, supply, assets, amount);
      quote.Ok? ==>
        && |quote.value.minAmountsOut| == |assets|
        && IsFloor(quote.value.minAmountsOut[i], assets[i] * quote.value.sharesToBurn, supply)
        && IsFloor(quote.value.sharePrice, Total(assets) * PRICE_SCALE, supply)
  {
    var quote := CalculateWithdrawal(userBalance, supply, assets, amount);
    if quote.Ok? {
      QuotedParts(userBalance, supply, assets, amount);
      BurnIsTight(amount, Total(assets), supply, quote.value.sharesToBurn);
      MulMonotone(0, assets[i], quote.value.sharesToBurn);
      QuotientIsFloor(assets[i] * quote.value.sharesToBurn, supply);
      QuotientIsFloor(Total(assets) * PRICE_SCALE, supply);
    }
  }

  /** A withdrawal refused for lack of balance reports the exact largest amount that is quoted. */
  lemma ReportedMaximumIsExact(userBalance: int, supply: int, assets: seq<int>, amount: int, other: int)
    ensures var quote := CalculateWithdrawal(userBalance, supply, assets, amount);
      quote.Err? && quote.error.InsufficientBalance? && other > 0 ==>
        (CalculateWithdrawal(userBalance, supply, assets, other).Ok? <==> other <= quote.error.maxWithdrawable)
  {
    QuotedExactlyWhenCovered(userBalance, supply, assets, other);
    if supply > 0 && other > 0 { TruncDivAtLeast(userBalance * Total(assets), supply, other); }
  }

  /** What a refused quote says about the request and the vault. */
  predicate Means(supply: int, assets: seq<int>, amount: int, e: ShareError) {
    match e
    case AmountNotPositive => amount <= 0
    case AmountUnsafe => amount > MAX_SAFE_INTEGER
    case NoManagedAssets => assets == []
    case FundsWithoutShares => supply <= 0 < Total(assets)
    case SharesWithoutFunds => Total(assets) <= 0 < supply
    case NoShares => supply <= 0
    case NoFunds => Total(assets) <= 0
    case InsufficientBalance(maxWithdrawable) => amount > maxWithdrawable
    case InsufficientShares(_) => false
  }

  lemma RefusalsHaveReasons(userBalance: int, supply: int, assets: seq<int>, amount: int)
    ensures var quote := CalculateWithdrawal(userBalance, supply, assets, amount);
            quote.Err? ==> Means(supply, assets, amount, quote.error)
    ensures var quote := CalculateDeposit(supply, assets, amount);
            quote.Err? ==> Means(supply, assets, amount, quote.error)
    ensures var shown := VaultPosition(userBalance, supply, assets);
            shown.Err? ==> Means(supply, assets, amount, shown.error)
  {
    ShareCheckNeverFires(userBalance, supply, assets, amount);
  }

  // ---- Runs of deposits and withdrawals ---------------------------------------------

  type Holder = string

  datatype Vault = Vault(assets: seq<int>, supply: int, holdings: map<Holder, int>)
  datatype Op = DepositOp(who: Holder, amount: int) | WithdrawOp(who: Holder, amount: int)

  function Holding(v: Vault, who: Holder): int {
    if who in v.holdings then v.holdings[who] else 0
  }

  function Minus(assets: seq<int>, paid: seq<int>): (rest: seq<int>)
    requires |assets| == |paid|
    ensures |rest| == |assets| && forall i :: 0 <= i < |assets| ==> rest[i] == assets[i] - paid[i]
  {
    if assets == [] then [] else [assets[0] - paid[0]] + Minus(assets[1..], paid[1..])
  }

  /** One request carried out at its quoted price; a refused quote changes nothing. USDC comes
      in as asset 0, and a withdrawal pays the vault's own per-asset floors. */
  function Apply(v: Vault, op: Op): Vault {
    match op
    case DepositOp(who, amount) => (
      match CalculateDeposit(v.supply, v.assets, amount)
      case Err(_) => v
      case Ok(d) => Vault(v.assets[0 := v.assets[0] + amount], v.supply + d.estimatedShares,
                          v.holdings[who := Holding(v, who) + d.estimatedShares])
    )
    case WithdrawOp(who, amount) => (
      match CalculateWithdrawal(Holding(v, who), v.supply, v.assets, amount)
      case Err(_) => v
      case Ok(w) => Vault(Minus(v.assets, w.minAmountsOut), v.supply - w.sharesToBurn,
                          v.holdings[who := Holding(v, who) - w.sharesToBurn])
    )
  }

  function Run(v: Vault, ops: seq<Op>): Vault
    decreases |ops|
  {
    if ops == [] then v else Run(Apply(v, ops[0]), ops[1..])
  }

  /** Shares are accounted for by their holders, and there are shares exactly when there are funds. */
  ghost predicate Coherent(v: Vault) {
    && v.assets != []
    && (forall i :: 0 <= i < |v.assets| ==> v.assets[i] >= 0)
    && (forall h :: h in v.holdings ==> v.holdings[h] >= 0)
    && Sum(v.holdings) == v.supply
    && (v.supply == 0 <==> Total(v.assets) == 0)
  }

  /** The value of a share did not fall from `v` to `w`. */
  ghost predicate PriceKept(v: Vault, w: Vault) {
    Total(v.assets) * w.supply <= Total(w.assets) * v.supply
  }

  lemma TotalFirst(assets: seq<int>, x: int)
    requires assets != []
    ensures Total(assets[0 := x]) == Total(assets) - assets[0] + x
  {
    assert assets[0 := x][1..] == assets[1..];
  }

  lemma {:induction false} TotalMinus(assets: seq<int>, paid: seq<int>)
    requires |assets| == |paid|
    ensures Total(Minus(assets, paid)) == Total(assets) - Total(paid)
  {
    if assets != [] {
      assert Minus(assets, paid)[1..] == Minus(assets[1..], paid[1..]);
      TotalMinus(assets[1..], paid[1..]);
    }
  }

  lemma SupplyBoundsHolding(v: Vault, who: Holder)
    requires Coherent(v)
    ensures 0 <= Holding(v, who) <= v.supply
  {
    SumBoundsEntry(v.holdings, who);
  }

  lemma {:induction false} DepositKeeps(v: Vault, who: Holder, amount: int)
    requires Coherent(v)
    ensures Coherent(Apply(v, DepositOp(who, amount))) && PriceKept(v, Apply(v, DepositOp(who, amount)))
  {
    var quote := CalculateDeposit(v.supply, v.assets, amount);
    SupplyBoundsHolding(v, who);
    TotalNonNegative(v.assets);
    if quote.Ok? {
      var shares, total := quote.value.estimatedShares, Total(v.assets);
      DepositThenPreviewNeverGains(v.supply, v.assets, amount, quote.value);
      TotalFirst(v.assets, v.assets[0] + amount);
      SumSet(v.holdings, who, Holding(v, who) + shares);
      assert total * (v.supply + shares) <= (total + amount) * v.supply by {
        DepositPriceStep(v.supply, total, amount, shares);
      }
    }
  }

  lemma DepositPriceStep(supply: int, total: int, amount: int, shares: int)
    requires supply >= 0 && total >= 0 && amount > 0 && (supply == 0 <==> total == 0)
    requires supply > 0 ==> shares == SharesForDeposit(amount, total, supply)
    ensures total * (supply + shares) <= (total + amount) * supply
  {
    if supply > 0 {
      MulMonotone(0, amount, supply);
      FloorBracket(amount * supply, total);
      MulDistributes(total, amount, supply);
      MulDistributes(supply, shares, total);
    }
  }

  /** Per asset, burning part of the supply never pays more than the asset holds, and burning
      all of it pays everything. */
  lemma PayoutWithinAsset(asset: int, shares: int, supply: int)
    requires asset >= 0 && 0 <= shares <= supply && supply > 0
    ensures 0 <= TruncDiv(asset * shares, supply) <= asset
    ensures shares == supply ==> TruncDiv(asset * shares, supply) == asset
  {
    MulMonotone(0, shares, asset);
    MulMonotone(shares, supply, asset);
    FloorBracket(asset * shares, supply);
    if TruncDiv(asset * shares, supply) > asset {
      TruncDivAtLeast(asset * shares, supply, asset + 1);
      MulDistributes(asset, 1, supply);
    }
    if shares == supply && asset > 0 {
      TruncDivAtLeast(asset * shares, supply, asset);
    }
  }

  lemma WithdrawalPriceStep(supply: int, total: int, paid: int, shares: int)
    requires 0 < shares <= supply && 0 <= paid <= total && paid * supply <= total * shares && total > 0
    ensures total * (supply - shares) <= (total - paid) * supply
    ensures paid == total ==> shares == supply
  {
    MulDistributes(total, paid, supply);
    MulDistributes(supply, shares, total);
    if paid == total && shares < supply {
      MulMonotone(shares + 1, supply, total);
      MulDistributes(shares, 1, total);
    }
  }

  lemma WithdrawalKeeps(v: Vault, who: Holder, amount: int)
    requires Coherent(v)
    ensures Coherent(Apply(v, WithdrawOp(who, amount))) && PriceKept(v, Apply(v, WithdrawOp(who, amount)))
  {
    var quote := CalculateWithdrawal(Holding(v, who), v.supply, v.assets, amount);
    SupplyBoundsHolding(v, who);
    if quote.Ok? {
      var w, total := quote.value, Total(v.assets);
      var shares, mins := w.sharesToBurn, w.minAmountsOut;
      QuotedParts(Holding(v, who), v.supply, v.assets, amount);
      BurnIsTight(amount, total, v.supply, shares);
      FlooredSumBracket(v.assets, shares, v.supply);
      TotalMinus(v.assets, mins);
      SumSet(v.holdings, who, Holding(v, who) - shares);
      var rest := Minus(v.assets, mins);
      forall i | 0 <= i < |rest|
        ensures rest[i] >= 0 && (shares == v.supply ==> rest[i] == 0)
      {
        PayoutWithinAsset(v.assets[i], shares, v.supply);
      }
      TotalNonNegative(rest);
      if shares == v.supply { TotalOfZeros(rest); }
      WithdrawalPriceStep(v.supply, total, Total(mins), shares);
    }
  }

  lemma {:induction false} TotalOfZeros(assets: seq<int>)
    requires forall i :: 0 <= i < |assets| ==> assets[i] == 0
    ensures Total(assets) == 0
  {
    if assets != [] { TotalOfZeros(assets[1..]); }
  }

  lemma StepKeeps(v: Vault, op: Op)
    requires Coherent(v)
    ensures Coherent(Apply(v, op)) && PriceKept(v, Apply(v, op))
  {
    match op
    case DepositOp(who, amount) => DepositKeeps(v, who, amount);
    case WithdrawOp(who, amount) => WithdrawalKeeps(v, who, amount);
  }

  lemma {:induction false} RunKeepsCoherent(v: Vault, ops: seq<Op>)
    requires Coherent(v)
    ensures Coherent(Run(v, ops))
    decreases |ops|
  {
    if ops != [] {
      StepKeeps(v, ops[0]);
      RunKeepsCoherent(Apply(v, ops[0]), ops[1..]);
    }
  }

  /** Requests of others leave a holder's shares alone. */
  lemma {:induction false} OthersHoldingsStay(v: Vault, ops: seq<Op>, who: Holder)
    requires forall i :: 0 <= i < |ops| ==> ops[i].who != who
    ensures Holding(Run(v, ops), who) == Holding(v, who)
    decreases |ops|
  {
    if ops != [] { OthersHoldingsStay(Apply(v, ops[0]), ops[1..], who); }
  }

  /** Assets per share, in smallest units of each. */
  ghost function Price(v: Vault): real
    requires v.supply > 0
  {
    Total(v.assets) as real / v.supply as real
  }

  lemma RatiosOrdered(a: int, s: int, b: int, t: int)
    requires s > 0 && t > 0 && a * t <= b * s
    ensures a as real / s as real <= b as real / t as real
  {
    assert (a * t) as real == a as real * t as real && (b * s) as real == b as real * s as real;
  }

  lemma StepNeverLowersPrice(v: Vault, op: Op)
    requires Coherent(v) && v.supply > 0 && Apply(v, op).supply > 0
    ensures Price(v) <= Price(Apply(v, op))
  {
    StepKeeps(v, op);
    RatiosOrdered(Total(v.assets), v.supply, Total(Apply(v, op).assets), Apply(v, op).supply);
  }

  /** No run makes a share lose value as long as shares remain in circulation throughout. */
  lemma {:induction false} RunNeverLowersPrice(v: Vault, ops: seq<Op>)
    requires Coherent(v)
    requires forall n :: 0 <= n <= |ops| ==> Run(v, ops[..n]).supply > 0
    ensures v.supply > 0 && Run(v, ops).supply > 0 && Price(v) <= Price(Run(v, ops))
    decreases |ops|
  {
    assert Run(v, ops[..0]) == v;
    if ops != [] {
      var next, rest := Apply(v, ops[0]), ops[1..];
      StepKeeps(v, ops[0]);
      forall n | 0 <= n <= |rest| ensures Run(next, rest[..n]).supply > 0 {
        assert ops[..n + 1][0] == ops[0] && ops[..n + 1][1..] == rest[..n];
        assert Run(v, ops[..n + 1]).supply > 0;
      }
      assert Run(next, rest[..0]) == next;
      StepNeverLowersPrice(v, ops[0]);
      RunNeverLowersPrice(next, rest);
    }
  }

  /** From a coherent start the inconsistent-vault errors are unreachable, for quotes of either kind. */
  lemma InconsistencyErrorsUnreachable(v: Vault, ops: seq<Op>, amount: int, userBalance: int)
    requires Coherent(v)
    ensures var w := Run(v, ops);
            && CalculateDeposit(w.supply, w.assets, amount) !in {Err(FundsWithoutShares), Err(SharesWithoutFunds)}
            && VaultPosition(userBalance, w.supply, w.assets).Ok?
  {
    RunKeepsCoherent(v, ops);
    var w := Run(v, ops);
    SupplyBoundsHolding(w, "");
    TotalNonNegative(w.assets);
  }

  /** What `getVaultBalance` shows each holder. */
  ghost function Previews(v: Vault): map<Holder, int> {
    map h | h in v.holdings :: PreviewOf(v, v.holdings[h])
  }

  function PreviewOf(v: Vault, shares: int): int {
    match VaultPosition(shares, v.supply, v.assets)
    case Ok(p) => p.underlying
    case Err(_) => 0
  }

  lemma {:induction false} FlooredParts(shares: map<Holder, int>, parts: map<Holder, int>, total: int, supply: int)
    requires supply > 0 && total >= 0 && shares.Keys == parts.Keys
    requires forall h :: h in shares ==> shares[h] >= 0 && parts[h] == AssetsFor(shares[h], total, supply)
    ensures Sum(parts) * supply <= Sum(shares) * total
  {
    var paid, owed := Scaled(parts, supply), Scaled(shares, total);
    forall h | h in shares ensures paid[h] <= owed[h] {
      MulMonotone(0, shares[h], total);
      FloorBracket(shares[h] * total, supply);
    }
    SumMonotone(paid, owed);
    SumScaled(parts, supply);
    SumScaled(shares, total);
  }

  lemma CancelFactor(x: int, y: int, k: int)
    requires k > 0 && x * k <= k * y
    ensures x <= y
  {
    if x > y {
      MulMonotone(y + 1, x, k);
      MulDistributes(y, 1, k);
    }
  }

  /** In every reachable vault the positions shown to all holders together stay within the funds. */
  lemma PreviewsWithinFunds(v: Vault, ops: seq<Op>)
    requires Coherent(v)
    ensures Sum(Previews(Run(v, ops))) <= Total(Run(v, ops).assets)
  {
    RunKeepsCoherent(v, ops);
    var w := Run(v, ops);
    SupplyBoundsHolding(w, "");
    TotalNonNegative(w.assets);
    PreviewsWithinFundsAt(w);
  }

  lemma PreviewsWithinFundsAt(w: Vault)
    requires Coherent(w) && w.supply >= 0 && Total(w.assets) >= 0
    ensures Sum(Previews(w)) <= Total(w.assets)
  {
    var previews, total := Previews(w), Total(w.assets);
    if w.supply > 0 {
      FlooredParts(w.holdings, previews, total, w.supply);
      CancelFactor(Sum(previews), total, w.supply);
    } else {
      SumZeroIsAllZero(w.holdings);
      assert previews == w.holdings;
    }
  }
}
