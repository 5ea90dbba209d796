/** Machine integers, addresses and the token ledger that the two contracts call into. */
module Token {
  import opened Outcomes
  import opened MapSums

  const U32_MAX := 0xFFFF_FFFF
  const U64_MAX := 0xFFFF_FFFF_FFFF_FFFF
  const I128_MAX := 0x7FFF_FFFF_FFFF_FFFF_FFFF_FFFF_FFFF_FFFF
  const I128_MIN := -I128_MAX - 1

  type U32 = x: int | 0 <= x <= U32_MAX
  type U64 = x: int | 0 <= x <= U64_MAX
  type I128 = x: int | I128_MIN <= x <= I128_MAX

  type Address = string
  type Balances = map<Address, int>

  /** The contract's own address. */
  const CONTRACT: Address := "contract"

  /** `require_auth`: the contract never invokes itself, so nobody can sign for its address. */
  predicate Signed(signers: set<Address>, who: Address) {
    who in signers && who != CONTRACT
  }

  function BalanceOf(b: Balances, who: Address): int {
    if who in b then b[who] else 0
  }

  /** A transfer aborts on a negative amount or insufficient funds. */
  function Transfer(b: Balances, from: Address, to: Address, amount: int): Option<Balances> {
    if amount < 0 || BalanceOf(b, from) < amount then None
    else
      var taken := b[from := BalanceOf(b, from) - amount];
      Some(taken[to := BalanceOf(taken, to) + amount])
  }

  /** Transfers move tokens without creating any. */
  lemma TransferConserves(b: Balances, from: Address, to: Address, amount: int)
    requires Transfer(b, from, to, amount).Some?
    ensures Sum(Transfer(b, from, to, amount).value) == Sum(b)
  {
    var taken := b[from := BalanceOf(b, from) - amount];
    SumSet(b, from, BalanceOf(b, from) - amount);
    SumSet(taken, to, BalanceOf(taken, to) + amount);
  }
}
