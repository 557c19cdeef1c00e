/** The token contracts, reduced to balances and a transfer that traps on insufficient funds. */
module TokenBank {
  import opened Prelude

  /** Balances by (token, holder); an absent entry is zero. */
  type Bank = map<(Address, Address), int>

  function BalanceOf(bank: Bank, token: Address, holder: Address): int {
    if (token, holder) in bank then bank[(token, holder)] else 0
  }

  function Credit(bank: Bank, token: Address, holder: Address, amount: int): Bank {
    bank[(token, holder) := BalanceOf(bank, token, holder) + amount]
  }

  function Transfer(bank: Bank, token: Address, from: Address, to: Address, amount: int): Result<Bank> {
    var check := Need(0 <= amount <= BalanceOf(bank, token, from), TransferFailed(from));
    :- check;
    Ok(Credit(Credit(bank, token, from, -amount), token, to, amount))
  }

  /** `if amount > 0 { transfer }`, paying out of the contract. */
  function PayOut(bank: Bank, token: Address, to: Address, amount: int): Result<Bank> {
    if amount > 0 then Transfer(bank, token, Contract, to, amount) else Ok(bank)
  }

  /** By how much a transfer of `amount` moves the balance `holder` has of `t`; also right when
      payer and payee coincide. */
  function Moved(token: Address, from: Address, to: Address, amount: int, t: Address, holder: Address): int {
    if t != token then 0
    else (if holder == to then amount else 0) - (if holder == from then amount else 0)
  }

  lemma TransferMoves(bank: Bank, token: Address, from: Address, to: Address, amount: int, t: Address, holder: Address)
    ensures Transfer(bank, token, from, to, amount).Ok? <==> 0 <= amount <= BalanceOf(bank, token, from)
    ensures Transfer(bank, token, from, to, amount).Ok? ==>
              BalanceOf(Transfer(bank, token, from, to, amount).value, t, holder)
              == BalanceOf(bank, t, holder) + Moved(token, from, to, amount, t, holder)
  {
  }

  /** Between the two banks the contract lost at most `spent` of `token`, and nothing of any other. */
  ghost predicate SpendsAtMost(before: Bank, after: Bank, token: Address, spent: int) {
    forall t {:trigger BalanceOf(after, t, Contract)} ::
      BalanceOf(before, t, Contract) - (if t == token then spent else 0) <= BalanceOf(after, t, Contract)
  }

  lemma SpendsAdd(b0: Bank, b1: Bank, b2: Bank, token: Address, x: int, y: int)
    requires SpendsAtMost(b0, b1, token, x) && SpendsAtMost(b1, b2, token, y)
    ensures SpendsAtMost(b0, b2, token, x + y)
  {
  }

  /** A covered payout succeeds and spends its amount. */
  lemma PayOutSpends(bank: Bank, token: Address, to: Address, amount: int)
    requires 0 <= amount <= BalanceOf(bank, token, Contract)
    ensures PayOut(bank, token, to, amount).Ok?
    ensures SpendsAtMost(bank, PayOut(bank, token, to, amount).value, token, amount)
    ensures forall t, h :: BalanceOf(PayOut(bank, token, to, amount).value, t, h)
                           == BalanceOf(bank, t, h) + Moved(token, Contract, to, amount, t, h)
  {
  }

  /** Money coming in from anyone else never lowers a balance of the contract. */
  lemma PayInGains(bank: Bank, token: Address, from: Address, to: Address, amount: int)
    requires from != Contract && Transfer(bank, token, from, to, amount).Ok?
    ensures SpendsAtMost(bank, Transfer(bank, token, from, to, amount).value, token, if to == Contract then -amount
                         else 0)
    ensures SpendsAtMost(bank, Transfer(bank, token, from, to, amount).value, token, 0)
  {
  }
}
