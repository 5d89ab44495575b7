/** The collateral token as its callers see it: balances, burns, issuance, and calls that trap. */
module TokenLedger {
  import opened Base
  import opened Sums

  /** `issued` and `burned` are running totals; their difference is what the balances must add up to. */
  datatype Ledger = Ledger(balances: map<Address, int>, issued: int, burned: int)

  function Balance(l: Ledger, a: Address): int {
    Get(l.balances, a)
  }

  function Amount(a: Address, v: int): int { v }

  ghost predicate Sound(l: Ledger) {
    && (forall a :: Balance(l, a) >= 0)
    && 0 <= l.burned
    && SumBy(l.balances, Amount) + l.burned == l.issued
  }

  function Credit(a: Address, b: Address, amount: int): int {
    if a == b then amount else 0
  }

  /** Moves an amount without asking whether the sender has it. */
  function Move(l: Ledger, from: Address, to: Address, amount: int): (r: Ledger)
    ensures forall a {:trigger Balance(r, a)} ::
      Balance(r, a) == Balance(l, a) - Credit(a, from, amount) + Credit(a, to, amount)
    ensures r.issued == l.issued && r.burned == l.burned
  {
    var debited := l.balances[from := Balance(l, from) - amount];
    l.(balances := debited[to := Get(debited, to) + amount])
  }

  /** `None` models the trap of a transfer the sender cannot cover. */
  function Transfer(l: Ledger, from: Address, to: Address, amount: int): (r: Option<Ledger>)
    ensures r.Some? <==> 0 <= amount <= Balance(l, from)
    ensures r.Some? ==> forall a {:trigger Balance(r.value, a)} ::
      Balance(r.value, a) == Balance(l, a) - Credit(a, from, amount) + Credit(a, to, amount)
    ensures r.Some? ==> r.value.issued == l.issued && r.value.burned == l.burned
  {
    if amount < 0 || Balance(l, from) < amount then None else Some(Move(l, from, to, amount))
  }

  function Burn(l: Ledger, from: Address, amount: int): (r: Option<Ledger>)
    ensures r.Some? <==> 0 <= amount <= Balance(l, from)
    ensures r.Some? ==> forall a {:trigger Balance(r.value, a)} ::
      Balance(r.value, a) == Balance(l, a) - Credit(a, from, amount)
    ensures r.Some? ==> r.value.issued == l.issued && r.value.burned == l.burned + amount
  {
    if amount < 0 || Balance(l, from) < amount then None
    else Some(l.(balances := l.balances[from := Balance(l, from) - amount], burned := l.burned + amount))
  }

  function Mint(l: Ledger, to: Address, amount: int): (r: Option<Ledger>)
    ensures r.Some? <==> 0 <= amount
    ensures r.Some? ==> forall a {:trigger Balance(r.value, a)} ::
      Balance(r.value, a) == Balance(l, a) + Credit(a, to, amount)
    ensures r.Some? ==> r.value.issued == l.issued + amount && r.value.burned == l.burned
  {
    if amount < 0 then None
    else Some(l.(balances := l.balances[to := Balance(l, to) + amount], issued := l.issued + amount))
  }

  /** Moving tokens neither creates nor destroys any. */
  lemma TransferKeepsSound(l: Ledger, from: Address, to: Address, amount: int)
    requires Sound(l) && Transfer(l, from, to, amount).Some?
    ensures Sound(Transfer(l, from, to, amount).value)
  {
    var debited := l.balances[from := Balance(l, from) - amount];
    SumByUpdate(l.balances, Amount, from, Balance(l, from) - amount);
    SumByUpdate(debited, Amount, to, Get(debited, to) + amount);
  }

  lemma BurnKeepsSound(l: Ledger, from: Address, amount: int)
    requires Sound(l) && Burn(l, from, amount).Some?
    ensures Sound(Burn(l, from, amount).value)
  {
    SumByUpdate(l.balances, Amount, from, Balance(l, from) - amount);
  }

  lemma MintKeepsSound(l: Ledger, to: Address, amount: int)
    requires Sound(l) && Mint(l, to, amount).Some?
    ensures Sound(Mint(l, to, amount).value)
  {
    SumByUpdate(l.balances, Amount, to, Balance(l, to) + amount);
  }

  /** No account ever holds more than was issued. */
  lemma BalanceWithinIssued(l: Ledger, a: Address)
    requires Sound(l)
    ensures 0 <= Balance(l, a) <= l.issued - l.burned
  {
    forall j | j in l.balances ensures Amount(j, l.balances[j]) >= 0 {
      assert Balance(l, j) >= 0;
    }
    SumByAtLeast(l.balances, Amount, a);
  }
}
