/** The resolution contract's token account: locking, paying out, and splitting forfeited bonds. */
module BondMoney {
  import opened Base
  import opened TokenLedger

  const REWARD_BPS: int := 5_000
  const BURN_BPS: int := 2_500
  const BPS_DENOMINATOR: int := 10_000

  datatype ChallengeRecord = ChallengeRecord(challenger: Address, bond: int)

  /**
   The account of `holder` in the collateral token. `surplus` is the history of what it holds without
   owing it: treasury cuts kept for want of a treasury, and tokens sent to it from outside.
   */
  datatype Purse = Purse(holder: Address, treasury: Option<Address>, ledger: Ledger, surplus: int)

  /** The tokens held on behalf of somebody. */
  function Committed(p: Purse): int {
    Balance(p.ledger, p.holder) - p.surplus
  }

  // ---- Movements; a `Failure` is a trap ----

  type Movement = Result<Purse, ()>

  /** A user pays in. The holder itself can never authorize such a payment. */
  function Lock(p: Purse, from: Address, amount: int): Movement {
    match Transfer(p.ledger, from, p.holder, amount)
    case Some(l) => Success(p.(ledger := l))
    case None => Failure(())
  }

  /** The holder pays out. What it pays to itself it keeps without owing it. */
  function Pay(p: Purse, to: Address, amount: int): Movement {
    match Transfer(p.ledger, p.holder, to, amount)
    case Some(l) => Success(p.(ledger := l, surplus := p.surplus + Credit(p.holder, to, amount)))
    case None => Failure(())
  }

  function PayPositive(p: Purse, to: Address, amount: int): Movement {
    if amount > 0 then Pay(p, to, amount) else Success(p)
  }

  function BurnPositive(p: Purse, amount: int): Movement {
    if amount <= 0 then Success(p)
    else match Burn(p.ledger, p.holder, amount)
      case Some(l) => Success(p.(ledger := l))
      case None => Failure(())
  }

  /** The cut goes to the treasury, or stays with the holder when none is registered. */
  function PayTreasury(p: Purse, cut: int): Movement {
    match p.treasury
    case Some(t) => PayPositive(p, t, cut)
    case None => Success(p.(surplus := p.surplus + Max(cut, 0)))
  }

  function Reward(total: int): int { total * REWARD_BPS / BPS_DENOMINATOR }

  function Burned(total: int): int { total * BURN_BPS / BPS_DENOMINATOR }

  function TreasuryCut(total: int): int { total - Reward(total) - Burned(total) }

  /** `total * REWARD_BPS` is computed in 128-bit arithmetic and traps on overflow. */
  predicate Splittable(total: int) {
    total * REWARD_BPS <= I128_MAX
  }

  function SplitBond(p: Purse, winner: Address, total: int): Movement {
    if total <= 0 then Success(p)
    else if !Splittable(total) then Failure(())
    else
      var rewarded :- PayPositive(p, winner, Reward(total));
      var burnt :- BurnPositive(rewarded, Burned(total));
      PayTreasury(burnt, TreasuryCut(total))
  }

  /** Splits the bonds of a list, first to last. */
  function SplitAll(p: Purse, winner: Address, records: seq<ChallengeRecord>): Movement {
    if records == [] then Success(p)
    else
      var q :- SplitAll(p, winner, records[..|records| - 1]);
      SplitBond(q, winner, records[|records| - 1].bond)
  }

  /** Refunds the bonds of a list, first to last. */
  function RefundAll(p: Purse, records: seq<ChallengeRecord>): Movement {
    if records == [] then Success(p)
    else
      var q :- RefundAll(p, records[..|records| - 1]);
      PayPositive(q, records[|records| - 1].challenger, records[|records| - 1].bond)
  }

  // ---- What the movements do ----

  ghost predicate Solvent(p: Purse) {
    Sound(p.ledger) && p.surplus >= 0
  }

  /** `q` is `p` after the holder gave up `spent` committed tokens, `burned` of them for good. */
  ghost predicate Moved(p: Purse, q: Purse, spent: int, burned: int) {
    && q.holder == p.holder && q.treasury == p.treasury
    && Sound(q.ledger) && p.surplus <= q.surplus
    && q.ledger.issued == p.ledger.issued
    && q.ledger.burned == p.ledger.burned + burned
    && Committed(q) == Committed(p) - spent
  }

  /** What account `a` gained from `p` to `q`. */
  function Gain(p: Purse, q: Purse, a: Address): int {
    Balance(q.ledger, a) - Balance(p.ledger, a)
  }

  function TreasuryGain(p: Purse, cut: int, a: Address): int {
    if p.treasury == Some(a) then cut else 0
  }

  lemma LockEffect(p: Purse, from: Address, amount: int)
    requires Solvent(p) && from != p.holder && Lock(p, from, amount).Success?
    ensures Moved(p, Lock(p, from, amount).value, -amount, 0)
  {
    TransferKeepsSound(p.ledger, from, p.holder, amount);
  }

  lemma PayPositiveEffect(p: Purse, to: Address, amount: int)
    requires Solvent(p) && 0 <= amount <= Committed(p)
    ensures PayPositive(p, to, amount).Success?
    ensures Moved(p, PayPositive(p, to, amount).value, amount, 0)
  {
    TransferKeepsSound(p.ledger, p.holder, to, amount);
  }

  lemma PayPositiveGain(p: Purse, to: Address, amount: int, a: Address)
    requires 0 <= amount && a != p.holder && PayPositive(p, to, amount).Success?
    ensures Gain(p, PayPositive(p, to, amount).value, a) == Credit(a, to, amount)
  {
  }

  lemma BurnPositiveEffect(p: Purse, amount: int)
    requires Solvent(p) && 0 <= amount <= Committed(p)
    ensures BurnPositive(p, amount).Success?
    ensures Moved(p, BurnPositive(p, amount).value, amount, amount)
  {
    BurnKeepsSound(p.ledger, p.holder, amount);
  }

  lemma PayTreasuryEffect(p: Purse, cut: int)
    requires Solvent(p) && 0 <= cut <= Committed(p)
    ensures PayTreasury(p, cut).Success?
    ensures Moved(p, PayTreasury(p, cut).value, cut, 0)
  {
    if p.treasury.Some? {
      PayPositiveEffect(p, p.treasury.value, cut);
    }
  }

  /** The three legs of a split: half, a quarter, and a quarter plus the rounding of the other two. */
  lemma SplitLegs(total: int)
    requires total >= 0
    ensures Reward(total) + Burned(total) + TreasuryCut(total) == total
    ensures Reward(total) == total / 2 && Burned(total) == total / 4
    ensures total <= 4 * TreasuryCut(total) <= total + 5
  {
  }

  /** A bond the holder has splits exactly when its reward product fits 128 bits. */
  lemma SplitBondEffect(p: Purse, winner: Address, total: int)
    requires Solvent(p) && 0 <= total <= Committed(p)
    ensures SplitBond(p, winner, total).Success? <==> Splittable(total)
    ensures Splittable(total) ==> Moved(p, SplitBond(p, winner, total).value, total, Burned(total))
  {
    SplitLegs(total);
    if total > 0 && Splittable(total) {
      PayPositiveEffect(p, winner, Reward(total));
      var rewarded := PayPositive(p, winner, Reward(total)).value;
      BurnPositiveEffect(rewarded, Burned(total));
      var burnt := BurnPositive(rewarded, Burned(total)).value;
      PayTreasuryEffect(burnt, TreasuryCut(total));
    }
  }

  /** Apart from the holder, only the winner and the treasury gain from a split. */
  lemma SplitBondGain(p: Purse, winner: Address, total: int, a: Address)
    requires total >= 0 && a != p.holder && SplitBond(p, winner, total).Success?
    ensures Gain(p, SplitBond(p, winner, total).value, a)
            == Credit(a, winner, Reward(total)) + TreasuryGain(p, TreasuryCut(total), a)
  {
    SplitLegs(total);
    if total > 0 {
      var rewarded := PayPositive(p, winner, Reward(total)).value;
      var burnt := BurnPositive(rewarded, Burned(total)).value;
      PayPositiveGain(p, winner, Reward(total), a);
      if p.treasury.Some? {
        PayPositiveGain(burnt, p.treasury.value, TreasuryCut(total), a);
      }
    }
  }

  lemma SplitBondScope(p: Purse, winner: Address, total: int)
    requires SplitBond(p, winner, total).Success?
    ensures var q := SplitBond(p, winner, total).value; q.holder == p.holder && q.treasury == p.treasury
  {
  }

  // ---- Lists of bonds ----

  function BondSum(records: seq<ChallengeRecord>): int {
    if records == [] then 0 else BondSum(records[..|records| - 1]) + records[|records| - 1].bond
  }

  function RewardSum(records: seq<ChallengeRecord>): int {
    if records == [] then 0 else RewardSum(records[..|records| - 1]) + Reward(records[|records| - 1].bond)
  }

  function BurnSum(records: seq<ChallengeRecord>): int {
    if records == [] then 0 else BurnSum(records[..|records| - 1]) + Burned(records[|records| - 1].bond)
  }

  function CutSum(records: seq<ChallengeRecord>): int {
    if records == [] then 0 else CutSum(records[..|records| - 1]) + TreasuryCut(records[|records| - 1].bond)
  }

  /** The bonds recorded for challenger `a`. */
  function BondsOf(records: seq<ChallengeRecord>, a: Address): int {
    if records == [] then 0
    else
      var last := records[|records| - 1];
      BondsOf(records[..|records| - 1], a) + Credit(a, last.challenger, last.bond)
  }

  ghost predicate AllSplittable(records: seq<ChallengeRecord>) {
    forall i :: 0 <= i < |records| ==> Splittable(records[i].bond)
  }

  ghost predicate NonnegativeBonds(records: seq<ChallengeRecord>) {
    forall i :: 0 <= i < |records| ==> records[i].bond >= 0
  }

  lemma {:induction false} BondSumNonnegative(records: seq<ChallengeRecord>)
    requires NonnegativeBonds(records)
    ensures BondSum(records) >= 0
  {
    if records != [] {
      BondSumNonnegative(records[..|records| - 1]);
    }
  }

  lemma AllSplittableLast(records: seq<ChallengeRecord>)
    requires records != []
    ensures AllSplittable(records)
            <==> AllSplittable(records[..|records| - 1]) && Splittable(records[|records| - 1].bond)
  {
  }

  /** Slashing a whole list succeeds exactly when every single bond can be split. */
  lemma {:induction false} SplitAllEffect(p: Purse, winner: Address, records: seq<ChallengeRecord>)
    requires Solvent(p) && NonnegativeBonds(records) && BondSum(records) <= Committed(p)
    ensures SplitAll(p, winner, records).Success? <==> AllSplittable(records)
    ensures AllSplittable(records) ==>
              Moved(p, SplitAll(p, winner, records).value, BondSum(records), BurnSum(records))
  {
    if records != [] {
      var init, last := records[..|records| - 1], records[|records| - 1];
      SplitAllEffect(p, winner, init);
      AllSplittableLast(records);
      if AllSplittable(init) {
        SplitBondEffect(SplitAll(p, winner, init).value, winner, last.bond);
      }
    }
  }

  lemma {:induction false} SplitAllScope(p: Purse, winner: Address, records: seq<ChallengeRecord>)
    requires SplitAll(p, winner, records).Success?
    ensures var q := SplitAll(p, winner, records).value; q.holder == p.holder && q.treasury == p.treasury
  {
    if records != [] {
      SplitAllScope(p, winner, records[..|records| - 1]);
    }
  }

  lemma {:induction false} SplitAllGain(p: Purse, winner: Address, records: seq<ChallengeRecord>, a: Address)
    requires NonnegativeBonds(records) && a != p.holder && SplitAll(p, winner, records).Success?
    ensures Gain(p, SplitAll(p, winner, records).value, a)
            == Credit(a, winner, RewardSum(records)) + TreasuryGain(p, CutSum(records), a)
  {
    if records != [] {
      var init, last := records[..|records| - 1], records[|records| - 1];
      SplitAllGain(p, winner, init, a);
      SplitAllScope(p, winner, init);
      SplitBondGain(SplitAll(p, winner, init).value, winner, last.bond, a);
    }
  }

  /** Refunding a list of bonds the holder has never traps. */
  lemma {:induction false} RefundAllEffect(p: Purse, records: seq<ChallengeRecord>)
    requires Solvent(p) && NonnegativeBonds(records) && BondSum(records) <= Committed(p)
    ensures RefundAll(p, records).Success?
    ensures Moved(p, RefundAll(p, records).value, BondSum(records), 0)
  {
    if records != [] {
      var init, last := records[..|records| - 1], records[|records| - 1];
      RefundAllEffect(p, init);
      PayPositiveEffect(RefundAll(p, init).value, last.challenger, last.bond);
    }
  }

  lemma {:induction false} RefundAllScope(p: Purse, records: seq<ChallengeRecord>)
    requires RefundAll(p, records).Success?
    ensures RefundAll(p, records).value.holder == p.holder
  {
    if records != [] {
      RefundAllScope(p, records[..|records| - 1]);
    }
  }

  /** It pays everybody back exactly the bonds recorded for them. */
  lemma {:induction false} RefundAllGain(p: Purse, records: seq<ChallengeRecord>, a: Address)
    requires NonnegativeBonds(records) && a != p.holder && RefundAll(p, records).Success?
    ensures Gain(p, RefundAll(p, records).value, a) == BondsOf(records, a)
  {
    if records != [] {
      var init, last := records[..|records| - 1], records[|records| - 1];
      RefundAllGain(p, init, a);
      RefundAllScope(p, init);
      PayPositiveGain(RefundAll(p, init).value, last.challenger, last.bond, a);
    }
  }

  // ---- What stays with the holder ----

  /** The part of a treasury cut that the holder keeps without owing it. */
  function RetainedCut(p: Purse, cut: int): int {
    match p.treasury
    case None => cut
    case Some(t) => Credit(p.holder, t, cut)
  }

  /** From `p` to `q` the holder kept `kept` more without owing it, and no token was issued. */
  ghost predicate Keeps(p: Purse, q: Purse, kept: int) {
    && q.holder == p.holder && q.treasury == p.treasury
    && q.ledger.issued == p.ledger.issued && q.surplus == p.surplus + kept
  }

  /** Splitting a bond adds to the surplus exactly the cut that no other treasury takes. */
  lemma SplitBondKeeps(p: Purse, winner: Address, total: int)
    requires total >= 0 && winner != p.holder && SplitBond(p, winner, total).Success?
    ensures Keeps(p, SplitBond(p, winner, total).value, RetainedCut(p, TreasuryCut(total)))
  {
    SplitLegs(total);
  }

  lemma {:induction false} SplitAllKeeps(p: Purse, winner: Address, records: seq<ChallengeRecord>)
    requires NonnegativeBonds(records) && winner != p.holder && SplitAll(p, winner, records).Success?
    ensures Keeps(p, SplitAll(p, winner, records).value, RetainedCut(p, CutSum(records)))
  {
    if records != [] {
      var init, last := records[..|records| - 1], records[|records| - 1];
      SplitAllKeeps(p, winner, init);
      SplitBondKeeps(SplitAll(p, winner, init).value, winner, last.bond);
    }
  }

  lemma {:induction false} RefundAllKeeps(p: Purse, records: seq<ChallengeRecord>)
    requires forall i :: 0 <= i < |records| ==> records[i].challenger != p.holder
    requires RefundAll(p, records).Success?
    ensures Keeps(p, RefundAll(p, records).value, 0)
  {
    if records != [] {
      RefundAllKeeps(p, records[..|records| - 1]);
    }
  }
}
