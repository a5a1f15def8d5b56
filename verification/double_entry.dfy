/** Validated double-entry transactions and the builders that construct them. */
module DoubleEntry {
  import opened Prelude
  import opened Seqs
  import opened Money

  /** Row identifiers; only equality and the order used for locking matter. */
  type AccountId = nat
  type TxId = nat
  type Currency = string

  datatype Direction = Debit | Credit

  function Opposite(d: Direction): Direction {
    if d == Debit then Credit else Debit
  }

  datatype Leg = Leg(accountId: AccountId, direction: Direction, amount: int, currency: Currency)

  datatype Fx = Fx(rate: string, base: Currency)

  datatype Draft = Draft(legs: seq<Leg>, fx: Option<Fx>)

  function SideAmount(side: Direction): Leg -> int {
    (leg: Leg) => if leg.direction == side then leg.amount else 0
  }

  function DebitsTotal(legs: seq<Leg>): int { Total(legs, SideAmount(Debit)) }

  function CreditsTotal(legs: seq<Leg>): int { Total(legs, SideAmount(Credit)) }

  // ----- validateLegs -----

  predicate Uses(legs: seq<Leg>, a: AccountId) {
    exists i :: 0 <= i < |legs| && legs[i].accountId == a
  }

  /** The first fault met when the legs are read in order. */
  function FirstFault(legs: seq<Leg>): Option<Error> {
    if legs == [] then None
    else
      var front, last := legs[..|legs| - 1], legs[|legs| - 1];
      var earlier := FirstFault(front);
      if earlier.Some? then earlier
      else if Uses(front, last.accountId) then Some(InvalidTransaction)
      else if last.amount <= 0 then Some(InvalidAmount)
      else None
  }

  function LegsFault(legs: seq<Leg>): Option<Error> {
    if |legs| < 2 then Some(InvalidTransaction) else FirstFault(legs)
  }

  predicate DistinctAccounts(legs: seq<Leg>) {
    forall i, j :: 0 <= i < j < |legs| ==> legs[i].accountId != legs[j].accountId
  }

  predicate PositiveAmounts(legs: seq<Leg>) {
    forall i :: 0 <= i < |legs| ==> legs[i].amount > 0
  }

  predicate ValidLegs(legs: seq<Leg>) {
    |legs| >= 2 && DistinctAccounts(legs) && PositiveAmounts(legs)
  }

  /** The scan accepts exactly: two or more legs, each account once, every amount positive. */
  lemma {:induction false} NoFaultIffValid(legs: seq<Leg>)
    ensures FirstFault(legs) == None <==> DistinctAccounts(legs) && PositiveAmounts(legs)
    ensures LegsFault(legs) == None <==> ValidLegs(legs)
  {
    if legs != [] {
      var front, last := legs[..|legs| - 1], legs[|legs| - 1];
      NoFaultIffValid(front);
      if DistinctAccounts(front) && PositiveAmounts(front) && !Uses(front, last.accountId) && last.amount > 0 {
        assert forall i :: 0 <= i < |front| ==> legs[i] == front[i];
      }
      if DistinctAccounts(legs) && PositiveAmounts(legs) {
        assert forall i :: 0 <= i < |front| ==> front[i] == legs[i];
        assert !Uses(front, last.accountId);
      }
    }
  }

  method ValidateLegs(legs: seq<Leg>) returns (fault: Option<Error>)
    ensures fault == LegsFault(legs)
    ensures fault == None <==> ValidLegs(legs)
  {
    NoFaultIffValid(legs);
    if |legs| < 2 {
      return Some(InvalidTransaction);
    }
    var seen: set<AccountId> := {};
    for i := 0 to |legs|
      invariant FirstFault(legs[..i]) == None
      invariant forall a :: a in seen <==> Uses(legs[..i], a)
    {
      var leg := legs[i];
      assert legs[..i + 1][..i] == legs[..i];
      PrefixDecides(legs, i + 1);
      if leg.accountId in seen {
        return Some(InvalidTransaction);
      }
      SeenGrows(legs, i);
      seen := seen + {leg.accountId};
      if leg.amount <= 0 {
        return Some(InvalidAmount);
      }
    }
    assert legs[..|legs|] == legs;
    return None;
  }

  /** A fault in a prefix is the fault of the whole. */
  lemma {:induction false} PrefixDecides(legs: seq<Leg>, n: nat)
    requires n <= |legs|
    ensures FirstFault(legs[..n]).Some? ==> FirstFault(legs) == FirstFault(legs[..n])
    decreases |legs|
  {
    if n == |legs| {
      assert legs[..n] == legs;
    } else {
      var front := legs[..|legs| - 1];
      assert front[..n] == legs[..n];
      PrefixDecides(front, n);
    }
  }

  lemma {:induction false} SeenGrows(legs: seq<Leg>, i: nat)
    requires i < |legs|
    ensures forall a :: Uses(legs[..i + 1], a) <==> Uses(legs[..i], a) || a == legs[i].accountId
  {
    forall a
      ensures Uses(legs[..i + 1], a) <==> Uses(legs[..i], a) || a == legs[i].accountId
    {
      if Uses(legs[..i], a) {
        var k :| 0 <= k < i && legs[..i][k].accountId == a;
        assert legs[..i + 1][k].accountId == a;
      }
      if a == legs[i].accountId {
        assert legs[..i + 1][i].accountId == a;
      }
      if Uses(legs[..i + 1], a) && a != legs[i].accountId {
        var k :| 0 <= k < i + 1 && legs[..i + 1][k].accountId == a;
        assert legs[..i][k].accountId == a;
      }
    }
  }

  // ----- isBalanced -----

  predicate OneCurrency(legs: seq<Leg>) {
    forall i :: 0 <= i < |legs| ==> legs[i].currency == legs[0].currency
  }

  function FirstIn(legs: seq<Leg>, currency: Currency): Option<Leg> {
    if legs == [] then None
    else if legs[0].currency == currency then Some(legs[0])
    else FirstIn(legs[1..], currency)
  }

  /** Every leg outside the base currency opposes the base leg and equals its conversion. */
  function QuotesAgree(legs: seq<Leg>, base: Leg, fx: Fx): Result<bool> {
    if legs == [] then Ok(true)
    else
      var leg := legs[0];
      if leg.currency == fx.base then QuotesAgree(legs[1..], base, fx)
      else if leg.direction == base.direction then Ok(false)
      else
        var converted :- ConvertAt(base.amount, fx.rate);
        if converted != leg.amount then Ok(false) else QuotesAgree(legs[1..], base, fx)
  }

  function Balanced(d: Draft): Result<bool> {
    if d.legs != [] && OneCurrency(d.legs) then Ok(DebitsTotal(d.legs) == CreditsTotal(d.legs))
    else if d.fx == None || d.fx.value.rate == "" || d.fx.value.base == "" then Ok(false)
    else
      match FirstIn(d.legs, d.fx.value.base)
      case None => Ok(false)
      case Some(base) => QuotesAgree(d.legs, base, d.fx.value)
  }

  method IsBalanced(d: Draft) returns (r: Result<bool>)
    ensures r == Balanced(d)
  {
    if d.legs != [] && OneCurrency(d.legs) {
      return Ok(DebitsTotal(d.legs) == CreditsTotal(d.legs));
    }
    if d.fx == None || d.fx.value.rate == "" || d.fx.value.base == "" {
      return Ok(false);
    }
    var fx := d.fx.value;
    var found := FirstIn(d.legs, fx.base);
    if found == None {
      return Ok(false);
    }
    var base := found.value;
    for i := 0 to |d.legs|
      invariant QuotesAgree(d.legs, base, fx) == QuotesAgree(d.legs[i..], base, fx)
    {
      var leg := d.legs[i];
      assert d.legs[i..][1..] == d.legs[i + 1..];
      if leg.currency == fx.base {
        continue;
      }
      if leg.direction == base.direction {
        return Ok(false);
      }
      var converted := ConvertAt(base.amount, fx.rate);
      if converted.Err? {
        return Err(converted.error);
      }
      if converted.value != leg.amount {
        return Ok(false);
      }
    }
    return Ok(true);
  }

  /** Every leg in another currency opposes the base leg and equals its conversion. */
  predicate AllQuotesAgree(legs: seq<Leg>, base: Leg, fx: Fx) {
    forall i :: 0 <= i < |legs| && legs[i].currency != fx.base ==>
      legs[i].direction != base.direction && ConvertAt(base.amount, fx.rate) == Ok(legs[i].amount)
  }

  lemma {:induction false} QuotesAgreeExact(legs: seq<Leg>, base: Leg, fx: Fx)
    ensures QuotesAgree(legs, base, fx) == Ok(true) <==> AllQuotesAgree(legs, base, fx)
  {
    hide ConvertAt;
    if legs != [] {
      QuotesAgreeExact(legs[1..], base, fx);
      assert forall i :: 0 <= i < |legs| - 1 ==> legs[1..][i] == legs[i + 1];
      assert AllQuotesAgree(legs, base, fx) ==> AllQuotesAgree(legs[1..], base, fx);
    }
  }

  /** Legs in several currencies balance exactly when a rate and its base currency are given, some leg is in the base
      currency, and every other-currency leg agrees with the first such leg; further base legs are not looked at. */
  lemma {:induction false} CrossBalancedExact(d: Draft)
    requires d.legs != [] && !OneCurrency(d.legs)
    ensures Balanced(d) == Ok(true) <==>
      && d.fx.Some? && d.fx.value.rate != "" && d.fx.value.base != ""
      && FirstIn(d.legs, d.fx.value.base).Some?
      && AllQuotesAgree(d.legs, FirstIn(d.legs, d.fx.value.base).value, d.fx.value)
  {
    hide ConvertAt;
    if d.fx.Some? && FirstIn(d.legs, d.fx.value.base).Some? {
      QuotesAgreeExact(d.legs, FirstIn(d.legs, d.fx.value.base).value, d.fx.value);
    }
  }

  /** A draft balances exactly when its legs in one currency debit as much as they credit, or its quotes agree. */
  lemma {:induction false} BalancedExact(d: Draft)
    ensures d.legs == [] ==> Balanced(d) != Ok(true)
    ensures d.legs != [] && OneCurrency(d.legs) ==>
      Balanced(d) == Ok(Total(d.legs, (leg: Leg) => if leg.direction == Debit then leg.amount else -leg.amount) == 0)
    ensures d.legs != [] && !OneCurrency(d.legs) && Balanced(d) == Ok(true) ==>
      && d.fx.Some? && FirstIn(d.legs, d.fx.value.base).Some?
      && AllQuotesAgree(d.legs, FirstIn(d.legs, d.fx.value.base).value, d.fx.value)
  {
    hide ConvertAt;
    SidesSubtract(d.legs, (leg: Leg) => if leg.direction == Debit then leg.amount else -leg.amount);
    if d.legs != [] && !OneCurrency(d.legs) { CrossBalancedExact(d); }
  }

  lemma {:induction false} SidesSubtract(legs: seq<Leg>, w: Leg -> int)
    requires forall leg :: w(leg) == if leg.direction == Debit then leg.amount else -leg.amount
    ensures Total(legs, w) == DebitsTotal(legs) - CreditsTotal(legs)
  {
    if legs != [] {
      SidesSubtract(legs[..|legs| - 1], w);
    }
  }

  // ----- construction -----

  function Of(legs: seq<Leg>): Result<Draft> {
    var fault := LegsFault(legs);
    if fault.Some? then Err(fault.value)
    else if !OneCurrency(legs) then Err(UnbalancedTransaction)
    else if DebitsTotal(legs) != CreditsTotal(legs) then Err(UnbalancedTransaction)
    else Ok(Draft(legs, None))
  }

  function CrossCurrency(legs: seq<Leg>, fx: Fx): Result<Draft> {
    var fault := LegsFault(legs);
    if fault.Some? then Err(fault.value)
    else
      var balanced :- Balanced(Draft(legs, Some(fx)));
      if !balanced then Err(UnbalancedTransaction) else Ok(Draft(legs, Some(fx)))
  }

  function BuildTransfer(source: AccountId, target: AccountId, amount: int,
                         sourceCurrency: Currency, targetCurrency: Currency, rate: string): Result<Draft> {
    if source == target then Err(InvalidTransaction)
    else if sourceCurrency == targetCurrency then
      if rate != "" then Err(InvalidTransaction)
      else Of([Leg(source, Credit, amount, sourceCurrency), Leg(target, Debit, amount, targetCurrency)])
    else if rate == "" then Err(InvalidTransaction)
    else
      var converted :- ConvertAt(amount, rate);
      CrossCurrency(
        [Leg(source, Credit, amount, sourceCurrency), Leg(target, Debit, converted, targetCurrency)],
        Fx(rate, sourceCurrency))
  }

  function BuildDeposit(account: AccountId, amount: int, currency: Currency, vault: AccountId): Result<Draft> {
    Of([Leg(account, Debit, amount, currency), Leg(vault, Credit, amount, currency)])
  }

  function BuildWithdrawal(account: AccountId, amount: int, currency: Currency, vault: AccountId): Result<Draft> {
    Of([Leg(account, Credit, amount, currency), Leg(vault, Debit, amount, currency)])
  }

  // ----- what construction guarantees -----

  /** The two legs of a cross-currency transfer: the base amount out, its conversion in. */
  predicate TransferPair(legs: seq<Leg>, fx: Fx) {
    && |legs| == 2
    && legs[0].direction == Credit && legs[1].direction == Debit
    && legs[0].currency == fx.base && legs[1].currency != fx.base
    && ConvertAt(legs[0].amount, fx.rate) == Ok(legs[1].amount)
  }

  predicate Accepted(d: Draft) {
    && ValidLegs(d.legs)
    && (match d.fx
        case None => OneCurrency(d.legs) && DebitsTotal(d.legs) == CreditsTotal(d.legs)
        case Some(fx) => TransferPair(d.legs, fx))
  }

  const SMALLEST: Draft := Draft([Leg(0, Credit, 1, "USD"), Leg(1, Debit, 1, "USD")], None)

  lemma {:induction false} PairTotals(x: Leg, y: Leg)
    ensures DebitsTotal([x, y]) == SideAmount(Debit)(x) + SideAmount(Debit)(y)
    ensures CreditsTotal([x, y]) == SideAmount(Credit)(x) + SideAmount(Credit)(y)
  {
    TotalPair(x, y, SideAmount(Debit));
    TotalPair(x, y, SideAmount(Credit));
  }

  lemma {:induction false} OfAccepts(legs: seq<Leg>)
    ensures Of(legs).Ok? <==> Accepted(Draft(legs, None))
    ensures Of(legs).Ok? ==> Of(legs).value == Draft(legs, None)
  {
    NoFaultIffValid(legs);
  }

  /** A transfer is built exactly when its accounts differ, its amount is positive, and a rate is
      given, convertible and not rounding to nothing just when the currencies differ. */
  lemma {:induction false} BuildTransferExact(source: AccountId, target: AccountId, amount: int,
                           sourceCurrency: Currency, targetCurrency: Currency, rate: string)
    ensures var built := BuildTransfer(source, target, amount, sourceCurrency, targetCurrency, rate);
            && (built.Ok? ==> Accepted(built.value))
            && (built.Ok? <==>
                && source != target && amount > 0
                && (if sourceCurrency == targetCurrency then rate == ""
                    else && sourceCurrency != "" && rate != "" && ConvertAt(amount, rate).Ok?
                         && ConvertAt(amount, rate).value > 0))
            && (built.Ok? ==>
                && |built.value.legs| == 2
                && built.value.legs[0] == Leg(source, Credit, amount, sourceCurrency)
                && (if sourceCurrency == targetCurrency
                    then built.value.legs[1] == Leg(target, Debit, amount, targetCurrency) && built.value.fx == None
                    else && ConvertAt(amount, rate).Ok?
                         && built.value.legs[1] == Leg(target, Debit, ConvertAt(amount, rate).value, targetCurrency)
                         && built.value.fx == Some(Fx(rate, sourceCurrency))))
  {
    hide ConvertAt;
    if sourceCurrency == targetCurrency {
      var legs := [Leg(source, Credit, amount, sourceCurrency), Leg(target, Debit, amount, targetCurrency)];
      NoFaultIffValid(legs);
      PairTotals(legs[0], legs[1]);
    } else if rate != "" && ConvertAt(amount, rate).Ok? {
      var converted := ConvertAt(amount, rate).value;
      var legs := [Leg(source, Credit, amount, sourceCurrency), Leg(target, Debit, converted, targetCurrency)];
      NoFaultIffValid(legs);
      PairQuotes(legs[0], legs[1], Fx(rate, sourceCurrency));
    }
  }

  lemma {:induction false} PairQuotes(base: Leg, quote: Leg, fx: Fx)
    requires base.currency == fx.base && quote.currency != fx.base && base.direction != quote.direction
    requires fx.rate != ""
    ensures !OneCurrency([base, quote])
    ensures ConvertAt(base.amount, fx.rate) == Ok(quote.amount) && fx.base != "" ==>
              Balanced(Draft([base, quote], Some(fx))) == Ok(true)
    ensures fx.base == "" ==> Balanced(Draft([base, quote], Some(fx))) == Ok(false)
  {
    assert [base, quote][1..] == [quote];
    assert [quote][1..] == [];
    assert ConvertAt(base.amount, fx.rate) == Ok(quote.amount) ==> QuotesAgree([quote], base, fx) == Ok(true);
    assert QuotesAgree([base, quote], base, fx) == QuotesAgree([quote], base, fx);
    assert [base, quote][1].currency != [base, quote][0].currency;
  }

  /** Deposits and withdrawals are built exactly for positive amounts on an account other than the vault. */
  lemma {:induction false} BuildMovementExact(account: AccountId, amount: int, currency: Currency, vault: AccountId)
    ensures BuildDeposit(account, amount, currency, vault).Ok? <==> amount > 0 && account != vault
    ensures BuildWithdrawal(account, amount, currency, vault).Ok? <==> amount > 0 && account != vault
    ensures BuildDeposit(account, amount, currency, vault).Ok? ==>
              Accepted(BuildDeposit(account, amount, currency, vault).value)
    ensures BuildWithdrawal(account, amount, currency, vault).Ok? ==>
              Accepted(BuildWithdrawal(account, amount, currency, vault).value)
    ensures BuildDeposit(account, amount, currency, vault).Ok? ==>
              BuildDeposit(account, amount, currency, vault).value ==
                Draft([Leg(account, Debit, amount, currency), Leg(vault, Credit, amount, currency)], None)
    ensures BuildWithdrawal(account, amount, currency, vault).Ok? ==>
              BuildWithdrawal(account, amount, currency, vault).value ==
                Draft([Leg(account, Credit, amount, currency), Leg(vault, Debit, amount, currency)], None)
  {
    var deposit := [Leg(account, Debit, amount, currency), Leg(vault, Credit, amount, currency)];
    var withdrawal := [Leg(account, Credit, amount, currency), Leg(vault, Debit, amount, currency)];
    NoFaultIffValid(deposit);
    NoFaultIffValid(withdrawal);
    PairTotals(deposit[0], deposit[1]);
    PairTotals(withdrawal[0], withdrawal[1]);
  }

  /** Only the first base leg is compared: a second one passes whatever its amount. */
  lemma {:induction false} ExtraBaseLegUnchecked(extra: int)
    requires extra > 0
    ensures var legs := [Leg(0, Credit, 1, "USD"), Leg(1, Debit, 1, "EUR"), Leg(2, Credit, extra, "USD")];
            CrossCurrency(legs, Fx("1", "USD")) == Ok(Draft(legs, Some(Fx("1", "USD"))))
  {
    var legs := [Leg(0, Credit, 1, "USD"), Leg(1, Debit, 1, "EUR"), Leg(2, Credit, extra, "USD")];
    NoFaultIffValid(legs);
    UnitRate();
    assert legs[1].currency != legs[0].currency;
    assert legs[1..] == [legs[1], legs[2]];
    assert legs[1..][1..] == [legs[2]];
    assert [legs[2]][1..] == [];
    var fx := Fx("1", "USD");
    assert QuotesAgree([legs[2]], legs[0], fx) == Ok(true);
    assert QuotesAgree(legs[1..], legs[0], fx) == Ok(true);
    assert QuotesAgree(legs, legs[0], fx) == Ok(true);
  }

  lemma {:induction false} UnitRate()
    ensures ConvertAt(1, "1") == Ok(1)
  {
    assert "1"[0] == '1';
    assert IsDigit('1');
    TrimNumber("1");
    assert "1" == "1" + Tail("");
    ShapeSplits("1", 10, "1", "");
    assert "1"[..0] == [];
    assert Value("1") == 1;
    assert RateUnits("1", "") == 1;
  }

  // ----- refusals -----

  /** An earlier leg has the account of leg i. */
  predicate Repeats(legs: seq<Leg>, i: nat)
    requires i < |legs|
  {
    exists j :: 0 <= j < i && legs[j].accountId == legs[i].accountId
  }

  /** Leg i is the first bad one and gives this error: a repeated account is an invalid transaction, an amount that is
      not positive an invalid amount. */
  predicate FirstBad(legs: seq<Leg>, i: nat, e: Error)
    requires i < |legs|
  {
    && DistinctAccounts(legs[..i]) && PositiveAmounts(legs[..i])
    && (Repeats(legs, i) || legs[i].amount <= 0)
    && e == if Repeats(legs, i) then InvalidTransaction else InvalidAmount
  }

  lemma {:induction false} RepeatsIsUses(legs: seq<Leg>, i: nat)
    requires i < |legs|
    ensures Repeats(legs, i) <==> Uses(legs[..i], legs[i].accountId)
  {
    if Uses(legs[..i], legs[i].accountId) {
      var j :| 0 <= j < i && legs[..i][j].accountId == legs[i].accountId;
      assert legs[j].accountId == legs[i].accountId;
    }
    if Repeats(legs, i) {
      var j :| 0 <= j < i && legs[j].accountId == legs[i].accountId;
      assert legs[..i][j].accountId == legs[i].accountId;
    }
  }

  /** The error of the scan is that of the first bad leg. */
  lemma {:induction false} FirstFaultMeans(legs: seq<Leg>)
    ensures FirstFault(legs).Some? ==> exists i :: 0 <= i < |legs| && FirstBad(legs, i, FirstFault(legs).value)
  {
    hide Uses, Repeats, DistinctAccounts, PositiveAmounts;
    if FirstFault(legs).Some? {
      var front, n := legs[..|legs| - 1], |legs| - 1;
      if FirstFault(front).Some? {
        FirstFaultMeans(front);
        var i :| 0 <= i < |front| && FirstBad(front, i, FirstFault(front).value);
        assert legs[..i] == front[..i];
        RepeatsIsUses(front, i);
        RepeatsIsUses(legs, i);
        assert FirstBad(legs, i, FirstFault(legs).value);
      } else {
        NoFaultIffValid(front);
        RepeatsIsUses(legs, n);
        assert FirstBad(legs, n, FirstFault(legs).value);
      }
    }
  }

  /** Fewer than two legs are an invalid transaction; valid legs that do not balance are unbalanced. */
  lemma {:induction false} OfRefusals(legs: seq<Leg>)
    ensures |legs| < 2 ==> Of(legs) == Err(InvalidTransaction)
    ensures |legs| >= 2 && FirstFault(legs).Some? ==> Of(legs) == Err(FirstFault(legs).value)
    ensures ValidLegs(legs) && Of(legs).Err? ==> Of(legs) == Err(UnbalancedTransaction)
  {
    NoFaultIffValid(legs);
  }

  /** What a transfer is refused for, in the order it is looked at. */
  lemma {:induction false} TransferRefusals(source: AccountId, target: AccountId, amount: int,
        sourceCurrency: Currency, targetCurrency: Currency, rate: string)
    ensures var built := BuildTransfer(source, target, amount, sourceCurrency, targetCurrency, rate);
            && (source == target ==> built == Err(InvalidTransaction))
            && (source != target && (sourceCurrency == targetCurrency <==> rate != "") ==>
                  built == Err(InvalidTransaction))
            && (source != target && sourceCurrency == targetCurrency && rate == "" && amount <= 0 ==>
                  built == Err(InvalidAmount))
            && (source != target && sourceCurrency != targetCurrency && rate != "" && built.Err? ==>
                  built == Err(if ConvertAt(amount, rate).Ok? && amount > 0 && ConvertAt(amount, rate).value > 0
                               then UnbalancedTransaction else InvalidAmount))
  {
    hide ConvertAt;
    if source != target {
      if sourceCurrency == targetCurrency {
        PairRefusal(Leg(source, Credit, amount, sourceCurrency), Leg(target, Debit, amount, targetCurrency));
      } else if rate != "" {
        ConvertRefusal(amount, rate);
        if ConvertAt(amount, rate).Ok? {
          var converted := ConvertAt(amount, rate).value;
          var base, quote := Leg(source, Credit, amount, sourceCurrency), Leg(target, Debit, converted, targetCurrency);
          PairRefusal(base, quote);
          PairQuotes(base, quote, Fx(rate, sourceCurrency));
        }
      }
    }
  }

  lemma {:induction false} PairRefusal(x: Leg, y: Leg)
    requires x.accountId != y.accountId
    ensures LegsFault([x, y]) == if x.amount <= 0 || y.amount <= 0 then Some(InvalidAmount) else None
  {
    assert [x][..0] == [];
    assert !Uses([], x.accountId) && !Uses([x], y.accountId);
    assert FirstFault([x]) == if x.amount <= 0 then Some(InvalidAmount) else None;
    assert [x, y][..1] == [x];
  }

  // ----- reversal -----

  function Flip(legs: seq<Leg>): (flipped: seq<Leg>)
    ensures |flipped| == |legs|
    ensures forall i :: 0 <= i < |legs| ==> flipped[i] == legs[i].(direction := Opposite(legs[i].direction))
  {
    seq(|legs|, i requires 0 <= i < |legs| => legs[i].(direction := Opposite(legs[i].direction)))
  }

  lemma {:induction false} FlipTotals(legs: seq<Leg>)
    ensures DebitsTotal(Flip(legs)) == CreditsTotal(legs)
    ensures CreditsTotal(Flip(legs)) == DebitsTotal(legs)
  {
    if legs != [] {
      var front := legs[..|legs| - 1];
      FlipTotals(front);
      assert Flip(legs)[..|legs| - 1] == Flip(front);
    }
  }

  /** A reversal can be built from an accepted transaction exactly when it has one currency. */
  lemma {:induction false} ReversalBuildable(d: Draft)
    requires Accepted(d)
    ensures Of(Flip(d.legs)) == if d.fx == None then Ok(Draft(Flip(d.legs), None)) else Err(UnbalancedTransaction)
  {
    NoFaultIffValid(Flip(d.legs));
    FlipTotals(d.legs);
    assert PositiveAmounts(Flip(d.legs));
    if d.fx.Some? {
      assert Flip(d.legs)[1].currency != Flip(d.legs)[0].currency;
    }
  }

  type Movement = d: Draft | Accepted(d)
    witness (SmallestAccepted(); SMALLEST)

  lemma {:induction false} SmallestAccepted()
    ensures Accepted(SMALLEST)
  {
    PairTotals(SMALLEST.legs[0], SMALLEST.legs[1]);
  }
}
