/** What posting and voiding do to balances, and exactly when they succeed. */
module Effects {
  import opened Prelude
  import opened Seqs
  import opened Money
  import opened DoubleEntry
  import opened Ledger
  import opened Invariants
  import opened Preservation
  import opened Conservation

  /** Publishing moves every balance by exactly what the new transaction's entries say. */
  lemma {:induction false} PublishEffect(l: Ledger, t: TxId, row: TxRow, legs: seq<Leg>, a: AccountId)
    requires Linked(l) && Present(l.accounts, legs) && t !in l.txs && a in l.accounts
    ensures Balance(Publish(l, t, row, legs), a) == Balance(l, a) + NetOn(Publish(l, t, row, legs), t, a)
  {
    hide Where, Total;
    var l', es := Publish(l, t, row, legs), Stamp(t, legs, NextSeqs(l.accounts, legs));
    WhereConcat(l.entries, es, OfAccount(a));
    PublishedOwnTx(l, t, row, legs);
    TotalConcat(Stream(l, a), Where(es, OfAccount(a)), Delta(l.accounts[a].normalSide));
  }

  lemma {:induction false} FundsNeverDuplicate(rows: map<AccountId, Account>, balances: map<AccountId, int>,
        legs: seq<Leg>)
    requires Present(rows, legs)
    ensures FundsFault(rows, balances, legs) != Some(DuplicateReference)
  {
    if legs != [] {
      FundsNeverDuplicate(rows, balances, legs[..|legs| - 1]);
    }
  }

  /** The gate speaks first: a repeated reference is reported as one exactly when every leg is still allowed;
      otherwise the caller gets the gate's refusal. */
  lemma {:induction false} DuplicateExact(l: Ledger, t: TxId, d: Movement, kind: TxType, reference: Option<string>,
        at: Time)
    requires Inv(l)
    ensures ApplyPost(l, t, d, kind, reference, at).1 == Some(DuplicateReference) <==>
      && reference.Some? && HasReference(l.txs, reference.value)
      && forall i :: 0 <= i < |d.legs| ==> LegAllowed(l, d.legs[i])
  {
    hide Inv, LegAllowed, FundsFault, SlotsFree, HasReference, AccountsOk, SnapshotsOk;
    ReadsSound(l);
    GateExact(l, d.legs);
    var balances := BalancesFor(l, AccountsOf(d.legs), None);
    if Present(l.accounts, d.legs) {
      FundsNeverDuplicate(l.accounts, balances, d.legs);
    }
  }

  /** A posting succeeds exactly when every leg is allowed, its reference is unused and its id is new. */
  lemma {:induction false} PostExact(l: Ledger, t: TxId, d: Movement, kind: TxType, reference: Option<string>, at: Time)
    requires Inv(l)
    ensures ApplyPost(l, t, d, kind, reference, at).1 == None <==>
      && (forall i :: 0 <= i < |d.legs| ==> LegAllowed(l, d.legs[i]))
      && (reference.Some? ==> !HasReference(l.txs, reference.value))
      && t !in l.txs
  {
    hide MovementFault, Inv;
    MovementFaultExact(l, t, PostHeader(d, kind, reference, at), d.legs);
  }

  lemma {:induction false} PostEffect(l: Ledger, op: Op, a: AccountId)
    requires Inv(l) && op.Post? && Apply(l, op).1 == None && a in l.accounts
    ensures Balance(Apply(l, op).0, a) == Balance(l, a) + NetOn(Apply(l, op).0, op.id, a)
  {
    hide Inv, Balance, NetOn, LegAllowed;
    PostExact(l, op.id, op.tx, op.kind, op.reference, op.at);
    LinkedOf(l);
    PublishEffect(l, op.id, PostHeader(op.tx, op.kind, op.reference, op.at), op.tx.legs, a);
  }

  /** A void succeeds exactly when the target is posted, has one currency, and every flipped leg is allowed. */
  lemma {:induction false} VoidExact(l: Ledger, t: TxId, target: TxId, at: Time)
    requires Inv(l)
    ensures ApplyVoid(l, t, target, at).1 == None <==>
      && target in l.txs && l.txs[target].status == Posted && !l.txs[target].meta.FxMeta?
      && (forall i :: 0 <= i < |LegsOf(l, target)| ==> LegAllowed(l, Flip(LegsOf(l, target))[i]))
      && t !in l.txs
  {
    hide MovementFault, AccountsOk, ReversalsOk, SnapshotsOk, TxOk, LegAllowed, Of;
    if target in l.txs {
      var legs := Flip(LegsOf(l, target));
      assert TxOk(l, target);
      VoidableHasOneCurrency(l, target);
      if Of(legs).Ok? {
        OfAccepts(legs);
        MovementFaultExact(l, t, ReversalHeader(target, at), legs);
      }
    }
  }

  /** A cross-currency transfer can never be voided. */
  lemma {:induction false} ExchangeNeverVoided(l: Ledger, t: TxId, target: TxId, at: Time)
    requires Inv(l) && target in l.txs && l.txs[target].meta.FxMeta?
    ensures ApplyVoid(l, t, target, at) == (l, Some(UnbalancedTransaction))
  {
    hide AccountsOk, ReversalsOk, SnapshotsOk, TxOk, LegsOf, Of;
    assert TxOk(l, target);
    VoidableHasOneCurrency(l, target);
  }

  /** Voiding takes back from every balance exactly what the transaction did to it. */
  lemma {:induction false} VoidEffect(l: Ledger, t: TxId, target: TxId, at: Time, a: AccountId)
    requires Inv(l) && ApplyVoid(l, t, target, at).1 == None && a in l.accounts
    ensures Balance(ApplyVoid(l, t, target, at).0, a) == Balance(l, a) - NetOn(l, target, a)
  {
    hide Inv, MovementFault, Of, NetOn, Balance, LegAllowed;
    var row, legs := ReversalHeader(target, at), Flip(LegsOf(l, target));
    VoidSucceeds(l, t, target, at);
    VoidExact(l, t, target, at);
    LinkedOf(l);
    var l1 := Publish(l, t, row, legs);
    PublishEffect(l, t, row, legs, a);
    MarkKeepsBalance(l1, target, a);
    ReversalNets(l, t, row, target, a);
  }

  lemma {:induction false} MarkKeepsBalance(l: Ledger, target: TxId, a: AccountId)
    requires target in l.txs
    ensures Balance(Mark(l, target), a) == Balance(l, a)
  {
    assert Stream(Mark(l, target), a) == Stream(l, a);
  }

  lemma {:induction false} ReversalNets(l: Ledger, t: TxId, row: TxRow, target: TxId, a: AccountId)
    requires Inv(l) && target in l.txs && t !in l.txs && Present(l.accounts, Flip(LegsOf(l, target))) && a in l.accounts
    ensures NetOn(Publish(l, t, row, Flip(LegsOf(l, target))), t, a) == -NetOn(l, target, a)
  {
    hide Where, Total, AccountsOk, ReversalsOk, SnapshotsOk;
    var legs := Flip(LegsOf(l, target));
    PublishedOwnTx(l, t, row, legs);
    assert TxOk(l, target);
    FlippedNets(TxEntries(l, target), TxEntries(Publish(l, t, row, legs), t), a, l.accounts[a].normalSide);
  }

  /** Post, then void: every balance is back where it was, on either normal side. */
  lemma {:induction false} VoidUndoesPost(l: Ledger, op: Op, t: TxId, at: Time, a: AccountId)
    requires Inv(l) && Timely(l, op) && op.Post? && Apply(l, op).1 == None && a in l.accounts
    requires ApplyVoid(Apply(l, op).0, t, op.id, at).1 == None
    ensures Balance(ApplyVoid(Apply(l, op).0, t, op.id, at).0, a) == Balance(l, a)
  {
    hide Inv, Timely, Apply, ApplyVoid, NetOn, Balance;
    PostEffect(l, op, a);
    ApplyKeeps(l, op);
    AccountRemains(l, op, a);
    VoidEffect(Apply(l, op).0, t, op.id, at, a);
  }

  lemma {:induction false} AccountRemains(l: Ledger, op: Op, a: AccountId)
    requires op.Post? && a in l.accounts
    ensures a in Apply(l, op).0.accounts
  {
    hide MovementFault;
  }

  /** A transfer takes the amount from the source's credit side, gives the same amount, or its conversion, to the
      target's debit side, and touches no third balance. */
  lemma {:induction false} TransferEffect(l: Ledger, t: TxId, source: AccountId, target: AccountId, amount: int,
                               sourceCurrency: Currency, targetCurrency: Currency, rate: string,
                               reference: Option<string>, at: Time, a: AccountId)
    requires Inv(l) && a in l.accounts
    requires BuildTransfer(source, target, amount, sourceCurrency, targetCurrency, rate).Ok?
    requires var d := BuildTransfer(source, target, amount, sourceCurrency, targetCurrency, rate).value;
             ApplyPost(l, t, d, TransferTx, reference, at).1 == None
    ensures var d := BuildTransfer(source, target, amount, sourceCurrency, targetCurrency, rate).value;
            var l', side := ApplyPost(l, t, d, TransferTx, reference, at).0, l.accounts[a].normalSide;
            && (a == source ==> Balance(l', a) == Balance(l, a) + (if side == Credit then amount else -amount))
            && (a == target && sourceCurrency == targetCurrency ==>
                  Balance(l', a) == Balance(l, a) + (if side == Debit then amount else -amount))
            && (a == target && sourceCurrency != targetCurrency ==>
                  ConvertAt(amount, rate).Ok? &&
                  var converted := ConvertAt(amount, rate).value;
                  Balance(l', a) == Balance(l, a) + (if side == Debit then converted else -converted))
            && (a != source && a != target ==> Balance(l', a) == Balance(l, a))
  {
    hide Inv, MovementFault, Balance, Publish, ConvertAt, BuildTransfer;
    var d := BuildTransfer(source, target, amount, sourceCurrency, targetCurrency, rate).value;
    BuildTransferExact(source, target, amount, sourceCurrency, targetCurrency, rate);
    TransferLegs(source, target, amount, sourceCurrency, targetCurrency, rate);
    var row := PostHeader(d, TransferTx, reference, at);
    PostedPresent(l, t, row, d.legs);
    if a == source {
      PublishedBalance(l, t, row, d.legs, 0);
    } else if a == target {
      PublishedBalance(l, t, row, d.legs, 1);
    } else {
      ThirdBalance(l, t, row, d.legs, a);
    }
  }

  lemma {:induction false} PostedPresent(l: Ledger, t: TxId, row: TxRow, legs: seq<Leg>)
    requires MovementFault(l, t, row, legs) == None
    ensures Present(l.accounts, legs)
  {
  }

  lemma {:induction false} ThirdBalance(l: Ledger, t: TxId, row: TxRow, legs: seq<Leg>, a: AccountId)
    requires Present(l.accounts, legs) && a in l.accounts && !Uses(legs, a)
    ensures Balance(Publish(l, t, row, legs), a) == Balance(l, a)
  {
    PublishedElsewhere(l, t, row, legs, a);
  }

  lemma {:induction false} TransferLegs(source: AccountId, target: AccountId, amount: int,
                             sourceCurrency: Currency, targetCurrency: Currency, rate: string)
    requires BuildTransfer(source, target, amount, sourceCurrency, targetCurrency, rate).Ok?
    ensures var legs := BuildTransfer(source, target, amount, sourceCurrency, targetCurrency, rate).value.legs;
            && |legs| == 2
            && legs[0] == Leg(source, Credit, amount, sourceCurrency)
            && (if sourceCurrency == targetCurrency then legs[1] == Leg(target, Debit, amount, targetCurrency)
                else && ConvertAt(amount, rate).Ok?
                     && legs[1] == Leg(target, Debit, ConvertAt(amount, rate).value, targetCurrency))
  {
    hide ConvertAt, Balanced, LegsFault;
  }

  lemma {:induction false} MovementLegs(account: AccountId, amount: int, currency: Currency, vault: AccountId,
        d: Movement, way: Direction)
    requires d.legs == [Leg(account, way, amount, currency), Leg(vault, Opposite(way), amount, currency)]
    ensures DistinctAccounts(d.legs) && account != vault
  {
  }

  lemma {:induction false} MovementEffect(l: Ledger, t: TxId, row: TxRow, legs: seq<Leg>, account: AccountId,
        vault: AccountId, way: Direction, amount: int, currency: Currency, a: AccountId)
    requires legs == [Leg(account, way, amount, currency), Leg(vault, Opposite(way), amount, currency)]
    requires DistinctAccounts(legs) && Present(l.accounts, legs) && a in l.accounts
    ensures var l', side := Publish(l, t, row, legs), l.accounts[a].normalSide;
            && (a == account ==> Balance(l', a) == Balance(l, a) + (if side == way then amount else -amount))
            && (a == vault ==> Balance(l', a) == Balance(l, a) + (if side == way then -amount else amount))
            && (a != account && a != vault ==> Balance(l', a) == Balance(l, a))
  {
    hide Balance, Publish;
    assert legs[0].accountId != legs[1].accountId;
    if a == account {
      PublishedBalance(l, t, row, legs, 0);
    } else if a == vault {
      PublishedBalance(l, t, row, legs, 1);
    } else {
      ThirdBalance(l, t, row, legs, a);
    }
  }

  /** A deposit raises a debit-normal account and lowers a debit-normal vault by the amount; on a credit-normal one the
      signs turn; no third balance moves. */
  lemma {:induction false} DepositEffect(l: Ledger, t: TxId, account: AccountId, vault: AccountId, amount: int,
        currency: Currency, reference: Option<string>, at: Time, a: AccountId)
    requires Inv(l) && a in l.accounts && BuildDeposit(account, amount, currency, vault).Ok?
    requires ApplyPost(l, t, BuildDeposit(account, amount, currency, vault).value, DepositTx, reference, at).1 == None
    ensures var d := BuildDeposit(account, amount, currency, vault).value;
            var l', side := ApplyPost(l, t, d, DepositTx, reference, at).0, l.accounts[a].normalSide;
            && (a == account ==> Balance(l', a) == Balance(l, a) + (if side == Debit then amount else -amount))
            && (a == vault ==> Balance(l', a) == Balance(l, a) + (if side == Debit then -amount else amount))
            && (a != account && a != vault ==> Balance(l', a) == Balance(l, a))
  {
    hide Inv, MovementFault, Balance, Publish, BuildDeposit, PostHeader;
    BuildMovementExact(account, amount, currency, vault);
    var d: Movement := BuildDeposit(account, amount, currency, vault).value;
    var row := PostHeader(d, DepositTx, reference, at);
    PostedPresent(l, t, row, d.legs);
    MovementLegs(account, amount, currency, vault, d, Debit);
    MovementEffect(l, t, row, d.legs, account, vault, Debit, amount, currency, a);
  }

  lemma {:induction false} WithdrawalEffect(l: Ledger, t: TxId, account: AccountId, vault: AccountId, amount: int,
        currency: Currency, reference: Option<string>, at: Time, a: AccountId)
    requires Inv(l) && a in l.accounts && BuildWithdrawal(account, amount, currency, vault).Ok?
    requires var d := BuildWithdrawal(account, amount, currency, vault).value;
             ApplyPost(l, t, d, WithdrawalTx, reference, at).1 == None
    ensures var d := BuildWithdrawal(account, amount, currency, vault).value;
            var l', side := ApplyPost(l, t, d, WithdrawalTx, reference, at).0, l.accounts[a].normalSide;
            && (a == account ==> Balance(l', a) == Balance(l, a) + (if side == Debit then -amount else amount))
            && (a == vault ==> Balance(l', a) == Balance(l, a) + (if side == Debit then amount else -amount))
            && (a != account && a != vault ==> Balance(l', a) == Balance(l, a))
  {
    hide Inv, MovementFault, Balance, Publish, BuildWithdrawal, PostHeader;
    BuildMovementExact(account, amount, currency, vault);
    var d: Movement := BuildWithdrawal(account, amount, currency, vault).value;
    var row := PostHeader(d, WithdrawalTx, reference, at);
    PostedPresent(l, t, row, d.legs);
    MovementLegs(account, amount, currency, vault, d, Credit);
    MovementEffect(l, t, row, d.legs, account, vault, Credit, amount, currency, a);
  }
}
