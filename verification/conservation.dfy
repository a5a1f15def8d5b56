/** Money is conserved per currency at every instant, and cancelled pairs leave no trace in any balance. */
module Conservation {
  import opened Prelude
  import opened Seqs
  import opened Money
  import opened DoubleEntry
  import opened Ledger
  import opened Invariants
  import opened Preservation
  import opened Growth

  // ----- summing a log transaction by transaction -----

  function NotTx(t: TxId): Entry -> bool { (e: Entry) => e.txId != t }

  /** One transaction's share of a sum over the log. */
  function Share(log: seq<Entry>, w: Entry -> int): TxId -> int {
    (t: TxId) => Total(Where(log, OfTx(t)), w)
  }

  lemma {:induction false} ShareOfRest(log: seq<Entry>, t: TxId, u: TxId, w: Entry -> int)
    requires u != t
    ensures Share(log, Masked(NotTx(t), w))(u) == Share(log, w)(u)
  {
    WhereMembers(log, OfTx(u));
    TotalSame(Where(log, OfTx(u)), Masked(NotTx(t), w), w);
  }

  /** A sum over a log is the sum of the shares of its transactions. */
  lemma {:induction false} GroupedTotal(log: seq<Entry>, ids: seq<TxId>, w: Entry -> int)
    requires Distinct(ids) && forall e :: e in log && e.txId !in ids ==> w(e) == 0
    ensures Total(log, w) == Total(ids, Share(log, w))
    decreases |ids|
  {
    hide Share;
    if ids == [] {
      TotalZero(log, w);
    } else {
      var front, t := ids[..|ids| - 1], ids[|ids| - 1];
      var rest := Masked(NotTx(t), w);
      forall e | e in log && e.txId !in front
        ensures rest(e) == 0
      {
        assert ids == front + [t];
      }
      GroupedTotal(log, front, rest);
      forall u | u in front
        ensures Share(log, rest)(u) == Share(log, w)(u)
      {
        ShareOfRest(log, t, u, w);
      }
      TotalSame(front, Share(log, rest), Share(log, w));
      SplitOff(log, t, w);
    }
  }

  lemma {:induction false} SplitOff(log: seq<Entry>, t: TxId, w: Entry -> int)
    ensures Total(log, w) == Total(log, Masked(NotTx(t), w)) + Share(log, w)(t)
  {
    TotalWhere(log, OfTx(t), w);
    TotalAdd(log, Masked(OfTx(t), w), Masked(NotTx(t), w), w);
  }

  // ----- conservation -----

  function Signed(e: Entry): int { if e.direction == Debit then e.amount else -e.amount }

  predicate InFx(txs: map<TxId, TxRow>, t: TxId) { t in txs && txs[t].meta.FxMeta? }

  /** Debits minus credits in one currency posted by an instant. */
  function Movement(txs: map<TxId, TxRow>, c: Currency, asOf: Option<Time>): Entry -> int {
    (e: Entry) => if e.currency == c && PostedBy(txs, asOf)(e) then Signed(e) else 0
  }

  function SignedOf(): Entry -> int { (e: Entry) => Signed(e) }

  lemma {:induction false} SignedTotal(es: seq<Entry>)
    ensures Total(es, SignedOf()) == DebitsTotal(EntryLegs(es)) - CreditsTotal(EntryLegs(es))
  {
    if es != [] {
      var front := es[..|es| - 1];
      SignedTotal(front);
      assert EntryLegs(es)[..|es| - 1] == EntryLegs(front);
    }
  }

  /** Posted by this instant. */
  predicate Counts(l: Ledger, t: TxId, asOf: Option<Time>) {
    t in l.txs && (asOf.Some? ==> l.txs[t].postedAt <= asOf.value)
  }

  /** All entries of a transaction share its header, so at any instant they count together or not at all. */
  lemma {:induction false} CountTogether(l: Ledger, t: TxId, c: Currency, asOf: Option<Time>, e: Entry)
    requires t in l.txs && e in TxEntries(l, t)
    ensures Movement(l.txs, c, asOf)(e) == if e.currency == c && Counts(l, t, asOf) then Signed(e) else 0
  {
    WhereMembers(l.entries, OfTx(t));
    assert OfTx(t)(e);
    assert PostedBy(l.txs, asOf)(e) == Counts(l, t, asOf);
  }

  lemma {:induction false} PlainTxIs(l: Ledger, t: TxId)
    requires t in l.txs && TxOk(l, t) && !InFx(l.txs, t)
    ensures DebitsTotal(LegsOf(l, t)) == CreditsTotal(LegsOf(l, t))
    ensures TxEntries(l, t) != []
    ensures forall e :: e in TxEntries(l, t) ==> e.currency == TxEntries(l, t)[0].currency
  {
    hide Where, Total;
    var es := TxEntries(l, t);
    assert ValidLegs(LegsOf(l, t));
    assert |es| == |LegsOf(l, t)|;
    forall e | e in es
      ensures e.currency == es[0].currency
    {
      var i :| 0 <= i < |es| && es[i] == e;
      assert LegsOf(l, t)[i].currency == LegsOf(l, t)[0].currency;
    }
  }

  lemma {:induction false} PlainTxNetsToZero(l: Ledger, t: TxId, c: Currency, asOf: Option<Time>)
    requires t in l.txs && TxOk(l, t) && !InFx(l.txs, t)
    ensures Total(TxEntries(l, t), Movement(l.txs, c, asOf)) == 0
  {
    hide Where, Total, TxOk, TxEntries, Movement, Counts;
    var es, w := TxEntries(l, t), Movement(l.txs, c, asOf);
    PlainTxIs(l, t);
    forall e | e in es
      ensures w(e) == if es[0].currency == c && Counts(l, t, asOf) then SignedOf()(e) else 0
    {
      CountTogether(l, t, c, asOf, e);
    }
    if es[0].currency == c && Counts(l, t, asOf) {
      TotalSame(es, w, SignedOf());
      SignedTotal(es);
    } else {
      TotalZero(es, w);
    }
  }

  lemma {:induction false} ExchangeIs(l: Ledger, t: TxId)
    requires t in l.txs && TxOk(l, t) && InFx(l.txs, t)
    ensures var es, fx := TxEntries(l, t), l.txs[t].meta;
            && |es| == 2 && es[0].direction == Credit && es[1].direction == Debit
            && es[0].currency == fx.fromCurrency && es[1].currency == fx.toCurrency && fx.fromCurrency != fx.toCurrency
            && ConvertAt(es[0].amount, fx.rate) == Ok(es[1].amount)
  {
    hide ConvertAt, Where;
    var es := TxEntries(l, t);
    assert TransferPair(LegsOf(l, t), FxOf(l.txs[t].meta).value);
    assert LegsOf(l, t)[0].currency == es[0].currency && LegsOf(l, t)[1].currency == es[1].currency;
  }

  /** What an exchange of this base amount adds to one currency, debits positive. */
  function ExchangeShare(base: int, fx: Meta, c: Currency): int
    requires fx.FxMeta? && ConvertAt(base, fx.rate).Ok?
  {
    if c == fx.fromCurrency then -base else if c == fx.toCurrency then ConvertAt(base, fx.rate).value else 0
  }

  /** From the moment it is posted, an exchange takes its base amount out of one currency and puts the exact
      conversion into the other; no other transaction, and no other currency, ever shows a surplus. */
  lemma {:induction false} ExchangeMovesConvertedAmount(l: Ledger, t: TxId, c: Currency, asOf: Option<Time>)
    requires Inv(l) && t in l.txs
    ensures InFx(l.txs, t) ==> TxEntries(l, t) != [] && ConvertAt(TxEntries(l, t)[0].amount, l.txs[t].meta.rate).Ok?
    ensures Total(TxEntries(l, t), Movement(l.txs, c, asOf)) ==
      if InFx(l.txs, t) && Counts(l, t, asOf) then ExchangeShare(TxEntries(l, t)[0].amount, l.txs[t].meta, c) else 0
  {
    hide AccountsOk, ReversalsOk, SnapshotsOk, Linked, TxOk, ConvertAt, TxEntries, Movement, Counts;
    if InFx(l.txs, t) {
      var es := TxEntries(l, t);
      ExchangeIs(l, t);
      CountTogether(l, t, c, asOf, es[0]);
      CountTogether(l, t, c, asOf, es[1]);
      TotalPair(es[0], es[1], Movement(l.txs, c, asOf));
      assert es == [es[0], es[1]];
    } else {
      PlainTxNetsToZero(l, t, c, asOf);
    }
  }

  /** The exchanges posted by an instant, one share each. */
  ghost function ExchangeShares(l: Ledger, c: Currency, asOf: Option<Time>): TxId -> int
    requires Inv(l)
  {
    (t: TxId) =>
      if InFx(l.txs, t) && Counts(l, t, asOf) then
        ExchangeMovesConvertedAmount(l, t, c, asOf);
        ExchangeShare(TxEntries(l, t)[0].amount, l.txs[t].meta, c)
      else 0
  }

  /** For each currency and each instant, debits minus credits over the whole log are the shares of the exchanges
      posted by then, each stored transaction counted once: nothing else creates or destroys money. */
  lemma {:induction false} ConservedPerCurrency(l: Ledger, c: Currency, asOf: Option<Time>)
    requires Inv(l)
    ensures Distinct(TxIds(l.entries))
    ensures forall t :: t in TxIds(l.entries) <==> t in l.txs
    ensures Total(l.entries, Movement(l.txs, c, asOf)) == Total(TxIds(l.entries), ExchangeShares(l, c, asOf))
  {
    hide Inv, Movement, InFx, Total, Where, TxIds;
    var ids, w := TxIds(l.entries), Movement(l.txs, c, asOf);
    StoredIds(l);
    LinkedOf(l);
    GroupedTotal(l.entries, ids, w);
    forall t | t in ids
      ensures Share(l.entries, w)(t) == ExchangeShares(l, c, asOf)(t)
    {
      ExchangeMovesConvertedAmount(l, t, c, asOf);
    }
    TotalSame(ids, Share(l.entries, w), ExchangeShares(l, c, asOf));
  }

  // ----- voiding -----

  /** What a transaction did to one account. */
  function NetOn(l: Ledger, t: TxId, a: AccountId): int {
    if a in l.accounts
    then Total(Where(TxEntries(l, t), OfAccount(a)), Delta(l.accounts[a].normalSide))
    else 0
  }

  lemma {:induction false} WhereCommutes(log: seq<Entry>, t: TxId, a: AccountId)
    ensures Where(Where(log, OfTx(t)), OfAccount(a)) == Where(Where(log, OfAccount(a)), OfTx(t))
  {
    WhereWhere(log, OfTx(t), OfAccount(a));
    WhereWhere(log, OfAccount(a), OfTx(t));
    WhereSame(log, Both(OfTx(t), OfAccount(a)), Both(OfAccount(a), OfTx(t)));
  }

  /** The effect of a transaction's entries on one account is the effect of its leg there. */
  lemma {:induction false} NetOfLeg(es: seq<Entry>, a: AccountId, side: Direction, i: nat)
    requires DistinctAccounts(EntryLegs(es)) && i < |es| && es[i].accountId == a
    ensures Total(Where(es, OfAccount(a)), Delta(side)) == Delta(side)(es[i])
  {
    var legs := EntryLegs(es);
    forall j | 0 <= j < |es| && j != i
      ensures !OfAccount(a)(es[j])
    {
      assert legs[j].accountId != legs[i].accountId;
    }
    WhereOne(es, OfAccount(a), i);
    TotalOne(es[i], Delta(side));
  }

  lemma {:induction false} NoLegNoNet(es: seq<Entry>, a: AccountId, side: Direction)
    requires !Uses(EntryLegs(es), a)
    ensures Total(Where(es, OfAccount(a)), Delta(side)) == 0
  {
    forall e | e in es
      ensures !OfAccount(a)(e)
    {
      var i :| 0 <= i < |es| && es[i] == e;
      assert EntryLegs(es)[i].accountId != a;
    }
    WhereNone(es, OfAccount(a));
  }

  /** Opposite legs have opposite effects on every account. */
  lemma {:induction false} FlippedNets(es: seq<Entry>, fs: seq<Entry>, a: AccountId, side: Direction)
    requires EntryLegs(fs) == Flip(EntryLegs(es)) && DistinctAccounts(EntryLegs(es))
    ensures Total(Where(fs, OfAccount(a)), Delta(side)) == -Total(Where(es, OfAccount(a)), Delta(side))
  {
    hide Where, Total;
    if Uses(EntryLegs(es), a) {
      var i :| 0 <= i < |es| && EntryLegs(es)[i].accountId == a;
      assert EntryLegs(fs)[i] == Flip(EntryLegs(es))[i];
      NetOfLeg(es, a, side, i);
      NetOfLeg(fs, a, side, i);
    } else {
      assert forall i :: 0 <= i < |fs| ==> EntryLegs(fs)[i].accountId == EntryLegs(es)[i].accountId;
      NoLegNoNet(es, a, side);
      NoLegNoNet(fs, a, side);
    }
  }

  /** A void transaction has exactly one reversal, the two cancel on every account, and neither crossed currencies. */
  lemma {:induction false} VoidsPairWithReversals(l: Ledger, o: TxId)
    requires Inv(l) && o in l.txs && l.txs[o].status == Voided
    ensures exists r :: Reverses(l, r, o)
    ensures forall r, q :: Reverses(l, r, o) && Reverses(l, q, o) ==> r == q
    ensures forall r, a :: Reverses(l, r, o) ==> NetOn(l, r, a) == -NetOn(l, o, a)
    ensures !l.txs[o].meta.FxMeta?
  {
    var r0 :| Reverses(l, r0, o);
    assert ReversalOk(l, r0);
    forall r, a | Reverses(l, r, o)
      ensures NetOn(l, r, a) == -NetOn(l, o, a)
    {
      assert ReversalOk(l, r) && TxOk(l, o);
      if a in l.accounts {
        FlippedNets(TxEntries(l, o), TxEntries(l, r), a, l.accounts[a].normalSide);
      }
    }
  }

  // ----- chains of reversals -----

  /** Whether a transaction lies an odd number of reversals away from the original that started its chain. */
  predicate Odd(log: seq<Entry>, txs: map<TxId, TxRow>, t: TxId) {
    if log == [] then false
    else
      var front, last := log[..|log| - 1], log[|log| - 1];
      if last.txId == t && t in txs && txs[t].meta.ReversalMeta? then !Odd(front, txs, txs[t].meta.original)
      else Odd(front, txs, t)
  }

  /** A chain T, reversal, reversal of the reversal, ... leaves something exactly when its newest
      member is an even number of reversals from T; that member is the only one still posted. */
  function Survives(log: seq<Entry>, txs: map<TxId, TxRow>): Entry -> bool {
    (e: Entry) => e.txId in txs && txs[e.txId].status == Posted && !Odd(log, txs, e.txId)
  }

  function SurvivingBalance(l: Ledger, a: AccountId): int {
    if a in l.accounts
    then Total(Stream(l, a), Masked(Survives(l.entries, l.txs), Delta(l.accounts[a].normalSide)))
    else 0
  }

  ghost predicate SurvivorsExplain(l: Ledger) {
    forall a :: a in l.accounts ==> SurvivingBalance(l, a) == Balance(l, a)
  }

  lemma {:induction false} OddStable(log: seq<Entry>, txs: map<TxId, TxRow>, txs': map<TxId, TxRow>, t: TxId)
    requires forall u :: u in txs ==> u in txs' && txs'[u].meta == txs[u].meta
    requires forall e :: e in log ==> e.txId in txs
    ensures Odd(log, txs', t) == Odd(log, txs, t)
  {
    if log != [] {
      var front, last := log[..|log| - 1], log[|log| - 1];
      assert last in log;
      OddStable(front, txs, txs', t);
      if last.txId == t && t in txs && txs[t].meta.ReversalMeta? {
        OddStable(front, txs, txs', txs[t].meta.original);
      }
    }
  }

  lemma {:induction false} OddSkips(log: seq<Entry>, es: seq<Entry>, txs: map<TxId, TxRow>, t: TxId)
    requires forall e :: e in es ==> e.txId != t
    ensures Odd(log + es, txs, t) == Odd(log, txs, t)
  {
    if es == [] {
      assert log + es == log;
    } else {
      var front := es[..|es| - 1];
      assert (log + es)[..|log + es| - 1] == log + front;
      OddSkips(log, front, txs, t);
    }
  }

  /** A new reversal is one step further than what it reverses. */
  lemma {:induction false} OddFlips(log: seq<Entry>, es: seq<Entry>, txs: map<TxId, TxRow>, t: TxId)
    requires es != [] && forall e :: e in es ==> e.txId == t
    requires t in txs && txs[t].meta.ReversalMeta? && txs[t].meta.original != t
    ensures Odd(log + es, txs, t) == !Odd(log, txs, txs[t].meta.original)
  {
    var front := es[..|es| - 1];
    assert (log + es)[..|log + es| - 1] == log + front;
    OddSkips(log, front, txs, txs[t].meta.original);
  }

  lemma {:induction false} OddAbsent(log: seq<Entry>, txs: map<TxId, TxRow>, t: TxId)
    requires forall e :: e in log ==> e.txId != t
    ensures !Odd(log, txs, t)
  {
    if log != [] {
      OddAbsent(log[..|log| - 1], txs, t);
    }
  }

  /** A plain transaction starts a chain. */
  lemma {:induction false} OddPlain(log: seq<Entry>, txs: map<TxId, TxRow>, t: TxId)
    requires t in txs ==> !txs[t].meta.ReversalMeta?
    ensures !Odd(log, txs, t)
  {
    if log != [] {
      OddPlain(log[..|log| - 1], txs, t);
    }
  }

  /** Publishing a plain transaction: old entries survive as before, new ones survive. */
  lemma {:induction false} PlainSurvival(l: Ledger, t: TxId, row: TxRow, legs: seq<Leg>, e: Entry)
    requires Linked(l) && t !in l.txs && Present(l.accounts, legs) && !row.meta.ReversalMeta? && row.status == Posted
    ensures var l' := Publish(l, t, row, legs);
            Survives(l'.entries, l'.txs)(e) == (e.txId == t || Survives(l.entries, l.txs)(e))
  {
    var l', es := Publish(l, t, row, legs), Stamp(t, legs, NextSeqs(l.accounts, legs));
    if e.txId == t {
      OddPlain(l'.entries, l'.txs, t);
    } else {
      OddSkips(l.entries, es, l'.txs, e.txId);
      OddStable(l.entries, l.txs, l'.txs, e.txId);
    }
  }

  lemma {:induction false} PlainPublishSurvivors(l: Ledger, t: TxId, row: TxRow, legs: seq<Leg>, a: AccountId)
    requires Linked(l) && t !in l.txs && Present(l.accounts, legs) && DistinctAccounts(legs)
    requires !row.meta.ReversalMeta? && row.status == Posted
    requires a in l.accounts && SurvivingBalance(l, a) == Balance(l, a)
    ensures var l' := Publish(l, t, row, legs); SurvivingBalance(l', a) == Balance(l', a)
  {
    hide Where, Total, Odd;
    var l', side := Publish(l, t, row, legs), l.accounts[a].normalSide;
    var w := Masked(Survives(l.entries, l.txs), Delta(side));
    var w' := Masked(Survives(l'.entries, l'.txs), Delta(side));
    WhereMembers(l.entries, OfAccount(a));
    forall e | e in Stream(l, a)
      ensures w'(e) == w(e)
    {
      PlainSurvival(l, t, row, legs, e);
    }
    TotalSame(Stream(l, a), w', w);
    if Uses(legs, a) {
      var i :| 0 <= i < |legs| && legs[i].accountId == a;
      PublishedStream(l, t, row, legs, i);
      var e := Stamp(t, legs, NextSeqs(l.accounts, legs))[i];
      PlainSurvival(l, t, row, legs, e);
      TotalSnoc(Stream(l, a), e, w');
      TotalSnoc(Stream(l, a), e, Delta(side));
    } else {
      PublishedElsewhere(l, t, row, legs, a);
    }
  }

  lemma {:induction false} ReversalSurvival(l: Ledger, t: TxId, target: TxId, at: Time, e: Entry)
    requires Linked(l) && t !in l.txs && target in l.txs && e.txId == t
    requires Present(l.accounts, Flip(LegsOf(l, target))) && LegsOf(l, target) != []
    ensures var l' := Mark(Publish(l, t, ReversalHeader(target, at), Flip(LegsOf(l, target))), target);
            Survives(l'.entries, l'.txs)(e) == Odd(l.entries, l.txs, target)
  {
    hide LegsOf, Odd;
    var legs := Flip(LegsOf(l, target));
    var l' := Mark(Publish(l, t, ReversalHeader(target, at), legs), target);
    OddFlips(l.entries, Stamp(t, legs, NextSeqs(l.accounts, legs)), l'.txs, t);
    OddStable(l.entries, l.txs, l'.txs, target);
  }

  lemma {:induction false} BystanderSurvival(l: Ledger, t: TxId, target: TxId, at: Time, e: Entry)
    requires Linked(l) && t !in l.txs && target in l.txs && e.txId != t && e.txId != target
    requires Present(l.accounts, Flip(LegsOf(l, target)))
    ensures var l' := Mark(Publish(l, t, ReversalHeader(target, at), Flip(LegsOf(l, target))), target);
            Survives(l'.entries, l'.txs)(e) == Survives(l.entries, l.txs)(e)
  {
    hide LegsOf, Odd;
    var legs := Flip(LegsOf(l, target));
    var l' := Mark(Publish(l, t, ReversalHeader(target, at), legs), target);
    OddSkips(l.entries, Stamp(t, legs, NextSeqs(l.accounts, legs)), l'.txs, e.txId);
    OddStable(l.entries, l.txs, l'.txs, e.txId);
  }

  /** Voiding: the target stops surviving; its reversal survives exactly if the target did not count. */
  lemma {:induction false} VoidSurvival(l: Ledger, t: TxId, target: TxId, at: Time, e: Entry)
    requires Linked(l) && t !in l.txs && target in l.txs && l.txs[target].status == Posted
    requires Present(l.accounts, Flip(LegsOf(l, target))) && LegsOf(l, target) != []
    ensures var l' := Mark(Publish(l, t, ReversalHeader(target, at), Flip(LegsOf(l, target))), target);
            && (e.txId == t ==> Survives(l'.entries, l'.txs)(e) == Odd(l.entries, l.txs, target))
            && (e.txId == target ==> !Survives(l'.entries, l'.txs)(e))
            && (e.txId != t && e.txId != target ==> Survives(l'.entries, l'.txs)(e) == Survives(l.entries, l.txs)(e))
  {
    hide LegsOf, Odd, Linked, Present;
    if e.txId == t {
      ReversalSurvival(l, t, target, at, e);
    } else if e.txId != target {
      BystanderSurvival(l, t, target, at, e);
    }
  }

  /** What the target's entries contributed to one account before the void. */
  lemma {:induction false} DroppedContribution(st: seq<Entry>, target: TxId, w: Entry -> int, w': Entry -> int)
    requires forall e :: e in st ==> w'(e) == if e.txId == target then 0 else w(e)
    ensures Total(st, w') == Total(st, w) - Total(Where(st, OfTx(target)), w)
  {
    TotalWhere(st, OfTx(target), w);
    TotalAdd(st, Masked(OfTx(target), w), w', w);
  }

  /** The target's own contribution is all of its effect, or nothing. */
  lemma {:induction false} TargetContribution(l: Ledger, target: TxId, a: AccountId)
    requires target in l.txs && l.txs[target].status == Posted && a in l.accounts
    ensures var w := Masked(Survives(l.entries, l.txs), Delta(l.accounts[a].normalSide));
            Total(Where(Stream(l, a), OfTx(target)), w)
              == if Odd(l.entries, l.txs, target) then 0 else NetOn(l, target, a)
  {
    hide Where, Total, Odd;
    var side := l.accounts[a].normalSide;
    var w := Masked(Survives(l.entries, l.txs), Delta(side));
    WhereCommutes(l.entries, target, a);
    var mine := Where(Stream(l, a), OfTx(target));
    WhereMembers(Stream(l, a), OfTx(target));
    if Odd(l.entries, l.txs, target) {
      TotalZero(mine, w);
    } else {
      TotalSame(mine, w, Delta(side));
    }
  }

  lemma {:induction false} VoidUntouchedSurvivors(l: Ledger, t: TxId, target: TxId, at: Time, a: AccountId)
    requires VoidReady(l, t, target) && a in l.accounts && !Uses(LegsOf(l, target), a)
    requires SurvivingBalance(l, a) == Balance(l, a)
    ensures var l' := Mark(Publish(l, t, ReversalHeader(target, at), Flip(LegsOf(l, target))), target);
            SurvivingBalance(l', a) == Balance(l', a)
  {
    hide Total, Odd;
    var legs, row := Flip(LegsOf(l, target)), ReversalHeader(target, at);
    var l', side := Mark(Publish(l, t, row, legs), target), l.accounts[a].normalSide;
    FlipUses(LegsOf(l, target), a);
    PublishedElsewhere(l, t, row, legs, a);
    assert Stream(l', a) == Stream(l, a);
    WhereMembers(l.entries, OfAccount(a));
    forall e | e in Stream(l, a)
      ensures Survives(l'.entries, l'.txs)(e) == Survives(l.entries, l.txs)(e)
    {
      VoidSurvival(l, t, target, at, e);
      if e.txId == target {
        EntryHasLeg(l, e);
        assert false;
      }
    }
    TotalSame(Stream(l, a), Masked(Survives(l'.entries, l'.txs), Delta(side)),
      Masked(Survives(l.entries, l.txs), Delta(side)));
  }

  lemma {:induction false} EntryHasLeg(l: Ledger, e: Entry)
    requires e in l.entries
    ensures Uses(LegsOf(l, e.txId), e.accountId)
  {
    WhereMembers(l.entries, OfTx(e.txId));
    var i :| 0 <= i < |TxEntries(l, e.txId)| && TxEntries(l, e.txId)[i] == e;
    assert LegsOf(l, e.txId)[i].accountId == e.accountId;
  }

  lemma {:induction false} FlipUses(legs: seq<Leg>, a: AccountId)
    ensures Uses(Flip(legs), a) <==> Uses(legs, a)
  {
    if Uses(legs, a) {
      var i :| 0 <= i < |legs| && legs[i].accountId == a;
      assert Flip(legs)[i].accountId == a;
    }
    if Uses(Flip(legs), a) {
      var i :| 0 <= i < |legs| && Flip(legs)[i].accountId == a;
      assert legs[i].accountId == a;
    }
  }

  ghost predicate VoidReady(l: Ledger, t: TxId, target: TxId) {
    && Linked(l) && t !in l.txs && target in l.txs && l.txs[target].status == Posted
    && LegsOf(l, target) != [] && DistinctAccounts(LegsOf(l, target))
    && Present(l.accounts, Flip(LegsOf(l, target)))
  }

  lemma {:induction false} VoidTouchedSurvivors(l: Ledger, t: TxId, target: TxId, at: Time, i: nat)
    requires VoidReady(l, t, target) && i < |LegsOf(l, target)|
    requires var a := LegsOf(l, target)[i].accountId; a in l.accounts && SurvivingBalance(l, a) == Balance(l, a)
    ensures var l' := Mark(Publish(l, t, ReversalHeader(target, at), Flip(LegsOf(l, target))), target);
            var a := LegsOf(l, target)[i].accountId;
            SurvivingBalance(l', a) == Balance(l', a)
  {
    hide Where, Total, Odd;
    var legs, row, a := Flip(LegsOf(l, target)), ReversalHeader(target, at), LegsOf(l, target)[i].accountId;
    var l', side := Mark(Publish(l, t, row, legs), target), l.accounts[a].normalSide;
    var w, w' := Masked(Survives(l.entries, l.txs), Delta(side)), Masked(Survives(l'.entries, l'.txs), Delta(side));
    var st, e := Stream(l, a), Stamp(t, legs, NextSeqs(l.accounts, legs))[i];
    PublishedStream(l, t, row, legs, i);
    assert Stream(l', a) == st + [e];
    TotalSnoc(st, e, w');
    TotalSnoc(st, e, Delta(side));
    VoidedWeights(l, t, target, at, a);
    DroppedContribution(st, target, w, w');
    TargetContribution(l, target, a);
    NetOfLeg(TxEntries(l, target), a, side, i);
    VoidSurvival(l, t, target, at, e);
  }

  lemma {:induction false} VoidedWeights(l: Ledger, t: TxId, target: TxId, at: Time, a: AccountId)
    requires VoidReady(l, t, target) && a in l.accounts
    ensures var l' := Mark(Publish(l, t, ReversalHeader(target, at), Flip(LegsOf(l, target))), target);
            var d := Delta(l.accounts[a].normalSide);
            forall e :: e in Stream(l, a) ==>
              Masked(Survives(l'.entries, l'.txs), d)(e)
                == if e.txId == target then 0 else Masked(Survives(l.entries, l.txs), d)(e)
  {
    hide Where, Odd;
    WhereMembers(l.entries, OfAccount(a));
    forall e | e in Stream(l, a)
      ensures var l' := Mark(Publish(l, t, ReversalHeader(target, at), Flip(LegsOf(l, target))), target);
              var d := Delta(l.accounts[a].normalSide);
              Masked(Survives(l'.entries, l'.txs), d)(e)
                == if e.txId == target then 0 else Masked(Survives(l.entries, l.txs), d)(e)
    {
      VoidSurvival(l, t, target, at, e);
    }
  }

  lemma {:induction false} PostKeepsSurvivors(l: Ledger, op: Op)
    requires Inv(l) && SurvivorsExplain(l) && op.Post?
    ensures SurvivorsExplain(Apply(l, op).0)
  {
    var row := PostHeader(op.tx, op.kind, op.reference, op.at);
    MovementFaultExact(l, op.id, row, op.tx.legs);
    if MovementFault(l, op.id, row, op.tx.legs) == None {
      forall a | a in l.accounts
        ensures var l' := Publish(l, op.id, row, op.tx.legs); SurvivingBalance(l', a) == Balance(l', a)
      {
        PlainPublishSurvivors(l, op.id, row, op.tx.legs, a);
      }
    }
  }

  lemma {:induction false} VoidSurvivors(l: Ledger, t: TxId, target: TxId, at: Time, a: AccountId)
    requires VoidReady(l, t, target) && a in l.accounts && SurvivingBalance(l, a) == Balance(l, a)
    ensures var l' := Mark(Publish(l, t, ReversalHeader(target, at), Flip(LegsOf(l, target))), target);
            SurvivingBalance(l', a) == Balance(l', a)
  {
    hide SurvivingBalance, Balance, VoidReady;
    if Uses(LegsOf(l, target), a) {
      var i :| 0 <= i < |LegsOf(l, target)| && LegsOf(l, target)[i].accountId == a;
      VoidTouchedSurvivors(l, t, target, at, i);
    } else {
      VoidUntouchedSurvivors(l, t, target, at, a);
    }
  }

  lemma {:induction false} VoidKeepsSurvivors(l: Ledger, op: Op)
    requires Inv(l) && SurvivorsExplain(l) && op.VoidTx?
    ensures SurvivorsExplain(Apply(l, op).0)
  {
    hide SurvivorsExplain, Inv, MovementFault, Publish, VoidReady, Of, LegsOf, ApplyVoid;
    if ApplyVoid(l, op.id, op.target, op.at).1 == None {
      VoidSucceeds(l, op.id, op.target, op.at);
      VoidIsReady(l, op.id, op.target, op.at);
      AllVoidSurvivors(l, op.id, op.target, op.at);
    } else {
      RefusalChangesNothing(l, op);
    }
  }

  lemma {:induction false} AllVoidSurvivors(l: Ledger, t: TxId, target: TxId, at: Time)
    requires VoidReady(l, t, target) && SurvivorsExplain(l)
    ensures SurvivorsExplain(Mark(Publish(l, t, ReversalHeader(target, at), Flip(LegsOf(l, target))), target))
  {
    hide SurvivingBalance, Balance, LegsOf;
    var l' := Mark(Publish(l, t, ReversalHeader(target, at), Flip(LegsOf(l, target))), target);
    forall a | a in l'.accounts
      ensures SurvivingBalance(l', a) == Balance(l', a)
    {
      VoidSurvivors(l, t, target, at, a);
    }
  }

  lemma {:induction false} VoidIsReady(l: Ledger, t: TxId, target: TxId, at: Time)
    requires Inv(l) && ApplyVoid(l, t, target, at).1 == None
    ensures VoidReady(l, t, target)
  {
    VoidSucceeds(l, t, target, at);
    var legs := Flip(LegsOf(l, target));
    OfAccepts(legs);
    MovementFaultExact(l, t, ReversalHeader(target, at), legs);
    assert TxOk(l, target);
  }

  lemma {:induction false} SameLogKeepsSurvivors(l: Ledger, l': Ledger)
    requires Linked(l) && SurvivorsExplain(l) && l'.txs == l.txs && l'.entries == l.entries
    requires forall a :: a in l'.accounts && a in l.accounts ==> l'.accounts[a].normalSide == l.accounts[a].normalSide
    ensures SurvivorsExplain(l')
  {
    forall a | a in l'.accounts
      ensures SurvivingBalance(l', a) == Balance(l', a)
    {
      assert Stream(l', a) == Stream(l, a);
      if a !in l.accounts { FreshAccount(l, a); }
    }
  }

  lemma {:induction false} AmendKeepsSurvivors(l: Ledger, l': Ledger, a: AccountId)
    requires Linked(l) && SurvivorsExplain(l) && RowChange(l, l', a)
    ensures SurvivorsExplain(l')
  {
    hide SurvivorsExplain, Linked;
    SameLogKeepsSurvivors(l, l');
  }

  lemma {:induction false} SnapshotKeepsSurvivors(l: Ledger, a: AccountId, n: int, at: Time)
    requires Linked(l) && SurvivorsExplain(l)
    ensures SurvivorsExplain(ApplySnapshot(l, a, n, at).0)
  {
    hide SurvivorsExplain, Linked;
    SameLogKeepsSurvivors(l, ApplySnapshot(l, a, n, at).0);
  }

  lemma {:induction false} RowOperationKeepsSurvivors(l: Ledger, op: Op)
    requires Inv(l) && SurvivorsExplain(l) && !op.Post? && !op.VoidTx?
    ensures SurvivorsExplain(Apply(l, op).0)
  {
    hide SurvivorsExplain, Linked, AccountsOk, TxsOk, ReversalsOk, RowChange;
    if op.TakeSnapshot? {
      SnapshotKeepsSurvivors(l, op.account, op.seqNo, op.at);
    } else if Apply(l, op).0 != l {
      RowOperationIsRowChange(l, op);
      AmendKeepsSurvivors(l, Apply(l, op).0, op.account);
    }
  }

  /** Over any run, every balance is the sum over the transactions left after cancelling pairs,
      however long the chains of reversed reversals. */
  lemma {:induction false} BalancesAreSurvivors(ops: seq<Op>)
    requires TimelyRun(EMPTY, ops)
    ensures SurvivorsExplain(Run(EMPTY, ops))
  {
    if ops != [] {
      var front, last := ops[..|ops| - 1], ops[|ops| - 1];
      BalancesAreSurvivors(front);
      EmptyLedgerOk();
      RunKeeps(EMPTY, front);
      if last.Post? {
        PostKeepsSurvivors(Run(EMPTY, front), last);
      } else if last.VoidTx? {
        VoidKeepsSurvivors(Run(EMPTY, front), last);
      } else {
        RowOperationKeepsSurvivors(Run(EMPTY, front), last);
      }
    }
  }
}
