/** The independent re-check of the whole ledger, and why it finds nothing in any reachable state. */
module Reconciliation {
  import opened Prelude
  import opened Seqs
  import opened Money
  import opened DoubleEntry
  import opened Ledger
  import opened Lifecycle
  import opened Invariants
  import opened Preservation
  import opened Growth
  import opened BalanceLaw
  import opened Keyset

  datatype Issue =
    | UnbalancedTransaction(t: TxId)
    | SequenceGapOrDuplicate(a: AccountId)
    | BelowOverdraftLimit(a: AccountId)

  datatype Report = Report(transactions: nat, accounts: nat, issues: seq<Issue>, passed: bool)

  // ----- the aggregates each query computes -----

  function CurrenciesOf(l: Ledger, t: TxId): set<Currency> {
    set e | e in l.entries && e.txId == t :: e.currency
  }

  predicate Unbalanced(l: Ledger, t: TxId) {
    && t in l.txs && |CurrenciesOf(l, t)| <= 1
    && DebitsTotal(LegsOf(l, t)) != CreditsTotal(LegsOf(l, t))
  }

  predicate CrossesCurrencies(l: Ledger, t: TxId) { t in l.txs && |CurrenciesOf(l, t)| > 1 }

  /** The recorded rate must turn the base leg into the quote leg; a bad rate stops the whole job. */
  function CrossCheck(meta: Meta, legs: seq<Leg>): Result<bool> {
    if !meta.FxMeta? then Ok(false)
    else
      var base, quote := FirstIn(legs, meta.fromCurrency), FirstIn(legs, meta.toCurrency);
      if base == None || quote == None then Ok(false)
      else
        var expected :- ConvertAt(base.value.amount, meta.rate);
        Ok(expected == quote.value.amount)
  }

  function MaxSeq(st: seq<Entry>): int {
    if st == [] then 0
    else
      var rest := MaxSeq(st[..|st| - 1]);
      if |st| > 1 && rest >= st[|st| - 1].seqNo then rest else st[|st| - 1].seqNo
  }

  function SeqSet(st: seq<Entry>): set<int> { set e | e in st :: e.seqNo as int }

  predicate SequenceBroken(st: seq<Entry>) {
    st != [] && (|st| != MaxSeq(st) || |SeqSet(st)| != |st|)
  }

  predicate BelowLimit(l: Ledger, a: AccountId) {
    a in l.accounts && Stream(l, a) != [] && Balance(l, a) < -l.accounts[a].limit
  }

  /** What each kind of issue means for the stored rows. */
  predicate Holds(l: Ledger, issue: Issue) {
    match issue
    case UnbalancedTransaction(t) =>
      Unbalanced(l, t) || (CrossesCurrencies(l, t) && CrossCheck(l.txs[t].meta, LegsOf(l, t)) == Ok(false))
    case SequenceGapOrDuplicate(a) => a in l.accounts && SequenceBroken(Stream(l, a))
    case BelowOverdraftLimit(a) => BelowLimit(l, a)
  }

  predicate RateFails(l: Ledger, t: TxId) {
    CrossesCurrencies(l, t) && CrossCheck(l.txs[t].meta, LegsOf(l, t)).Err?
  }

  // ----- the job -----

  function ByTx(): (Entry, Entry) -> bool { (x: Entry, y: Entry) => x.txId <= y.txId }

  function InCross(cross: set<TxId>): Entry -> bool { (e: Entry) => e.txId in cross }

  predicate HasTx(rows: seq<Entry>, t: TxId) { exists e :: e in rows && e.txId == t }

  ghost predicate Grouped(rows: seq<Entry>, byTx: map<TxId, seq<Entry>>) {
    && (forall t :: t in byTx <==> HasTx(rows, t))
    && (forall t :: t in byTx ==> byTx[t] == Where(rows, OfTx(t)))
  }

  lemma {:induction false} NothingGrouped()
    ensures Grouped([], map[])
  {
  }

  lemma {:induction false} GroupedSnoc(rows: seq<Entry>, byTx: map<TxId, seq<Entry>>, row: Entry)
    requires Grouped(rows, byTx)
    ensures Grouped(rows + [row], byTx[row.txId := (if row.txId in byTx then byTx[row.txId] else []) + [row]])
  {
    hide Where, HasTx;
    GroupStep(rows, row);
  }

  /** The cross-currency rows, grouped by transaction as the job fills its map. */
  method GroupByTx(rows: seq<Entry>) returns (byTx: map<TxId, seq<Entry>>)
    ensures forall t :: t in byTx <==> HasTx(rows, t)
    ensures forall t :: t in byTx ==> byTx[t] == Where(rows, OfTx(t))
  {
    hide Where, HasTx;
    byTx := map[];
    NothingGrouped();
    assert rows[..0] == [];
    for i := 0 to |rows|
      invariant Grouped(rows[..i], byTx)
    {
      var row := rows[i];
      assert rows[..i + 1] == rows[..i] + [row];
      GroupedSnoc(rows[..i], byTx, row);
      var list := if row.txId in byTx then byTx[row.txId] else [];
      byTx := byTx[row.txId := list + [row]];
    }
    assert rows[..|rows|] == rows;
  }

  lemma {:induction false} GroupStep(rows: seq<Entry>, row: Entry)
    ensures forall t ::
      Where(rows + [row], OfTx(t)) == if row.txId == t then Where(rows, OfTx(t)) + [row] else Where(rows, OfTx(t))
    ensures !HasTx(rows, row.txId) ==> Where(rows, OfTx(row.txId)) == []
    ensures forall t :: HasTx(rows + [row], t) <==> HasTx(rows, t) || t == row.txId
  {
    hide Where;
    forall t
      ensures Where(rows + [row], OfTx(t)) ==
        if row.txId == t then Where(rows, OfTx(t)) + [row] else Where(rows, OfTx(t))
    {
      WhereSnoc(rows, row, OfTx(t));
    }
    if !HasTx(rows, row.txId) {
      WhereNone(rows, OfTx(row.txId));
    }
    forall t
      ensures HasTx(rows + [row], t) <==> HasTx(rows, t) || t == row.txId
    {
      if HasTx(rows, t) {
        var e :| e in rows && e.txId == t;
        assert e in rows + [row];
      }
      assert row in rows + [row];
    }
  }

  /** Grouping the sorted rows gives each transaction its own entries in insertion order. */
  lemma {:induction false} GroupIsTxEntries(l: Ledger, cross: set<TxId>, t: TxId)
    requires t in cross
    ensures Where(SortBy(Where(l.entries, InCross(cross)), ByTx()), OfTx(t)) == TxEntries(l, t)
  {
    hide Where, SortBy;
    assert TotalOrder(ByTx());
    var rows := Where(l.entries, InCross(cross));
    SortWhere(rows, ByTx(), OfTx(t));
    WhereWhere(l.entries, InCross(cross), OfTx(t));
    WhereSame(l.entries, Both(InCross(cross), OfTx(t)), OfTx(t));
    WhereMembers(l.entries, OfTx(t));
    var es := TxEntries(l, t);
    forall i, j | 0 <= i < j < |es|
      ensures ByTx()(es[i], es[j])
    {
      assert es[i] in es && es[j] in es;
      assert OfTx(t)(es[i]) && OfTx(t)(es[j]);
    }
    SortByIdentity(es, ByTx());
  }

  lemma {:induction false} NoRepeatedIssue()
    ensures Distinct<Issue>([])
  {
  }

  lemma {:induction false} DistinctSnoc<T>(xs: seq<T>, x: T)
    requires Distinct(xs) && x !in xs
    ensures Distinct(xs + [x])
  {
  }

  lemma {:induction false} OnlyStored(l: Ledger)
    ensures forall t :: Unbalanced(l, t) ==> t in l.txs
    ensures forall a :: BelowLimit(l, a) ==> a in l.accounts
  {
  }

  method CheckBalances(l: Ledger) returns (issues: seq<Issue>)
    ensures forall i :: i in issues <==> i.UnbalancedTransaction? && Unbalanced(l, i.t)
    ensures Distinct(issues)
  {
    hide Unbalanced, Distinct;
    NoRepeatedIssue();
    OnlyStored(l);
    issues := [];
    var rest := set t | t in l.txs && Unbalanced(l, t);
    ghost var all := rest;
    while rest != {}
      invariant rest <= all
      invariant forall i :: i in issues <==> i.UnbalancedTransaction? && i.t in all - rest
      invariant Distinct(issues)
      decreases |rest|
    {
      var t :| t in rest;
      DistinctSnoc(issues, Issue.UnbalancedTransaction(t));
      issues := issues + [Issue.UnbalancedTransaction(t)];
      rest := rest - {t};
    }
  }

  method CheckCross(l: Ledger) returns (r: Result<seq<Issue>>)
    ensures r.Ok? ==> forall i :: i in r.value <==>
      i.UnbalancedTransaction? && CrossesCurrencies(l, i.t) && CrossCheck(l.txs[i.t].meta, LegsOf(l, i.t)) == Ok(false)
    ensures r.Err? <==> exists t :: t in l.txs && RateFails(l, t)
    ensures r.Err? ==> r.error == InvalidAmount
    ensures r.Ok? ==> Distinct(r.value)
  {
    hide TxEntries, CrossCheck, CurrenciesOf, EntryLegs, HasTx, Where, SortBy, Distinct;
    NoRepeatedIssue();
    var cross := set t | t in l.txs && CrossesCurrencies(l, t);
    var rows := SortBy(Where(l.entries, InCross(cross)), ByTx());
    var byTx := GroupByTx(rows);
    CrossGroups(l, cross, rows);
    var issues: seq<Issue> := [];
    var rest := byTx.Keys;
    while rest != {}
      invariant rest <= byTx.Keys == cross
      invariant forall t :: t in cross - rest ==> !RateFails(l, t)
      invariant Distinct(issues)
      invariant forall i :: i in issues <==>
        i.UnbalancedTransaction? && i.t in cross - rest && CrossCheck(l.txs[i.t].meta, LegsOf(l, i.t)) == Ok(false)
      decreases |rest|
    {
      var t :| t in rest;
      GroupIsTxEntries(l, cross, t);
      assert EntryLegs(byTx[t]) == LegsOf(l, t);
      var verdict := CrossCheck(l.txs[t].meta, EntryLegs(byTx[t]));
      RateError(l.txs[t].meta, EntryLegs(byTx[t]));
      if verdict.Err? {
        return Err(verdict.error);
      }
      if !verdict.value {
        DistinctSnoc(issues, Issue.UnbalancedTransaction(t));
        issues := issues + [Issue.UnbalancedTransaction(t)];
      }
      rest := rest - {t};
    }
    return Ok(issues);
  }

  lemma {:induction false} RateError(meta: Meta, legs: seq<Leg>)
    ensures CrossCheck(meta, legs).Err? ==> CrossCheck(meta, legs) == Err(InvalidAmount)
  {
    hide ConvertAt;
    if meta.FxMeta? && FirstIn(legs, meta.fromCurrency).Some? {
      ConvertRefusal(FirstIn(legs, meta.fromCurrency).value.amount, meta.rate);
    }
  }

  lemma {:induction false} CrossGroups(l: Ledger, cross: set<TxId>, rows: seq<Entry>)
    requires cross == set t | t in l.txs && CrossesCurrencies(l, t)
    requires rows == SortBy(Where(l.entries, InCross(cross)), ByTx())
    ensures forall t :: t in cross <==> HasTx(rows, t)
  {
    hide Where, SortBy;
    assert TotalOrder(ByTx());
    SortBySorts(Where(l.entries, InCross(cross)), ByTx());
    WhereMembers(l.entries, InCross(cross));
    forall e
      ensures e in rows <==> e in l.entries && e.txId in cross
    {
      SameMembers(rows, Where(l.entries, InCross(cross)), e);
    }
    forall t | t in cross
      ensures HasTx(rows, t)
    {
      var c :| c in CurrenciesOf(l, t);
      var e :| e in l.entries && e.txId == t && e.currency == c;
      assert e in rows;
    }
  }

  method CheckSequences(l: Ledger) returns (issues: seq<Issue>)
    ensures forall i :: i in issues <==>
      i.SequenceGapOrDuplicate? && i.a in l.accounts && SequenceBroken(Stream(l, i.a))
    ensures Distinct(issues)
  {
    hide SequenceBroken, Stream, Distinct;
    NoRepeatedIssue();
    issues := [];
    var rest := set a | a in l.accounts && SequenceBroken(Stream(l, a));
    ghost var all := rest;
    while rest != {}
      invariant rest <= all
      invariant forall i :: i in issues <==> i.SequenceGapOrDuplicate? && i.a in all - rest
      invariant Distinct(issues)
      decreases |rest|
    {
      var a :| a in rest;
      DistinctSnoc(issues, SequenceGapOrDuplicate(a));
      issues := issues + [SequenceGapOrDuplicate(a)];
      rest := rest - {a};
    }
  }

  method CheckLimits(l: Ledger) returns (issues: seq<Issue>)
    ensures forall i :: i in issues <==> i.BelowOverdraftLimit? && BelowLimit(l, i.a)
    ensures Distinct(issues)
  {
    hide BelowLimit, Distinct;
    NoRepeatedIssue();
    OnlyStored(l);
    issues := [];
    var rest := set a | a in l.accounts && BelowLimit(l, a);
    ghost var all := rest;
    while rest != {}
      invariant rest <= all
      invariant forall i :: i in issues <==> i.BelowOverdraftLimit? && i.a in all - rest
      invariant Distinct(issues)
      decreases |rest|
    {
      var a :| a in rest;
      DistinctSnoc(issues, BelowOverdraftLimit(a));
      issues := issues + [BelowOverdraftLimit(a)];
      rest := rest - {a};
    }
  }

  /** The report lists exactly the issues that hold, and passes exactly when none does; it fails as a whole only
      on a stored rate that does not parse or overflows. */
  method Run(l: Ledger) returns (r: Result<Report>)
    ensures r.Err? <==> exists t :: t in l.txs && RateFails(l, t)
    ensures r.Ok? ==>
      && (forall i :: i in r.value.issues <==> Holds(l, i))
      && (r.value.passed <==> forall i :: !Holds(l, i))
      && r.value.transactions == |l.txs| && r.value.accounts == |l.accounts|
    ensures r.Ok? ==>
      && (forall t :: t in l.txs ==> (Issue.UnbalancedTransaction(t) in r.value.issues <==> OutOfBalance(l, t)))
      && (forall a :: a in l.accounts ==> (BelowOverdraftLimit(a) in r.value.issues <==> Overdrawn(l, a)))
      && (forall a :: a in l.accounts ==> (SequenceGapOrDuplicate(a) in r.value.issues <==> !CountsUp(Stream(l, a))))
      && (forall a :: a in l.accounts && PositiveSeqs(Stream(l, a)) ==>
            (SequenceGapOrDuplicate(a) in r.value.issues <==> !Contiguous(Stream(l, a))))
    ensures r.Ok? ==> Distinct(r.value.issues)
    ensures r.Err? ==> r.error == InvalidAmount
    ensures r.Ok? && r.value.passed ==>
      && (forall t :: t in l.txs ==> !OutOfBalance(l, t))
      && (forall a :: a in l.accounts ==> !Overdrawn(l, a))
      && (forall a :: a in l.accounts && PositiveSeqs(Stream(l, a)) ==> Contiguous(Stream(l, a)))
  {
    hide Unbalanced, CrossesCurrencies, CrossCheck, SequenceBroken, BelowLimit, RateFails, Holds, OutOfBalance,
      Overdrawn, PositiveSeqs, Contiguous, CountsUp, Stream, Distinct;
    var unbalanced := CheckBalances(l);
    var cross := CheckCross(l);
    if cross.Err? {
      return Err(cross.error);
    }
    var sequences := CheckSequences(l);
    var limits := CheckLimits(l);
    var issues := unbalanced + cross.value + sequences + limits;
    NeverBoth(l);
    DistinctConcat(unbalanced, cross.value);
    DistinctConcat(unbalanced + cross.value, sequences);
    DistinctConcat(unbalanced + cross.value + sequences, limits);
    assert issues != [] ==> issues[0] in issues;
    HoldsIs(l);
    ReportMeans(l, issues);
    return Ok(Report(|l.txs|, |l.accounts|, issues, issues == []));
  }

  // ----- the aggregate sequence test -----

  predicate PositiveSeqs(st: seq<Entry>) { forall i :: 0 <= i < |st| ==> st[i].seqNo >= 1 }

  /** The stored positions are exactly 1..n, each once. */
  predicate Contiguous(st: seq<Entry>) {
    && NoRepeats(st)
    && (forall i :: 0 <= i < |st| ==> 1 <= st[i].seqNo <= |st|)
  }

  function UpToN(n: nat): (s: set<int>)
    ensures forall k :: k in s <==> 1 <= k <= n
    ensures |s| == n
  {
    if n == 0 then {}
    else
      var rest := UpToN(n - 1);
      assert n !in rest;
      rest + {n}
  }

  lemma {:induction false} MaxSeqBounds(st: seq<Entry>)
    requires st != []
    ensures forall e :: e in st ==> e.seqNo <= MaxSeq(st)
    ensures exists e :: e in st && e.seqNo == MaxSeq(st)
  {
    var front, last := st[..|st| - 1], st[|st| - 1];
    assert st == front + [last];
    if |st| > 1 {
      MaxSeqBounds(front);
      var e :| e in front && e.seqNo == MaxSeq(front);
      assert e in st && last in st;
    } else {
      assert last in st;
    }
  }

  predicate NoRepeats(st: seq<Entry>) {
    forall i, j :: 0 <= i < j < |st| ==> st[i].seqNo != st[j].seqNo
  }

  lemma {:induction false} NoRepeatsSnoc(st: seq<Entry>, e: Entry)
    ensures NoRepeats(st + [e]) <==> NoRepeats(st) && e.seqNo as int !in SeqSet(st)
  {
    var longer := st + [e];
    if NoRepeats(longer) {
      forall i, j | 0 <= i < j < |st|
        ensures st[i].seqNo != st[j].seqNo
      {
        assert longer[i] == st[i] && longer[j] == st[j];
      }
      forall d | d in st
        ensures d.seqNo != e.seqNo
      {
        var i :| 0 <= i < |st| && st[i] == d;
        assert longer[i].seqNo != longer[|st|].seqNo;
      }
    }
    if NoRepeats(st) && e.seqNo as int !in SeqSet(st) {
      forall i | 0 <= i < |st|
        ensures st[i].seqNo != e.seqNo
      {
        assert st[i] in st;
      }
    }
  }

  /** As many distinct positions as rows means no position is stored twice. */
  lemma {:induction false} DistinctCount(st: seq<Entry>)
    ensures |SeqSet(st)| <= |st|
    ensures |SeqSet(st)| == |st| <==> NoRepeats(st)
  {
    hide NoRepeats, SeqSet;
    if st == [] {
      NothingRepeats();
    } else {
      var front, last := st[..|st| - 1], st[|st| - 1];
      assert st == front + [last];
      DistinctCount(front);
      SeqSetSnoc(front, last);
      NoRepeatsSnoc(front, last);
    }
  }

  lemma {:induction false} NothingRepeats()
    ensures SeqSet([]) == {} && NoRepeats([])
  {
  }

  lemma {:induction false} SeqSetSnoc(st: seq<Entry>, e: Entry)
    ensures SeqSet(st + [e]) == SeqSet(st) + {e.seqNo as int}
  {
    assert e in st + [e];
  }

  lemma {:induction false} SubsetOfSameSize<T>(xs: set<T>, ys: set<T>)
    requires xs <= ys && |xs| == |ys|
    ensures xs == ys
    decreases |xs|
  {
    if xs == {} {
      assert ys == {};
    } else {
      var x :| x in xs;
      SubsetOfSameSize(xs - {x}, ys - {x});
      assert xs == xs - {x} + {x} && ys == ys - {x} + {x};
    }
  }

  /** count = max = distinct count holds exactly when positive positions form 1..n. */
  lemma {:induction false} SequenceTestExact(st: seq<Entry>)
    requires PositiveSeqs(st)
    ensures !SequenceBroken(st) <==> Contiguous(st)
  {
    if st != [] {
      MaxSeqBounds(st);
      DistinctCount(st);
      if |SeqSet(st)| == |st| {
        forall i | 0 <= i < |st|
          ensures st[i].seqNo as int in UpToN(MaxSeq(st))
        {
          assert st[i] in st;
        }
        if Contiguous(st) { ContiguousMax(st); }
      }
    }
  }

  /** Pigeonhole: n distinct positions among 1..n reach n. */
  lemma {:induction false} ContiguousMax(st: seq<Entry>)
    requires st != [] && Contiguous(st)
    ensures MaxSeq(st) == |st|
  {
    MaxSeqBounds(st);
    DistinctCount(st);
    assert SeqSet(st) <= UpToN(|st|);
    SubsetOfSameSize(SeqSet(st), UpToN(|st|));
    assert |st| in SeqSet(st);
  }

  /** Without positivity the test can be fooled: positions 0 and 2 pass it. */
  lemma {:induction false} ZeroFoolsTheTest()
    ensures var st := [Entry(0, 0, 0, Debit, 1, "USD"), Entry(1, 0, 2, Debit, 1, "USD")];
            !SequenceBroken(st) && !Contiguous(st)
  {
    var x, y := Entry(0, 0, 0, Debit, 1, "USD"), Entry(1, 0, 2, Debit, 1, "USD");
    assert [x, y][..1] == [x];
    assert [x][..0] == [];
    assert SeqSet([x, y]) == {0, 2};
  }

  // ----- what the report says of the stored rows -----

  lemma {:induction false} RowTotals(es: seq<Entry>)
    ensures DebitsTotal(EntryLegs(es)) == Debits(es) && CreditsTotal(EntryLegs(es)) == Credits(es)
  {
    if es != [] {
      RowTotals(es[..|es| - 1]);
      assert EntryLegs(es)[..|es| - 1] == EntryLegs(es[..|es| - 1]);
    }
  }

  /** These rows share one currency. */
  ghost predicate OneCurrencyRows(es: seq<Entry>) {
    forall i, j :: 0 <= i < j < |es| ==> es[i].currency == es[j].currency
  }

  /** At most one currency among a transaction's rows. */
  lemma {:induction false} SingleCurrency(l: Ledger, t: TxId)
    ensures |CurrenciesOf(l, t)| <= 1 <==> OneCurrencyRows(TxEntries(l, t))
  {
    hide CurrenciesOf, TxEntries;
    CurrenciesOfLegs(l, t);
    var legs := LegsOf(l, t);
    if i, j :| 0 <= i < j < |legs| && legs[i].currency != legs[j].currency {
      TwoMembers(CurrenciesOf(l, t), legs[i].currency, legs[j].currency);
    } else if legs != [] {
      OneMember(CurrenciesOf(l, t), legs[0].currency);
    } else {
      OneMember(CurrenciesOf(l, t), "");
    }
  }

  /** The first leg in a currency: one that has it, after none that has. */
  lemma {:induction false} FirstInMeans(legs: seq<Leg>, c: Currency)
    ensures FirstIn(legs, c) == None <==> forall i :: 0 <= i < |legs| ==> legs[i].currency != c
    ensures forall i ::
      0 <= i < |legs| && legs[i].currency == c && (forall k :: 0 <= k < i ==> legs[k].currency != c)
      ==> FirstIn(legs, c) == Some(legs[i])
    ensures FirstIn(legs, c).Some? ==>
      exists i :: 0 <= i < |legs| && legs[i] == FirstIn(legs, c).value && legs[i].currency == c
        && forall k :: 0 <= k < i ==> legs[k].currency != c
  {
    if legs != [] && legs[0].currency != c {
      FirstInMeans(legs[1..], c);
      assert forall i :: 1 <= i < |legs| ==> legs[i] == legs[1..][i - 1];
      if FirstIn(legs, c).Some? {
        var i :| 0 <= i < |legs| - 1 && legs[1..][i] == FirstIn(legs, c).value && legs[1..][i].currency == c
          && forall k :: 0 <= k < i ==> legs[1..][k].currency != c;
        assert legs[i + 1] == legs[1..][i];
      }
    }
  }

  /** Row i is the first in this currency. */
  ghost predicate FirstRowIn(es: seq<Entry>, c: Currency, i: int) {
    && 0 <= i < |es| && es[i].currency == c
    && forall k :: 0 <= k < i ==> es[k].currency != c
  }

  /** The recorded rate turns the first row in its base currency into the first row in its quote currency. */
  ghost predicate RateAgrees(meta: Meta, es: seq<Entry>) {
    meta.FxMeta? && exists i, j ::
      && FirstRowIn(es, meta.fromCurrency, i) && FirstRowIn(es, meta.toCurrency, j)
      && ConvertAt(es[i].amount, meta.rate) == Ok(es[j].amount)
  }

  /** The stored rows of the transaction do not balance: debits and credits differ in its one currency, or its
      recorded rate does not carry one currency into the other. */
  ghost predicate OutOfBalance(l: Ledger, t: TxId)
    requires t in l.txs
  {
    var es := TxEntries(l, t);
    if OneCurrencyRows(es) then Debits(es) != Credits(es) else !RateAgrees(l.txs[t].meta, es)
  }

  /** The account's rows add up to less than minus its limit. */
  ghost predicate Overdrawn(l: Ledger, a: AccountId)
    requires a in l.accounts
  {
    var st, limit := Stream(l, a), l.accounts[a].limit;
    st != [] && if l.accounts[a].normalSide == Debit then Debits(st) + limit < Credits(st)
                else Credits(st) + limit < Debits(st)
  }

  lemma {:induction false} CrossMeans(meta: Meta, es: seq<Entry>)
    requires CrossCheck(meta, EntryLegs(es)).Ok?
    ensures CrossCheck(meta, EntryLegs(es)) == Ok(true) <==> RateAgrees(meta, es)
  {
    hide ConvertAt, FirstIn;
    if meta.FxMeta? {
      FirstRowMeans(es, meta.fromCurrency);
      FirstRowMeans(es, meta.toCurrency);
    }
  }

  lemma {:induction false} FirstRowMeans(es: seq<Entry>, c: Currency)
    ensures FirstIn(EntryLegs(es), c) == None <==> forall i :: !FirstRowIn(es, c, i)
    ensures forall i :: FirstRowIn(es, c, i) ==> FirstIn(EntryLegs(es), c) == Some(EntryLegs(es)[i])
  {
    hide FirstIn;
    var legs := EntryLegs(es);
    FirstInMeans(legs, c);
    if FirstIn(legs, c).Some? {
      var i :| 0 <= i < |legs| && legs[i] == FirstIn(legs, c).value && legs[i].currency == c
        && forall k :: 0 <= k < i ==> legs[k].currency != c;
      assert FirstRowIn(es, c, i);
    }
  }

  lemma {:induction false} UnbalancedMeans(l: Ledger, t: TxId)
    requires t in l.txs && !RateFails(l, t)
    ensures Holds(l, Issue.UnbalancedTransaction(t)) <==> OutOfBalance(l, t)
  {
    hide CrossCheck, RateAgrees, CurrenciesOf, TxEntries, OneCurrencyRows, Debits, Credits;
    var es := TxEntries(l, t);
    SingleCurrency(l, t);
    RowTotals(es);
    assert LegsOf(l, t) == EntryLegs(es);
    if CrossCheck(l.txs[t].meta, EntryLegs(es)).Ok? {
      CrossMeans(l.txs[t].meta, es);
      assert CrossCheck(l.txs[t].meta, EntryLegs(es)).value == RateAgrees(l.txs[t].meta, es);
    }
  }

  lemma {:induction false} OverdrawnMeans(l: Ledger, a: AccountId)
    requires a in l.accounts
    ensures BelowLimit(l, a) <==> Overdrawn(l, a)
  {
    hide Stream, Balance;
    BalanceIsDebitsMinusCredits(l, a);
  }

  /** The two checks of a transaction's balance look at different transactions. */
  lemma {:induction false} NeverBoth(l: Ledger)
    ensures forall t :: Unbalanced(l, t) ==> !CrossesCurrencies(l, t)
  {
  }

  lemma {:induction false} DistinctConcat<T>(xs: seq<T>, ys: seq<T>)
    requires Distinct(xs) && Distinct(ys) && forall x :: x in xs ==> x !in ys
    ensures Distinct(xs + ys)
  {
    var all := xs + ys;
    forall i, j | 0 <= i < j < |all|
      ensures all[i] != all[j]
    {
      if i < |xs| && |xs| <= j {
        assert all[i] in xs && all[j] in ys;
      }
    }
  }

  lemma {:induction false} HoldsIs(l: Ledger)
    ensures forall i :: Holds(l, i) <==>
      || (i.UnbalancedTransaction? &&
            (Unbalanced(l, i.t)
             || (CrossesCurrencies(l, i.t) && CrossCheck(l.txs[i.t].meta, LegsOf(l, i.t)) == Ok(false))))
      || (i.SequenceGapOrDuplicate? && i.a in l.accounts && SequenceBroken(Stream(l, i.a)))
      || (i.BelowOverdraftLimit? && BelowLimit(l, i.a))
  {
    hide Unbalanced, CrossCheck, SequenceBroken, BelowLimit, Stream;
  }

  /** Among these rows no number occurs twice and the highest is how many there are. */
  ghost predicate CountsUp(st: seq<Entry>) {
    && (forall i, j :: 0 <= i < j < |st| ==> st[i].seqNo != st[j].seqNo)
    && (forall i :: 0 <= i < |st| ==> st[i].seqNo <= |st|)
    && (st != [] ==> exists i :: 0 <= i < |st| && st[i].seqNo == |st|)
  }

  lemma {:induction false} BrokenMeans(st: seq<Entry>)
    ensures SequenceBroken(st) <==> !CountsUp(st)
  {
    hide SeqSet;
    DistinctCount(st);
    if st != [] {
      MaxSeqBounds(st);
      var e :| e in st && e.seqNo == MaxSeq(st);
      var i :| 0 <= i < |st| && st[i] == e;
      if CountsUp(st) {
        var j :| 0 <= j < |st| && st[j].seqNo == |st|;
        assert st[j] in st;
      }
    }
  }

  /** The lists and the verdict of the report, read as statements about the stored rows. */
  lemma {:induction false} ReportMeans(l: Ledger, issues: seq<Issue>)
    requires forall i :: i in issues <==> Holds(l, i)
    requires forall t :: t in l.txs ==> !RateFails(l, t)
    ensures forall t :: t in l.txs ==> (Issue.UnbalancedTransaction(t) in issues <==> OutOfBalance(l, t))
    ensures forall a :: a in l.accounts ==> (BelowOverdraftLimit(a) in issues <==> Overdrawn(l, a))
    ensures forall a :: a in l.accounts ==> (SequenceGapOrDuplicate(a) in issues <==> !CountsUp(Stream(l, a)))
    ensures forall a :: a in l.accounts && PositiveSeqs(Stream(l, a)) ==>
      (SequenceGapOrDuplicate(a) in issues <==> !Contiguous(Stream(l, a)))
  {
    hide OutOfBalance, Overdrawn, RateFails, BelowLimit, Unbalanced, CrossCheck, SequenceBroken, Stream, CountsUp;
    forall t | t in l.txs
      ensures Holds(l, Issue.UnbalancedTransaction(t)) <==> OutOfBalance(l, t)
    {
      UnbalancedMeans(l, t);
    }
    forall a | a in l.accounts
      ensures BelowLimit(l, a) <==> Overdrawn(l, a)
      ensures SequenceBroken(Stream(l, a)) <==> !CountsUp(Stream(l, a))
      ensures PositiveSeqs(Stream(l, a)) ==> (SequenceBroken(Stream(l, a)) <==> !Contiguous(Stream(l, a)))
    {
      OverdrawnMeans(l, a);
      BrokenMeans(Stream(l, a));
      if PositiveSeqs(Stream(l, a)) { SequenceTestExact(Stream(l, a)); }
    }
  }

  /** A multi-currency transaction stops the whole job exactly when its recorded rate cannot be applied to its base
      row. */
  lemma {:induction false} RateFailsMeans(l: Ledger, t: TxId)
    requires t in l.txs
    ensures RateFails(l, t) <==>
      var es, meta := TxEntries(l, t), l.txs[t].meta;
      && !OneCurrencyRows(es) && meta.FxMeta?
      && exists i, j :: FirstRowIn(es, meta.fromCurrency, i) && FirstRowIn(es, meta.toCurrency, j)
           && ConvertAt(es[i].amount, meta.rate).Err?
  {
    hide CurrenciesOf, TxEntries, ConvertAt, FirstIn;
    var es, meta := TxEntries(l, t), l.txs[t].meta;
    SingleCurrency(l, t);
    if meta.FxMeta? {
      FirstRowMeans(es, meta.fromCurrency);
      FirstRowMeans(es, meta.toCurrency);
    }
  }

  // ----- nothing to report -----

  lemma {:induction false} StoredTxBalances(l: Ledger, t: TxId)
    requires t in l.txs && TxOk(l, t)
    ensures !Unbalanced(l, t)
    ensures CrossesCurrencies(l, t) ==> CrossCheck(l.txs[t].meta, LegsOf(l, t)) == Ok(true)
  {
    hide ConvertAt;
    var legs := LegsOf(l, t);
    CurrenciesOfLegs(l, t);
    if l.txs[t].meta.FxMeta? {
      assert legs[0].currency in CurrenciesOf(l, t) && legs[1].currency in CurrenciesOf(l, t);
      TwoMembers(CurrenciesOf(l, t), legs[0].currency, legs[1].currency);
      assert FirstIn(legs, l.txs[t].meta.fromCurrency) == Some(legs[0]);
      assert legs[1..][0] == legs[1] && FirstIn(legs[1..], l.txs[t].meta.toCurrency) == Some(legs[1]);
    } else {
      OneMember(CurrenciesOf(l, t), legs[0].currency);
    }
  }

  lemma {:induction false} CurrenciesOfLegs(l: Ledger, t: TxId)
    ensures forall c :: c in CurrenciesOf(l, t) <==>
      exists i :: 0 <= i < |LegsOf(l, t)| && LegsOf(l, t)[i].currency == c
  {
    hide Where;
    WhereMembers(l.entries, OfTx(t));
    var es, legs := TxEntries(l, t), LegsOf(l, t);
    forall c
      ensures c in CurrenciesOf(l, t) <==> exists i :: 0 <= i < |legs| && legs[i].currency == c
    {
      if c in CurrenciesOf(l, t) {
        var e :| e in l.entries && e.txId == t && e.currency == c;
        assert e in es;
        var i :| 0 <= i < |es| && es[i] == e;
        assert legs[i].currency == c;
      }
      if exists i :: 0 <= i < |legs| && legs[i].currency == c {
        var i :| 0 <= i < |legs| && legs[i].currency == c;
        assert es[i] in es;
      }
    }
  }

  lemma {:induction false} TwoMembers(s: set<Currency>, x: Currency, y: Currency)
    requires x in s && y in s && x != y
    ensures |s| > 1
  {
    assert {x, y} <= s;
    assert |{x, y}| == 2;
    SubsetSize({x, y}, s);
  }

  lemma {:induction false} SubsetSize(xs: set<Currency>, ys: set<Currency>)
    requires xs <= ys
    ensures |xs| <= |ys|
    decreases |xs|
  {
    if xs != {} {
      var x :| x in xs;
      SubsetSize(xs - {x}, ys - {x});
    }
  }

  lemma {:induction false} OneMember(s: set<Currency>, c: Currency)
    requires forall x :: x in s ==> x == c
    ensures |s| <= 1
  {
    assert s <= {c};
    SubsetSize(s, {c});
  }

  lemma {:induction false} StreamPasses(l: Ledger, a: AccountId)
    requires a in l.accounts && StreamOk(l, a)
    ensures !SequenceBroken(Stream(l, a))
  {
    hide Where, SequenceBroken;
    SequenceTestExact(Stream(l, a));
  }

  /** In every reachable state of a run in which no limit is lowered below a current debt, the job finds nothing. */
  lemma {:induction false} NothingToReport(ops: seq<Op>)
    requires TimelyRun(EMPTY, ops) && DebtRespectingRun(EMPTY, ops)
    ensures forall i :: !Holds(Run0(ops), i)
    ensures forall t :: t in Run0(ops).txs ==> !RateFails(Run0(ops), t)
  {
    hide TimelyRun, DebtRespectingRun, Inv, Holds, RateFails, WithinLimits;
    EmptyLedgerOk();
    EmptyWithinLimits();
    RunKeeps(EMPTY, ops);
    RunKeepsLimits(EMPTY, ops);
    SoundLedgerPasses(Run0(ops));
  }

  function Run0(ops: seq<Op>): Ledger { Preservation.Run(EMPTY, ops) }

  lemma {:induction false} EmptyWithinLimits()
    ensures WithinLimits(EMPTY)
  {
  }

  lemma {:induction false} SoundLedgerPasses(l: Ledger)
    requires Inv(l) && WithinLimits(l)
    ensures forall i :: !Holds(l, i)
    ensures forall t :: t in l.txs ==> !RateFails(l, t)
  {
    hide Linked, ReversalsOk, SnapshotsOk, Balance, Unbalanced, CrossesCurrencies, CrossCheck, SequenceBroken, TxOk,
      RowProjects, TimesOk, StreamOk;
    forall t | t in l.txs
      ensures !Unbalanced(l, t) && (CrossesCurrencies(l, t) ==> CrossCheck(l.txs[t].meta, LegsOf(l, t)) == Ok(true))
    {
      StoredTxBalances(l, t);
    }
    forall a | a in l.accounts
      ensures !SequenceBroken(Stream(l, a)) && Balance(l, a) >= -l.accounts[a].limit
    {
      assert AccountOk(l, a) && WithinLimit(l, a);
      StreamPasses(l, a);
    }
    forall i
      ensures !Holds(l, i)
    {
      if i.UnbalancedTransaction? { UnknownTx(l, i.t); }
    }
  }

  lemma {:induction false} UnknownTx(l: Ledger, t: TxId)
    ensures t !in l.txs ==> !Unbalanced(l, t) && !CrossesCurrencies(l, t)
  {
  }

  /** After a limit change the job reports the account exactly when the new limit no longer covers its debt. */
  lemma {:induction false} LoweredLimitReported(l: Ledger, a: AccountId, limit: string)
    requires ApplyLimit(l, a, limit).1 == None
    ensures Holds(ApplyLimit(l, a, limit).0, BelowOverdraftLimit(a)) <==>
      Balance(l, a) < -FromDecimalString(limit).value
  {
    hide FromDecimalString, Stream, Total;
    LimitWritten(l, a, limit);
  }

  lemma {:induction false} LimitWritten(l: Ledger, a: AccountId, limit: string)
    requires ApplyLimit(l, a, limit).1 == None
    ensures FromDecimalString(limit).Ok? && FromDecimalString(limit).value >= 0 && a in l.accounts
    ensures var l' := ApplyLimit(l, a, limit).0;
            && a in l'.accounts && l'.accounts[a] == l.accounts[a].(limit := FromDecimalString(limit).value)
            && Stream(l', a) == Stream(l, a)
    ensures Stream(l, a) == [] ==> Balance(l, a) == 0
  {
    hide ToDecimalString, FromDecimalString, MaxEventSeq, EventStream;
  }
}
