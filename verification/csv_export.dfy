/** The CSV exports of one account, written page by page while the ledger may grow. */
module CsvExport {
  import opened Prelude
  import opened Seqs
  import opened Money
  import opened DoubleEntry
  import opened Ledger
  import opened Invariants
  import opened Preservation
  import opened Growth
  import opened Audit
  import opened Appends
  import opened Csv

  const PAGE_SIZE: nat := 500

  const BOM: string := "\U{FEFF}"

  datatype Variant = Transactions | AuditTrail

  /** What the tables of the model do not hold: the text of an instant and of an id, and an account's name. */
  datatype Texts = Texts(instant: Time -> string, id: TxId -> string, name: AccountId -> string)

  // ----- one row -----

  const BASE_COLUMNS: seq<string> :=
    ["date", "transaction_id", "type", "direction", "amount", "currency", "counterparty_account", "running_balance",
     "reference"]

  function Columns(variant: Variant): seq<string> {
    if variant == AuditTrail then ["seq"] + BASE_COLUMNS + ["fx_rate", "explanation"] else BASE_COLUMNS
  }

  function TypeText(kind: TxType): string {
    match kind
    case DepositTx => "deposit"
    case WithdrawalTx => "withdrawal"
    case TransferTx => "transfer"
    case ReversalTx => "reversal"
  }

  function HumanType(kind: TxType): string {
    match kind
    case DepositTx => "Deposit"
    case WithdrawalTx => "Withdrawal"
    case TransferTx => "Transfer"
    case ReversalTx => "Reversal"
  }

  function SignedText(units: int): string {
    if units < 0 then "-" + ToDecimalString(-units) else "+" + ToDecimalString(units)
  }

  function OtherThan(a: AccountId): Entry -> bool { (e: Entry) => e.accountId != a }

  /** The first other account of the entry's transaction that exists. */
  function Counterparty(l: Ledger, e: Entry): (b: Option<AccountId>)
    ensures b.Some? ==> b.value in l.accounts
  {
    var others := Where(TxEntries(l, e.txId), OtherThan(e.accountId));
    if others != [] && others[0].accountId in l.accounts then Some(others[0].accountId) else None
  }

  function FxRateText(row: TxRow): string { if row.meta.FxMeta? then row.meta.rate else "" }

  function Explanation(row: TxRow, side: Direction, e: Entry, running: int, party: string): string {
    var clause := if party == "" then "" else (if e.direction == Debit then " from " else " to ") + party;
    var rate := if FxRateText(row) == "" then "" else " @ fx " + FxRateText(row);
    var balance := " \U{2014} balance " + ToDecimalString(running);
    HumanType(row.kind) + " " + SignedText(Delta(side)(e)) + clause + rate + balance
  }

  /** The cells of one row, from the header, the counterparty and the running balance. */
  function RowCells(row: TxRow, side: Direction, item: Item, number: string, party: string, variant: Variant,
      texts: Texts): (cells: seq<string>)
    ensures cells != []
  {
    var e := item.entry;
    var base := [texts.instant(row.postedAt), texts.id(e.txId), TypeText(row.kind),
                 if e.direction == Debit then "debit" else "credit", ToDecimalString(e.amount), e.currency, number,
                 ToDecimalString(item.running), if row.reference.Some? then row.reference.value else ""];
    if variant == AuditTrail
    then [Digits(e.seqNo)] + base + [FxRateText(row), Explanation(row, side, e, item.running, party)]
    else base
  }

  function Cells(l: Ledger, side: Direction, item: Item, variant: Variant, texts: Texts): (cells: seq<string>)
    requires item.entry.txId in l.txs
    ensures cells != []
  {
    match Counterparty(l, item.entry)
    case None => RowCells(l.txs[item.entry.txId], side, item, "", "", variant, texts)
    case Some(b) =>
      var number := l.accounts[b].number;
      RowCells(l.txs[item.entry.txId], side, item, number, texts.name(b) + " (" + number + ")", variant, texts)
  }

  ghost predicate Known(l: Ledger, items: seq<Item>) {
    forall i :: 0 <= i < |items| ==> items[i].entry.txId in l.txs
  }

  function CsvRows(l: Ledger, side: Direction, items: seq<Item>, variant: Variant, texts: Texts)
      : (rows: seq<seq<string>>)
    requires Known(l, items)
    ensures |rows| == |items|
    ensures forall i :: 0 <= i < |items| ==> rows[i] == Cells(l, side, items[i], variant, texts)
  {
    seq(|items|, i requires 0 <= i < |items| => Cells(l, side, items[i], variant, texts))
  }

  // ----- what the columns hold -----

  /** A signed amount reads back as itself. */
  lemma {:induction false} SignedReads(units: int)
    requires -MAX_UNITS <= units <= MAX_UNITS
    ensures SignedText(units) != "" && SignedText(units)[0] == if units < 0 then '-' else '+'
    ensures FromDecimalString(SignedText(units)) == Ok(units)
  {
    hide FromDecimalString, ToDecimalString, Denotes, PadStart, Digits;
    ParsePrintRoundTrip(units);
    if units < 0 { NegativeText(units); } else { PlusIgnored(units); }
  }

  lemma {:induction false} NegativeText(units: int)
    requires units < 0
    ensures SignedText(units) == ToDecimalString(units)
  {
  }

  /** The long type name is the short one with a capital. */
  lemma {:induction false} HumanIsCapitalised(kind: TxType)
    ensures TypeText(kind) != "" && HumanType(kind) != ""
    ensures HumanType(kind)[1..] == TypeText(kind)[1..] && HumanType(kind)[0] as int + 32 == TypeText(kind)[0] as int
  {
  }

  /** The counterparty is the account of the first other entry of the transaction. */
  lemma {:induction false} CounterpartyMeans(l: Ledger, e: Entry)
    requires Linked(l)
    ensures Counterparty(l, e) == None <==>
      forall o :: o in l.entries && o.txId == e.txId ==> o.accountId == e.accountId
    ensures Counterparty(l, e).Some? ==>
      exists i :: 0 <= i < |l.entries|
        && l.entries[i].txId == e.txId && l.entries[i].accountId == Counterparty(l, e).value
        && l.entries[i].accountId != e.accountId
        && forall k :: 0 <= k < i && l.entries[k].txId == e.txId ==> l.entries[k].accountId == e.accountId
  {
    hide Where;
    WhereMembers(l.entries, OfTx(e.txId));
    WhereMembers(TxEntries(l, e.txId), OtherThan(e.accountId));
    var others := Where(TxEntries(l, e.txId), OtherThan(e.accountId));
    if others != [] {
      assert others[0] in others;
      WhereWhere(l.entries, OfTx(e.txId), OtherThan(e.accountId));
      var i := FirstKept(l.entries, Both(OfTx(e.txId), OtherThan(e.accountId)));
    }
  }

  lemma {:induction false} FirstKept<T>(xs: seq<T>, p: T -> bool) returns (i: nat)
    requires Where(xs, p) != []
    ensures i < |xs| && xs[i] == Where(xs, p)[0] && p(xs[i]) && forall k :: 0 <= k < i ==> !p(xs[k])
  {
    var front := xs[..|xs| - 1];
    if Where(front, p) != [] {
      i := FirstKept(front, p);
    } else {
      WhereMembers(front, p);
      i := |xs| - 1;
      forall k | 0 <= k < i
        ensures !p(xs[k])
      {
        assert xs[k] == front[k] && front[k] in front;
      }
    }
  }

  /** Column k is headed by this name, and this cell stands under it. */
  predicate Under(columns: seq<string>, cells: seq<string>, k: nat, name: string, cell: string) {
    k < |columns| && k < |cells| && columns[k] == name && cells[k] == cell
  }

  /** Under each column name stands the datum it announces. */
  lemma {:induction false} ColumnsHold(l: Ledger, side: Direction, item: Item, variant: Variant, texts: Texts)
    requires item.entry.txId in l.txs
    ensures var e, row, other := item.entry, l.txs[item.entry.txId], Counterparty(l, item.entry);
            var columns, cells := Columns(variant), Cells(l, side, item, variant, texts);
            var o := if variant == AuditTrail then 1 else 0;
            && |cells| == |columns|
            && Under(columns, cells, o, "date", texts.instant(row.postedAt))
            && Under(columns, cells, o + 1, "transaction_id", texts.id(e.txId))
            && Under(columns, cells, o + 2, "type",
                     if row.kind == DepositTx then "deposit" else if row.kind == WithdrawalTx then "withdrawal"
                     else if row.kind == TransferTx then "transfer" else "reversal")
            && Under(columns, cells, o + 3, "direction", if e.direction == Debit then "debit" else "credit")
            && Under(columns, cells, o + 4, "amount", ToDecimalString(e.amount))
            && Under(columns, cells, o + 5, "currency", e.currency)
            && Under(columns, cells, o + 6, "counterparty_account",
                     if other.Some? then l.accounts[other.value].number else "")
            && Under(columns, cells, o + 7, "running_balance", ToDecimalString(item.running))
            && Under(columns, cells, o + 8, "reference", if row.reference.Some? then row.reference.value else "")
            && (variant == AuditTrail ==>
                  && Under(columns, cells, 0, "seq", Digits(e.seqNo))
                  && Under(columns, cells, 10, "fx_rate", if row.meta.FxMeta? then row.meta.rate else "")
                  && columns[11] == "explanation")
  {
    hide ToDecimalString, Digits, Explanation, Counterparty, RowCells, Under, TypeText;
    var row, other := l.txs[item.entry.txId], Counterparty(l, item.entry);
    if other.Some? {
      var number := l.accounts[other.value].number;
      RowColumnsHold(row, side, item, number, texts.name(other.value) + " (" + number + ")", variant, texts);
    } else {
      RowColumnsHold(row, side, item, "", "", variant, texts);
    }
  }

  lemma {:induction false} RowColumnsHold(row: TxRow, side: Direction, item: Item, number: string, party: string,
        variant: Variant, texts: Texts)
    ensures var e, columns, cells := item.entry, Columns(variant),
                                     RowCells(row, side, item, number, party, variant, texts);
            var o := if variant == AuditTrail then 1 else 0;
            && |cells| == |columns|
            && Under(columns, cells, o, "date", texts.instant(row.postedAt))
            && Under(columns, cells, o + 1, "transaction_id", texts.id(e.txId))
            && Under(columns, cells, o + 2, "type",
                     if row.kind == DepositTx then "deposit" else if row.kind == WithdrawalTx then "withdrawal"
                     else if row.kind == TransferTx then "transfer" else "reversal")
            && Under(columns, cells, o + 3, "direction", if e.direction == Debit then "debit" else "credit")
            && Under(columns, cells, o + 4, "amount", ToDecimalString(e.amount))
            && Under(columns, cells, o + 5, "currency", e.currency)
            && Under(columns, cells, o + 6, "counterparty_account", number)
            && Under(columns, cells, o + 7, "running_balance", ToDecimalString(item.running))
            && Under(columns, cells, o + 8, "reference", if row.reference.Some? then row.reference.value else "")
            && (variant == AuditTrail ==>
                  && Under(columns, cells, 0, "seq", Digits(e.seqNo))
                  && Under(columns, cells, 10, "fx_rate", if row.meta.FxMeta? then row.meta.rate else "")
                  && columns[11] == "explanation")
  {
    hide ToDecimalString, Digits, Explanation;
  }

  /** The explanation names the type, the signed effect, where the money came from or went to, any rate, and the
      running balance, in this order. */
  lemma {:induction false} ExplanationReads(row: TxRow, side: Direction, e: Entry, running: int, party: string)
    ensures var effect := if e.direction == side then e.amount else -e.amount;
            var start := HumanType(row.kind) + " " + SignedText(effect);
            var end := " \U{2014} balance " + ToDecimalString(running);
            var way := if party == "" then "" else if e.direction == Debit then " from " + party else " to " + party;
            var rate := if row.meta.FxMeta? && row.meta.rate != "" then " @ fx " + row.meta.rate else "";
            Explanation(row, side, e, running, party) == start + (way + rate) + end
  {
    hide ToDecimalString, SignedText, HumanType;
  }

  // ----- rows never change -----

  lemma {:induction false} CounterpartyStays(l: Ledger, l': Ledger, e: Entry)
    requires Linked(l) && Grows(l, l') && e.txId in l.txs
    ensures Counterparty(l', e) == Counterparty(l, e)
    ensures Counterparty(l, e).Some? ==>
      l'.accounts[Counterparty(l, e).value].number == l.accounts[Counterparty(l, e).value].number
  {
    hide Where, AccountGrows;
    assert TxGrows(l, l', e.txId);
    var others := Where(TxEntries(l, e.txId), OtherThan(e.accountId));
    WhereMembers(TxEntries(l, e.txId), OtherThan(e.accountId));
    WhereMembers(l.entries, OfTx(e.txId));
    if others != [] {
      assert others[0] in others;
      GrowthKeepsNumber(l, l', others[0].accountId);
    }
  }

  lemma {:induction false} GrowthKeepsNumber(l: Ledger, l': Ledger, a: AccountId)
    requires Grows(l, l') && a in l.accounts
    ensures a in l'.accounts && l'.accounts[a].number == l.accounts[a].number
    ensures l'.accounts[a].normalSide == l.accounts[a].normalSide
  {
    hide Stream, EventStream;
    assert AccountGrows(l, l', a);
  }

  /** A void changes a header's status, which no column shows. */
  lemma {:induction false} HeaderStays(row: TxRow, row': TxRow, side: Direction, item: Item, number: string,
      party: string, variant: Variant, texts: Texts)
    requires row'.(status := Posted) == row.(status := Posted)
    ensures RowCells(row', side, item, number, party, variant, texts) ==
            RowCells(row, side, item, number, party, variant, texts)
  {
    hide ToDecimalString, Digits, SignedText;
    assert row' == row.(status := row'.status);
  }

  /** An entry's row reads the same in every later ledger: header, counterparty and number are settled. */
  lemma {:induction false} CellsStay(l: Ledger, l': Ledger, side: Direction, item: Item, variant: Variant, texts: Texts)
    requires Linked(l) && Grows(l, l') && item.entry.txId in l.txs
    ensures item.entry.txId in l'.txs
    ensures Cells(l', side, item, variant, texts) == Cells(l, side, item, variant, texts)
  {
    hide RowCells, Counterparty, Linked, AccountGrows;
    var e := item.entry;
    assert TxGrows(l, l', e.txId);
    CounterpartyStays(l, l', e);
    var row, row' := l.txs[e.txId], l'.txs[e.txId];
    match Counterparty(l, e)
    case None => HeaderStays(row, row', side, item, "", "", variant, texts);
    case Some(b) =>
      var number := l.accounts[b].number;
      HeaderStays(row, row', side, item, number, texts.name(b) + " (" + number + ")", variant, texts);
  }

  // ----- the export -----

  lemma {:induction false} StatementKnown(l: Ledger, a: AccountId, n: nat)
    requires Linked(l) && a in l.accounts && n <= |Stream(l, a)|
    ensures Known(l, Statement(l, a, 0, n))
  {
    hide History;
    WhereMembers(l.entries, OfAccount(a));
    forall i | 0 <= i < n
      ensures Stream(l, a)[i].txId in l.txs
    {
      assert Stream(l, a)[i] in Stream(l, a);
    }
  }

  /** The heading and the first n entries of the account. */
  ghost function Table(l: Ledger, a: AccountId, n: nat, variant: Variant, texts: Texts): seq<seq<string>>
    requires Linked(l) && a in l.accounts && n <= |Stream(l, a)|
  {
    StatementKnown(l, a, n);
    [Columns(variant)] + CsvRows(l, l.accounts[a].normalSide, Statement(l, a, 0, n), variant, texts)
  }

  lemma {:induction false} TableReadsBack(l: Ledger, a: AccountId, n: nat, variant: Variant, texts: Texts)
    requires Linked(l) && a in l.accounts && n <= |Stream(l, a)|
    ensures var table := Table(l, a, n, variant, texts);
            (BOM + CsvText(table))[1..] == CsvText(table) && ReadCsv(CsvText(table)) == Some(table)
  {
    hide CsvText, Cells, Statement;
    CsvRoundTrip(Table(l, a, n, variant, texts));
  }

  lemma {:induction false} TableSnoc(l: Ledger, a: AccountId, n: nat, variant: Variant, texts: Texts)
    requires Linked(l) && a in l.accounts && n < |Stream(l, a)|
    ensures Stream(l, a)[n].txId in l.txs
    ensures Table(l, a, n + 1, variant, texts) == Table(l, a, n, variant, texts) +
      [Cells(l, l.accounts[a].normalSide, Item(Stream(l, a)[n], History(l, a, n + 1)), variant, texts)]
  {
    hide Cells, History, Stream, Linked;
    StatementKnown(l, a, n + 1);
    var items, item := Statement(l, a, 0, n), Item(Stream(l, a)[n], History(l, a, n + 1));
    assert Statement(l, a, 0, n + 1) == items + [item];
    assert Statement(l, a, 0, n + 1)[n] == item;
  }

  /** What has been written after `done` rows, in terms of the ledger the next page is read from. */
  ghost predicate Written(l: Ledger, a: AccountId, asOf: Option<Time>, variant: Variant, texts: Texts, done: nat,
      running: int, text: string)
  {
    && Inv(l) && a in l.accounts && done <= Closing(l, a, Window(asOf, None, None)) <= |Stream(l, a)|
    && running == History(l, a, done) && text == BOM + CsvText(Table(l, a, done, variant, texts))
  }

  /** The complete export of one ledger's listing up to as_of, and what a reader makes of it. */
  ghost predicate Exported(l: Ledger, a: AccountId, asOf: Option<Time>, variant: Variant, texts: Texts, text: string) {
    && Inv(l) && a in l.accounts && Closing(l, a, Window(asOf, None, None)) <= |Stream(l, a)|
    && var table := Table(l, a, Closing(l, a, Window(asOf, None, None)), variant, texts);
       text == BOM + CsvText(table) && text != "" && text[0] == '\U{FEFF}' && ReadCsv(text[1..]) == Some(table)
  }

  lemma {:induction false} WindowOpens(l: Ledger, a: AccountId, asOf: Option<Time>)
    requires Inv(l) && a in l.accounts
    ensures Sound(l, a) && Closing(l, a, Window(asOf, None, None)) <= |Stream(l, a)|
    ensures Opening(l, a, None, None) == 0
  {
    hide Where, AccountsOk, SnapshotsOk, TxsOk, ReversalsOk;
    FiltersClosed(l, a, Window(asOf, None, None), None);
    WhereNone(Stream(l, a), Passed(l.txs, None, None));
  }

  lemma {:induction false} HeadingOnly(columns: seq<string>)
    ensures CsvText([columns]) == CsvRow(columns)
  {
    assert [columns][1..] == [];
    assert CsvRow(columns) + "" == CsvRow(columns);
  }

  lemma {:induction false} ExportStarts(l: Ledger, a: AccountId, asOf: Option<Time>, variant: Variant, texts: Texts)
    requires Inv(l) && a in l.accounts
    ensures Written(l, a, asOf, variant, texts, 0, BalanceUpToSeq(l, a, 0, asOf), BOM + CsvRow(Columns(variant)))
  {
    hide Inv, Sound, Columns, Opening, Closing, Stream, History, BalanceUpToSeq;
    var w := Window(asOf, None, None);
    LinkedOf(l);
    WindowOpens(l, a, asOf);
    BaseIsHistory(l, a, w, None);
    HeadingOnly(Columns(variant));
    assert Statement(l, a, 0, 0) == [];
    assert Table(l, a, 0, variant, texts) == [Columns(variant)];
  }

  /** A page read after `done` rows is the next stretch of the listing, shorter than asked only at its end. */
  lemma {:induction false} NextRows(l: Ledger, a: AccountId, asOf: Option<Time>, done: nat, size: nat)
    requires Inv(l) && a in l.accounts && done <= Closing(l, a, Window(asOf, None, None)) && size >= 1
    ensures Closing(l, a, Window(asOf, None, None)) <= |Stream(l, a)|
    ensures var rows, hi := RawAudit(l, a, Window(asOf, None, None), if done == 0 then None else Some(done), size),
                            Closing(l, a, Window(asOf, None, None));
            && |rows| == (if done + size < hi then size else hi - done)
            && (forall i :: 0 <= i < |rows| ==> rows[i] == Stream(l, a)[done + i] && rows[i].seqNo == done + i + 1)
  {
    hide Inv, Sound, Opening, Closing, Stream, RawAudit;
    var w, afterSeq := Window(asOf, None, None), if done == 0 then None else Some(done);
    WindowOpens(l, a, asOf);
    RawAuditIs(l, a, w, afterSeq, size);
    if done > 0 { OpeningAtCursor(l, a, w, done); }
    NumberedFrom(l, a);
  }

  lemma {:induction false} RowWritten(l: Ledger, a: AccountId, asOf: Option<Time>, variant: Variant, texts: Texts,
      done: nat, running: int, text: string)
    requires Written(l, a, asOf, variant, texts, done, running, text)
    requires done < Closing(l, a, Window(asOf, None, None))
    ensures done < |Stream(l, a)| && a in l.accounts && Stream(l, a)[done].txId in l.txs
    ensures var e, side := Stream(l, a)[done], l.accounts[a].normalSide;
            var item := Item(e, running + Delta(side)(e));
            Written(l, a, asOf, variant, texts, done + 1, item.running,
              text + CsvRow(Cells(l, side, item, variant, texts)))
  {
    hide Inv, Closing, Stream, History, Cells, Delta, CsvRow, Table;
    LinkedOf(l);
    HistoryStep(l, a, done);
    TableSnoc(l, a, done, variant, texts);
    var e, side := Stream(l, a)[done], l.accounts[a].normalSide;
    CsvTextSnoc(Table(l, a, done, variant, texts), Cells(l, side, Item(e, running + Delta(side)(e)), variant, texts));
  }

  lemma {:induction false} TableStays(l: Ledger, l': Ledger, a: AccountId, n: nat, variant: Variant, texts: Texts)
    requires Linked(l) && Linked(l') && Grows(l, l') && a in l.accounts && a in l'.accounts && AccountGrows(l, l', a)
    requires n <= |Stream(l, a)|
    ensures n <= |Stream(l', a)| && Table(l', a, n, variant, texts) == Table(l, a, n, variant, texts)
  {
    hide Linked, Grows, Cells, History, Stream, EventStream;
    StatementKnown(l, a, n);
    StatementKnown(l', a, n);
    StatementStays(l, l', a, 0, n);
    var items, side := Statement(l, a, 0, n), l.accounts[a].normalSide;
    forall i | 0 <= i < n
      ensures Cells(l', side, items[i], variant, texts) == Cells(l, side, items[i], variant, texts)
    {
      CellsStay(l, l', side, items[i], variant, texts);
    }
  }

  /** What has been written stays right when others post before the next page is read. */
  lemma {:induction false} WrittenStays(l: Ledger, l': Ledger, a: AccountId, asOf: Option<Time>, variant: Variant,
      texts: Texts, done: nat, running: int, text: string)
    requires Written(l, a, asOf, variant, texts, done, running, text) && Inv(l') && Grows(l, l')
    ensures Written(l', a, asOf, variant, texts, done, running, text)
    ensures a in l.accounts && a in l'.accounts && l'.accounts[a].normalSide == l.accounts[a].normalSide
  {
    hide Inv, Closing, Grows, Table, SameTimes, Sound;
    LinkedOf(l);
    LinkedOf(l');
    TrailGrows(l, l', a);
    WindowOpens(l', a, asOf);
    FilterGrows(l, l', a, Window(asOf, None, None), None);
    TableStays(l, l', a, done, variant, texts);
    assert Stream(l', a)[..done] == Stream(l, a)[..done];
  }

  lemma {:induction false} ExportEnds(l: Ledger, a: AccountId, asOf: Option<Time>, variant: Variant, texts: Texts,
      done: nat, running: int, text: string)
    requires Written(l, a, asOf, variant, texts, done, running, text)
    requires done == Closing(l, a, Window(asOf, None, None))
    ensures Exported(l, a, asOf, variant, texts, text)
  {
    hide Inv, Closing, Table, History, CsvText, ReadCsv;
    LinkedOf(l);
    TableReadsBack(l, a, done, variant, texts);
  }

  /** The export reads its pages from successive ledgers, as postings go on, and still comes out as the one whole
      listing of the ledger its last page was read from; a reader gets back every cell. */
  method WriteCsv(states: seq<Ledger>, a: AccountId, asOf: Option<Time>, variant: Variant, texts: Texts)
    returns (r: Result<string>)
    requires states != [] && Successive(states)
    ensures a !in states[0].accounts ==> r == Err(AccountNotFound)
    ensures a in states[0].accounts ==>
      r.Ok? && exists i :: 0 <= i < |states| && Exported(states[i], a, asOf, variant, texts, r.value)
  {
    hide Inv, Grows, Successive, Written, Exported, RawAudit, BalanceUpToSeq, CsvRow, Columns, Cells, Closing,
      Stream, Delta;
    NthGrows(states, 0, 0);
    if a !in states[0].accounts {
      return Err(AccountNotFound);
    }
    var side := states[0].accounts[a].normalSide;
    var text := BOM + CsvRow(Columns(variant));
    var afterSeq: Option<nat> := None;
    var running := BalanceUpToSeq(states[0], a, 0, asOf);
    ghost var done := 0;
    var page := 0;
    ExportStarts(states[0], a, asOf, variant, texts);
    while true
      invariant Written(Nth(states, page), a, asOf, variant, texts, done, running, text)
      invariant afterSeq == (if done == 0 then None else Some(done))
      invariant a in Nth(states, page).accounts && Nth(states, page).accounts[a].normalSide == side
      decreases Ahead(states, page), Closing(Nth(states, page), a, Window(asOf, None, None)) - done
    {
      var l := Nth(states, page);
      WrittenFacts(l, a, asOf, variant, texts, done, running, text);
      NextRows(l, a, asOf, done, PAGE_SIZE);
      var rows := RawAudit(l, a, Window(asOf, None, None), afterSeq, PAGE_SIZE);
      if |rows| == 0 {
        break;
      }
      ghost var start := done;
      for i := 0 to |rows|
        invariant done == start + i
        invariant Written(l, a, asOf, variant, texts, done, running, text)
      {
        RowWritten(l, a, asOf, variant, texts, done, running, text);
        running := running + Delta(side)(rows[i]);
        text := text + CsvRow(Cells(l, side, Item(rows[i], running), variant, texts));
        done := done + 1;
      }
      if |rows| < PAGE_SIZE {
        break;
      }
      afterSeq := Some(rows[|rows| - 1].seqNo);
      NthGrows(states, page, page + 1);
      NthGrows(states, page + 1, page + 1);
      WrittenStays(l, Nth(states, page + 1), a, asOf, variant, texts, done, running, text);
      page := page + 1;
    }
    ghost var last := if page < |states| then page else |states| - 1;
    ExportEnds(states[last], a, asOf, variant, texts, done, running, text);
    return Ok(text);
  }

  lemma {:induction false} WrittenFacts(l: Ledger, a: AccountId, asOf: Option<Time>, variant: Variant, texts: Texts,
      done: nat, running: int, text: string)
    requires Written(l, a, asOf, variant, texts, done, running, text)
    ensures Inv(l) && a in l.accounts && done <= Closing(l, a, Window(asOf, None, None))
  {
  }
}
