/** What an account statement shows, in terms of the stored rows alone. */
module StatementLaw {
  import opened Prelude
  import opened DoubleEntry
  import opened Ledger
  import opened Invariants
  import opened BalanceLaw
  import opened Audit

  /** The balance after the first n rows of the account: debits against credits, by its normal side. */
  lemma {:induction false} HistoryMeans(l: Ledger, a: AccountId, n: nat)
    requires a in l.accounts && n <= |Stream(l, a)|
    ensures var rows := Stream(l, a)[..n];
            Audit.History(l, a, n) == NetOf(l.accounts[a].normalSide, rows)
  {
    hide Stream, Delta;
    RowsTotal(Stream(l, a)[..n]);
  }

  predicate Listed(items: seq<Item>, e: Entry) { exists k :: 0 <= k < |items| && items[k].entry == e }

  /** Following the pages lists exactly the account's rows whose transactions were posted by as_of, not before `from`
      and not after `to`, in sequence order, each with debits against credits of all rows up to its own number. */
  lemma {:induction false} StatementRows(l: Ledger, a: AccountId, w: Window, limit: nat)
    requires Inv(l) && a in l.accounts && limit >= 1
    ensures Sound(l, a)
    ensures forall e :: Listed(Walk(l, a, w, None, limit), e) <==>
      && e in l.entries && e.accountId == a && e.txId in l.txs
      && (w.asOf.Some? ==> l.txs[e.txId].postedAt <= w.asOf.value)
      && (w.from.Some? ==> w.from.value <= l.txs[e.txId].postedAt)
      && (w.to.Some? ==> l.txs[e.txId].postedAt <= w.to.value)
    ensures forall i, j :: 0 <= i < j < |Walk(l, a, w, None, limit)| ==>
      Walk(l, a, w, None, limit)[i].entry.seqNo < Walk(l, a, w, None, limit)[j].entry.seqNo
    ensures forall k :: 0 <= k < |Walk(l, a, w, None, limit)| ==>
      var item := Walk(l, a, w, None, limit)[k];
      && item.entry.seqNo <= |Stream(l, a)|
      && var rows := Stream(l, a)[..item.entry.seqNo];
         item.running == NetOf(l.accounts[a].normalSide, rows)
  {
    hide Walk, Audit.History, Stream, Opening, Closing, AccountsOk, SnapshotsOk, TxsOk, ReversalsOk, Reached, Passed;
    ReadsSound(l);
    WalkIsStatement(l, a, w, None, limit);
    NumberedFrom(l, a);
    var items := Statement(l, a, Opening(l, a, w.from, None), Closing(l, a, w));
    forall k | 0 <= k < |items|
      ensures items[k].running == Audit.History(l, a, items[k].entry.seqNo) && items[k].entry.seqNo <= |Stream(l, a)|
    {
    }
    forall k | 0 <= k < |items|
      ensures var rows := Stream(l, a)[..items[k].entry.seqNo];
        items[k].running == NetOf(l.accounts[a].normalSide, rows)
    {
      HistoryMeans(l, a, items[k].entry.seqNo);
    }
    forall e
      ensures Listed(items, e) <==> Admitted(l, a, w, e)
    {
      StatementIsWindow(l, a, w, e);
      AdmittedMeans(l, a, w, e);
    }
  }

  predicate Admitted(l: Ledger, a: AccountId, w: Window, e: Entry) {
    && e in l.entries && e.accountId == a && e.txId in l.txs
    && (w.asOf.Some? ==> l.txs[e.txId].postedAt <= w.asOf.value)
    && (w.from.Some? ==> w.from.value <= l.txs[e.txId].postedAt)
    && (w.to.Some? ==> l.txs[e.txId].postedAt <= w.to.value)
  }

  lemma {:induction false} AdmittedMeans(l: Ledger, a: AccountId, w: Window, e: Entry)
    requires Linked(l)
    ensures Admitted(l, a, w, e) <==>
      e in l.entries && e.accountId == a && Reached(l.txs, w)(e) && !Passed(l.txs, w.from, None)(e)
  {
  }

  /** The balance a page reports: debits against credits of the account's rows posted by `to`, else by as_of, else
      so far. */
  lemma {:induction false} ReportedRows(l: Ledger, a: AccountId, w: Window, afterSeq: Option<nat>, limit: nat)
    requires Inv(l) && a in l.accounts
    ensures var until := if w.to.Some? then w.to else w.asOf;
            var rows := Replay(l, a, until);
            && Page(l, a, w, afterSeq, limit).balance == NetOf(l.accounts[a].normalSide, rows)
            && (forall e :: e in rows <==>
                  && e in l.entries && e.accountId == a && e.txId in l.txs
                  && (until.Some? ==> l.txs[e.txId].postedAt <= until.value))
  {
    hide Inv, BalanceRead, Replay, RawAudit, Annotate, Base, Debits, Credits;
    ReadLaw(l, a, if w.to.Some? then w.to else w.asOf);
  }
}
