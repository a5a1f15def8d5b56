/** What a reader of the two streams can rely on after any run. */
module History {
  import opened Prelude
  import opened Seqs
  import opened Money
  import opened DoubleEntry
  import opened Ledger
  import opened Lifecycle
  import opened Invariants
  import opened Preservation
  import opened Growth

  // ----- money streams -----

  /** Any instant selects a prefix of a stream, and a replay returns that prefix. */
  lemma {:induction false} AsOfSelectsPrefix(l: Ledger, a: AccountId, asOf: Option<Time>)
    requires Inv(l) && a in l.accounts
    ensures Where(Stream(l, a), PostedBy(l.txs, asOf)) <= Stream(l, a)
    ensures Replay(l, a, asOf) == Where(Stream(l, a), PostedBy(l.txs, asOf))
    ensures asOf == None ==> Replay(l, a, asOf) == Stream(l, a)
  {
    hide Where, RowProjects, Balance, Linked, TxsOk, ReversalsOk, SnapshotsOk;
    assert AccountOk(l, a);
    var st, p := Stream(l, a), PostedBy(l.txs, asOf);
    DownClosedPrefix(st, p);
    SortByIdentity(Where(st, p), BySeq());
    NoTimeFilter(l.txs, st);
  }

  /** Sequence numbers are exactly 1..currentSequence, in order, in the account's currency. */
  lemma {:induction false} StreamIsNumbered(ops: seq<Op>, a: AccountId)
    requires TimelyRun(EMPTY, ops) && a in Run(EMPTY, ops).accounts
    ensures var l := Run(EMPTY, ops);
            && |Stream(l, a)| == l.accounts[a].currentSequence
            && forall i :: 0 <= i < |Stream(l, a)| ==>
                 Stream(l, a)[i].seqNo == i + 1 && Stream(l, a)[i].currency == l.accounts[a].currency
  {
    hide Linked, TxsOk, ReversalsOk, SnapshotsOk, RowProjects, TimesOk, Balance, Stream, TimelyRun;
    EmptyLedgerOk();
    RunKeeps(EMPTY, ops);
    assert AccountOk(Run(EMPTY, ops), a);
  }

  /** A closed account has a zero balance, and neither its row nor its streams ever change again. */
  lemma {:induction false} ClosedIsFinal(l: Ledger, more: seq<Op>, a: AccountId)
    requires Inv(l) && TimelyRun(l, more) && a in l.accounts && l.accounts[a].status == Closed
    ensures var later := Run(l, more);
            && a in later.accounts && later.accounts[a] == l.accounts[a]
            && Stream(later, a) == Stream(l, a) && EventStream(later, a) == EventStream(l, a)
            && Balance(l, a) == 0 && Balance(later, a) == 0
  {
    hide Linked, TxsOk, ReversalsOk, SnapshotsOk, Stream, EventStream, TimelyRun, Run, StreamOk, TimesOk, RowProjects;
    RunGrows(l, more);
    assert AccountGrows(l, Run(l, more), a) && AccountOk(l, a);
  }

  // ----- lifecycle streams -----

  lemma {:induction false} VaultLimitPrints()
    ensures ToDecimalString(VAULT_LIMIT) != "0"
  {
    hide PadStart, Digits;
    PrintIsCanonical(VAULT_LIMIT);
    assert |ToDecimalString(VAULT_LIMIT)| >= 5;
  }

  /** Folding an account's events always gives its row's status and the chain of its status history; it gives the
      row's limit exactly when the stream holds an opening or a limit change, which a vault's need not. */
  lemma {:induction false} ProjectionExact(l: Ledger, a: AccountId)
    requires Inv(l) && a in l.accounts
    ensures var p, row, events := Fold(EventStream(l, a)), l.accounts[a], EventStream(l, a);
            && p.status == row.status
            && (p.limit == ToDecimalString(row.limit) <==> SetsLimit(events))
            && row.history == Changes(events) && Chain(row.history, row.status)
            && forall i :: 0 <= i < |events| ==> events[i].seqNo == i + 1
  {
    hide Linked, TxsOk, ReversalsOk, SnapshotsOk, Fold, Changes, SetsLimit, Chain, EventStream, ToDecimalString,
      StreamOk, TimesOk, Balance;
    assert AccountOk(l, a);
    VaultLimitPrints();
  }

  /** A vault straight after its creation: its limit is not the one its empty stream folds to. */
  lemma {:induction false} FreshVaultNotProjected(l: Ledger, a: AccountId, currency: Currency)
    requires Inv(l) && ApplyVault(l, a, currency).0 != l
    ensures var l' := ApplyVault(l, a, currency).0;
            && a in l'.accounts && EventStream(l', a) == [] && !SetsLimit(EventStream(l', a))
            && Fold(EventStream(l', a)).limit != ToDecimalString(l'.accounts[a].limit)
  {
    hide AccountsOk, TxsOk, ReversalsOk, SnapshotsOk, HasNumber;
    FreshAccount(l, a);
    VaultLimitPrints();
  }

  lemma {:induction false} OpeningSetsLimit(l: Ledger, op: Op)
    requires Inv(l) && op.OpenAccount? && Apply(l, op).1 == None
    ensures op.account in Apply(l, op).0.accounts && SetsLimit(EventStream(Apply(l, op).0, op.account))
  {
    hide Inv, FromDecimalString, MaxEventSeq;
    var v := NextEvent(l, op.account, AccountOpened, None, Some(op.limit));
    WhereSnoc(l.events, v, EventOf(op.account));
    SetsLimitSnoc(EventStream(l, op.account), v);
  }

  lemma {:induction false} LimitStaysSet(events: seq<Event>, more: seq<Event>)
    requires SetsLimit(events) && events <= more
    ensures SetsLimit(more)
  {
    var i :| 0 <= i < |events| && (events[i].kind == AccountOpened || events[i].kind == LimitChanged);
    assert more[i] == events[i];
  }

  /** For every account opened through create, replaying its events rebuilds its row after any later run. */
  lemma {:induction false} CreatedAccountProjects(l: Ledger, op: Op, more: seq<Op>)
    requires Inv(l) && op.OpenAccount? && Apply(l, op).1 == None && TimelyRun(Apply(l, op).0, more)
    ensures var later, a := Run(Apply(l, op).0, more), op.account;
            && a in later.accounts
            && Fold(EventStream(later, a)).status == later.accounts[a].status
            && Fold(EventStream(later, a)).limit == ToDecimalString(later.accounts[a].limit)
  {
    hide Inv, Apply, Run, TimelyRun, SetsLimit, Fold, Changes, Chain, ToDecimalString, Stream, EventStream, TxGrows;
    var l1 := Apply(l, op).0;
    assert Timely(l, op);
    ApplyKeeps(l, op);
    OpeningSetsLimit(l, op);
    RunKeeps(l1, more);
    RunGrows(l1, more);
    var later := Run(l1, more);
    assert AccountGrows(l1, later, op.account);
    LimitStaysSet(EventStream(l1, op.account), EventStream(later, op.account));
    ProjectionExact(later, op.account);
  }

  // ----- snapshots -----

  /** UNIQUE(account_id, seq) on snapshots. */
  predicate OnePerPosition(snapshots: seq<Snapshot>) {
    forall i, j :: 0 <= i < j < |snapshots| ==>
      snapshots[i].accountId != snapshots[j].accountId || snapshots[i].seqNo != snapshots[j].seqNo
  }

  lemma {:induction false} OnlySnapshotsWriteSnapshots(l: Ledger, op: Op)
    requires !op.TakeSnapshot?
    ensures Apply(l, op).0.snapshots == l.snapshots
  {
    hide MovementFault, Of, BalanceRead, FromDecimalString, ToDecimalString, MaxEventSeq, EventStream, TxEntries,
      HasNumber;
  }

  /** Over any run each position of an account is snapshotted at most once, with the balance at that position. */
  lemma {:induction false} SnapshotPositionsUnique(ops: seq<Op>)
    requires TimelyRun(EMPTY, ops)
    ensures var l := Run(EMPTY, ops);
            && OnePerPosition(l.snapshots)
            && (forall s :: s in l.snapshots ==>
                  && s.accountId in l.accounts && 1 <= s.seqNo <= |Stream(l, s.accountId)|
                  && s.balance == Total(Stream(l, s.accountId)[..s.seqNo], Delta(l.accounts[s.accountId].normalSide)))
  {
    hide Inv, Apply, TimelyRun, Total, Stream;
    EmptyLedgerOk();
    RunKeeps(EMPTY, ops);
    SnapshotsSound(Run(EMPTY, ops));
    RunKeepsPositions(ops);
  }

  lemma {:induction false} SnapshotsSound(l: Ledger)
    requires Inv(l)
    ensures forall s :: s in l.snapshots ==> SnapshotOk(l, s)
  {
    hide SnapshotOk, AccountOk, TxOk, ReversalOk;
  }

  lemma {:induction false} RunKeepsPositions(ops: seq<Op>)
    ensures OnePerPosition(Run(EMPTY, ops).snapshots)
  {
    hide Apply, BalanceUpToSeq;
    if ops != [] {
      var l, last := Run(EMPTY, ops[..|ops| - 1]), ops[|ops| - 1];
      RunKeepsPositions(ops[..|ops| - 1]);
      if last.TakeSnapshot? {
        InsertKeepsPositions(l, last.account, last.seqNo, last.at);
      } else {
        OnlySnapshotsWriteSnapshots(l, last);
      }
    }
  }

  lemma {:induction false} InsertKeepsPositions(l: Ledger, a: AccountId, n: int, at: Time)
    requires OnePerPosition(l.snapshots)
    ensures OnePerPosition(Apply(l, TakeSnapshot(a, n, at)).0.snapshots)
  {
    hide BalanceUpToSeq;
  }
}
