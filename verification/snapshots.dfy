/** When snapshots are written, and how much history a balance read is left to replay. */
module Snapshots {
  import opened Prelude
  import opened Seqs
  import opened DoubleEntry
  import opened Ledger
  import opened Lifecycle
  import opened Invariants
  import opened Preservation
  import opened Growth

  /** SNAPSHOT_INTERVAL_EVENTS and SNAPSHOT_MAX_LAG_EVENTS; zero switches a rule off. */
  datatype Policy = Policy(interval: nat, maxLag: nat)

  function LatestSnapshotSeq(l: Ledger, a: AccountId): Option<nat> {
    match NewestSnapshot(l, a, None)
    case None => None
    case Some(s) => Some(s.seqNo)
  }

  function Lag(l: Ledger, a: AccountId, newSeq: nat): int {
    match LatestSnapshotSeq(l, a)
    case None => newSeq
    case Some(last) => newSeq - last
  }

  predicate SnapshotDue(l: Ledger, a: AccountId, newSeq: nat, policy: Policy) {
    || (policy.interval > 0 && newSeq % policy.interval == 0)
    || (policy.maxLag > 0 && Lag(l, a, newSeq) >= policy.maxLag)
  }

  function MaybeSnapshot(l: Ledger, a: AccountId, newSeq: nat, policy: Policy, at: Time): Ledger {
    if SnapshotDue(l, a, newSeq, policy) then ApplySnapshot(l, a, newSeq, at).0 else l
  }

  /** One scheduling call per leg, at the sequence number the leg was given. */
  function ScheduleAll(l: Ledger, legs: seq<Leg>, seqs: map<AccountId, nat>, policy: Policy, at: Time): Ledger {
    if legs == [] then l
    else
      var before, a := ScheduleAll(l, legs[..|legs| - 1], seqs, policy, at), legs[|legs| - 1].accountId;
      if a in seqs then MaybeSnapshot(before, a, seqs[a], policy, at) else before
  }

  // ----- scheduling writes nothing but snapshots -----

  ghost predicate OnlySnapshots(l: Ledger, l': Ledger) {
    l' == l.(snapshots := l'.snapshots) && l.snapshots <= l'.snapshots
  }

  lemma {:induction false} ScheduleOnlySnapshots(l: Ledger, legs: seq<Leg>, seqs: map<AccountId, nat>,
        policy: Policy, at: Time)
    ensures OnlySnapshots(l, ScheduleAll(l, legs, seqs, policy, at))
  {
    if legs != [] {
      ScheduleOnlySnapshots(l, legs[..|legs| - 1], seqs, policy, at);
    }
  }

  // ----- bounded replay -----

  /** Entries of an account past its newest snapshot: what a balance read replays. */
  function Trailing(l: Ledger, a: AccountId): int {
    Lag(l, a, |Stream(l, a)|)
  }

  /** The bound the two rules promise; it is exact at interval boundaries. */
  predicate ReplayBounded(l: Ledger, a: AccountId, policy: Policy) {
    && (policy.interval > 0 ==> Trailing(l, a) <= |Stream(l, a)| % policy.interval)
    && (policy.maxLag > 0 ==> Trailing(l, a) < policy.maxLag)
  }

  ghost predicate AllReplayBounded(l: Ledger, policy: Policy) {
    forall a :: a in l.accounts ==> ReplayBounded(l, a, policy)
  }

  /** A balance read sums exactly the trailing entries. */
  lemma {:induction false} ReadReplaysTrailing(l: Ledger, a: AccountId, policy: Policy)
    requires AccountsOk(l) && SnapshotsOk(l) && a in l.accounts && ReplayBounded(l, a, policy)
    ensures var replayed := match NewestSnapshot(l, a, None)
              case None => Stream(l, a)
              case Some(s) => Where(Stream(l, a), After(s.seqNo));
            && |replayed| == Trailing(l, a)
            && (policy.interval > 0 ==> |replayed| < policy.interval)
            && (policy.maxLag > 0 ==> |replayed| < policy.maxLag)
  {
    hide RowProjects, TimesOk, Newest;
    NewestUsable(l, a, None);
    assert AccountOk(l, a);
    var found := NewestSnapshot(l, a, None);
    if found.Some? {
      SeqFilters(Stream(l, a), found.value.seqNo);
    }
  }

  lemma {:induction false} NewestAfterInsert(l: Ledger, s: Snapshot)
    requires forall t :: t in l.snapshots && t.accountId == s.accountId ==> t.seqNo <= s.seqNo
    ensures LatestSnapshotSeq(InsertSnapshot(l, s), s.accountId) == Some(s.seqNo)
    ensures forall b :: b != s.accountId ==> LatestSnapshotSeq(InsertSnapshot(l, s), b) == LatestSnapshotSeq(l, b)
  {
    hide InsertSnapshot, LatestSnapshotSeq;
    InsertedIsThere(l, s);
    OwnNewest(l, InsertSnapshot(l, s), s);
    forall b | b != s.accountId
      ensures LatestSnapshotSeq(InsertSnapshot(l, s), b) == LatestSnapshotSeq(l, b)
    {
      OtherNewest(l, s, b);
    }
  }

  lemma {:induction false} OwnNewest(l: Ledger, l': Ledger, s: Snapshot)
    requires forall t :: t in l'.snapshots && t.accountId == s.accountId ==> t.seqNo <= s.seqNo
    requires exists t :: t in l'.snapshots && t.accountId == s.accountId && t.seqNo == s.seqNo
    ensures LatestSnapshotSeq(l', s.accountId) == Some(s.seqNo)
  {
    hide Where, Newest;
    WhereMembers(l'.snapshots, SnapshotOf(s.accountId, None));
    NewestIsOne(Where(l'.snapshots, SnapshotOf(s.accountId, None)));
    var t :| t in l'.snapshots && t.accountId == s.accountId && t.seqNo == s.seqNo;
    assert t in Where(l'.snapshots, SnapshotOf(s.accountId, None));
  }

  lemma {:induction false} OtherNewest(l: Ledger, s: Snapshot, b: AccountId)
    requires b != s.accountId
    ensures LatestSnapshotSeq(InsertSnapshot(l, s), b) == LatestSnapshotSeq(l, b)
  {
    hide Newest, HasSnapshot;
    WhereSnoc(l.snapshots, s, SnapshotOf(b, None));
  }

  lemma {:induction false} InsertedIsThere(l: Ledger, s: Snapshot)
    ensures exists t :: t in InsertSnapshot(l, s).snapshots && t.accountId == s.accountId && t.seqNo == s.seqNo
    ensures forall t :: t in InsertSnapshot(l, s).snapshots ==> t in l.snapshots || t == s
  {
    if HasSnapshot(l.snapshots, s.accountId, s.seqNo) {
      var i :| 0 <= i < |l.snapshots| && l.snapshots[i].accountId == s.accountId && l.snapshots[i].seqNo == s.seqNo;
      assert l.snapshots[i] in l.snapshots;
    } else {
      assert s in InsertSnapshot(l, s).snapshots;
    }
  }

  /** Scheduling at the end of a stream restores the bound that one new entry may have broken. */
  lemma {:induction false} MaybeSnapshotBounds(l: Ledger, a: AccountId, policy: Policy, at: Time)
    requires SnapshotsOk(l) && a in l.accounts && |Stream(l, a)| > 0
    requires AlmostBounded(l, a, policy)
    ensures var l' := MaybeSnapshot(l, a, |Stream(l, a)|, policy, at);
            && ReplayBounded(l', a, policy)
            && (forall b :: b != a ==> LatestSnapshotSeq(l', b) == LatestSnapshotSeq(l, b))
  {
    hide BalanceUpToSeq;
    var n := |Stream(l, a)|;
    if SnapshotDue(l, a, n, policy) {
      var s := Snapshot(a, n, BalanceUpToSeq(l, a, n, None), at);
      assert forall t :: t in l.snapshots && t.accountId == a ==> SnapshotOk(l, t);
      NewestAfterInsert(l, s);
    }
  }

  /** One entry past a bounded stream: the bound may be reached, not passed. */
  predicate AlmostBounded(l: Ledger, a: AccountId, policy: Policy) {
    var n := |Stream(l, a)|;
    && (policy.interval > 0 && n % policy.interval != 0 ==> Trailing(l, a) <= n % policy.interval)
    && (policy.maxLag > 0 ==> Trailing(l, a) <= policy.maxLag)
  }

  lemma {:induction false} NextRemainder(n: nat, k: nat)
    requires k > 0
    ensures (n + 1) % k == if (n + 1) % k == 0 then 0 else n % k + 1
  {
    var q, r := n / k, n % k;
    assert n == q * k + r;
    if r + 1 < k {
      Remainder(n + 1, k, q, r + 1);
    } else {
      assert (q + 1) * k == q * k + k;
      Remainder(n + 1, k, q + 1, 0);
    }
  }

  lemma {:induction false} Multiples(d: int, k: nat)
    ensures d >= 1 ==> d * k >= k
    ensures d <= -1 ==> d * k + k <= 0
  {
    if d >= 1 {
      assert d * k == (d - 1) * k + k;
    } else if d <= -1 {
      assert d * k == (d + 1) * k - k;
    }
  }

  lemma {:induction false} Remainder(n: nat, k: nat, q: nat, r: nat)
    requires r < k && n == q * k + r
    ensures n % k == r
  {
    var d := q - n / k;
    Multiples(d, k);
    assert d * k == q * k - (n / k) * k;
    assert n == (n / k) * k + n % k;
  }

  lemma {:induction false} AppendedAlmostBounded(l: Ledger, l': Ledger, a: AccountId, policy: Policy)
    requires ReplayBounded(l, a, policy) && l'.snapshots == l.snapshots && |Stream(l', a)| == |Stream(l, a)| + 1
    ensures AlmostBounded(l', a, policy)
  {
    if policy.interval > 0 {
      NextRemainder(|Stream(l, a)|, policy.interval);
    }
  }

  // ----- commits followed by scheduling -----

  /** The ledger a successful movement leaves once its snapshots have been scheduled. */
  function CommitAndSchedule(l: Ledger, op: Op, legs: seq<Leg>, policy: Policy): Ledger
    requires op.Post? || op.VoidTx?
  {
    var after := Apply(l, op);
    if after.1.Some? || !Present(l.accounts, legs) then after.0
    else ScheduleAll(after.0, legs, NextSeqs(l.accounts, legs), policy, op.at)
  }

  function LegsMoved(l: Ledger, op: Op): seq<Leg>
    requires op.Post? || op.VoidTx?
  {
    if op.Post? then op.tx.legs else Flip(LegsOf(l, op.target))
  }

  /** What a movement does to the streams: each of its accounts gets one more entry, no other changes. */
  lemma {:induction false} MovementLengthens(l: Ledger, op: Op, a: AccountId)
    requires Inv(l) && (op.Post? || op.VoidTx?) && Apply(l, op).1 == None && a in l.accounts
    ensures Present(l.accounts, LegsMoved(l, op)) && DistinctAccounts(LegsMoved(l, op))
    ensures a in Apply(l, op).0.accounts && Apply(l, op).0.snapshots == l.snapshots
    ensures |Stream(Apply(l, op).0, a)| == |Stream(l, a)| + (if Uses(LegsMoved(l, op), a) then 1 else 0)
  {
    hide Inv, MovementFault;
    var legs := LegsMoved(l, op);
    if op.Post? {
      MovementFaultParts(l, op.id, PostHeader(op.tx, op.kind, op.reference, op.at), legs);
      PublishLengthens(l, op.id, PostHeader(op.tx, op.kind, op.reference, op.at), legs, a);
    } else {
      VoidSucceeds(l, op.id, op.target, op.at);
      OfAccepts(legs);
      MovementFaultParts(l, op.id, ReversalHeader(op.target, op.at), legs);
      PublishLengthens(l, op.id, ReversalHeader(op.target, op.at), legs, a);
    }
  }

  lemma {:induction false} MovementFaultParts(l: Ledger, t: TxId, row: TxRow, legs: seq<Leg>)
    requires MovementFault(l, t, row, legs) == None
    ensures Present(l.accounts, legs)
  {
  }

  lemma {:induction false} PublishLengthens(l: Ledger, t: TxId, row: TxRow, legs: seq<Leg>, a: AccountId)
    requires Present(l.accounts, legs) && DistinctAccounts(legs)
    ensures |Stream(Publish(l, t, row, legs), a)| == |Stream(l, a)| + (if Uses(legs, a) then 1 else 0)
  {
    hide Publish, Stream, NextSeqs;
    if Uses(legs, a) {
      var i :| 0 <= i < |legs| && legs[i].accountId == a;
      PublishedStream(l, t, row, legs, i);
    } else {
      PublishedElsewhere(l, t, row, legs, a);
    }
  }

  /** After the first n scheduling calls the first n accounts are bounded again, the rest still only almost. */
  ghost predicate Progressing(l: Ledger, legs: seq<Leg>, n: nat, policy: Policy) {
    forall a :: a in l.accounts ==>
      if exists i :: n <= i < |legs| && legs[i].accountId == a
      then AlmostBounded(l, a, policy)
      else ReplayBounded(l, a, policy)
  }

  lemma {:induction false} SameBounds(l: Ledger, l': Ledger, a: AccountId, policy: Policy)
    requires l'.entries == l.entries && LatestSnapshotSeq(l', a) == LatestSnapshotSeq(l, a)
    ensures ReplayBounded(l', a, policy) == ReplayBounded(l, a, policy)
    ensures AlmostBounded(l', a, policy) == AlmostBounded(l, a, policy)
  {
  }

  lemma {:induction false} OneScheduled(l: Ledger, legs: seq<Leg>, n: nat, policy: Policy, at: Time)
    requires SnapshotsOk(l) && n < |legs| && DistinctAccounts(legs) && legs[n].accountId in l.accounts
    requires |Stream(l, legs[n].accountId)| > 0 && Progressing(l, legs, n, policy)
    ensures var a := legs[n].accountId;
            Progressing(MaybeSnapshot(l, a, |Stream(l, a)|, policy, at), legs, n + 1, policy)
  {
    hide MaybeSnapshot, AlmostBounded, ReplayBounded, LatestSnapshotSeq, SnapshotOk, Stream;
    var a := legs[n].accountId;
    var l' := MaybeSnapshot(l, a, |Stream(l, a)|, policy, at);
    assert AlmostBounded(l, a, policy);
    MaybeSnapshotBounds(l, a, policy, at);
    MaybeOnlySnapshots(l, a, |Stream(l, a)|, policy, at);
    forall b | b in l'.accounts && b != a
      ensures
        if exists i :: n + 1 <= i < |legs| && legs[i].accountId == b
        then AlmostBounded(l', b, policy)
        else ReplayBounded(l', b, policy)
    {
      SameBounds(l, l', b, policy);
      SameRest(legs, n, b);
    }
    SameRest(legs, n, a);
  }

  lemma {:induction false} SameRest(legs: seq<Leg>, n: nat, b: AccountId)
    requires n < |legs| && DistinctAccounts(legs)
    ensures b != legs[n].accountId ==>
      ((exists i :: n + 1 <= i < |legs| && legs[i].accountId == b) <==>
        (exists i :: n <= i < |legs| && legs[i].accountId == b))
    ensures b == legs[n].accountId ==> !exists i :: n + 1 <= i < |legs| && legs[i].accountId == b
  {
  }

  lemma {:induction false} MaybeOnlySnapshots(l: Ledger, a: AccountId, n: nat, policy: Policy, at: Time)
    ensures OnlySnapshots(l, MaybeSnapshot(l, a, n, policy, at))
  {
    hide BalanceUpToSeq;
  }

  lemma {:induction false} MaybeKeeps(l: Ledger, a: AccountId, policy: Policy, at: Time)
    requires Inv(l) && PostedBefore(l, a, at)
    ensures Inv(MaybeSnapshot(l, a, |Stream(l, a)|, policy, at))
  {
    hide Inv, ApplySnapshot, SnapshotDue;
    forall i | 0 <= i < |Stream(l, a)|
      ensures PostedAt(l.txs, Stream(l, a)[i]) <= at
    {
      assert Stream(l, a)[i] in Stream(l, a);
    }
    SnapshotKeeps(l, a, |Stream(l, a)|, at);
  }

  /** A committed movement, ready for scheduling: every leg's account was given its stream's last position. */
  ghost predicate JustCommitted(l: Ledger, legs: seq<Leg>, seqs: map<AccountId, nat>, at: Time) {
    && Inv(l) && DistinctAccounts(legs)
    && forall i :: 0 <= i < |legs| ==>
         && legs[i].accountId in l.accounts && legs[i].accountId in seqs
         && seqs[legs[i].accountId] == |Stream(l, legs[i].accountId)| > 0
         && PostedBefore(l, legs[i].accountId, at)
  }

  lemma {:induction false} StillCommitted(l: Ledger, l': Ledger, legs: seq<Leg>, seqs: map<AccountId, nat>, at: Time)
    requires JustCommitted(l, legs, seqs, at) && OnlySnapshots(l, l') && Inv(l')
    ensures JustCommitted(l', legs, seqs, at)
  {
    hide Inv;
    assert l'.txs == l.txs && l'.entries == l.entries && l'.accounts == l.accounts;
  }

  lemma {:induction false} SchedulePrefix(l: Ledger, legs: seq<Leg>, n: nat, seqs: map<AccountId, nat>,
        policy: Policy, at: Time)
    requires JustCommitted(l, legs, seqs, at) && Progressing(l, legs, 0, policy) && n <= |legs|
    ensures JustCommitted(ScheduleAll(l, legs[..n], seqs, policy, at), legs, seqs, at)
    ensures Progressing(ScheduleAll(l, legs[..n], seqs, policy, at), legs, n, policy)
  {
    hide Inv, MaybeSnapshot, Progressing, JustCommitted;
    if n > 0 {
      assert legs[..n][..n - 1] == legs[..n - 1];
      SchedulePrefix(l, legs, n - 1, seqs, policy, at);
      ScheduleStep(ScheduleAll(l, legs[..n - 1], seqs, policy, at), legs, n - 1, seqs, policy, at);
    } else {
      assert legs[..0] == [];
    }
  }

  lemma {:induction false} ScheduleStep(l: Ledger, legs: seq<Leg>, n: nat, seqs: map<AccountId, nat>,
        policy: Policy, at: Time)
    requires JustCommitted(l, legs, seqs, at) && Progressing(l, legs, n, policy) && n < |legs|
    ensures legs[n].accountId in seqs
    ensures var l' := MaybeSnapshot(l, legs[n].accountId, seqs[legs[n].accountId], policy, at);
            JustCommitted(l', legs, seqs, at) && Progressing(l', legs, n + 1, policy)
  {
    hide Progressing, MaybeSnapshot, Stream, PostedBefore, Linked, AccountsOk, TxsOk, ReversalsOk, ReferencesUnique,
      NumbersUnique;
    var a := legs[n].accountId;
    OneScheduled(l, legs, n, policy, at);
    MaybeKeeps(l, a, policy, at);
    MaybeOnlySnapshots(l, a, seqs[a], policy, at);
    StillCommitted(l, MaybeSnapshot(l, a, seqs[a], policy, at), legs, seqs, at);
  }

  lemma {:induction false} MovedRows(l: Ledger, op: Op)
    requires Inv(l) && Timely(l, op) && (op.Post? || op.VoidTx?) && Apply(l, op).1 == None
    ensures var legs := LegsMoved(l, op);
            && Present(l.accounts, legs) && DistinctAccounts(legs)
            && (forall i :: 0 <= i < |legs| ==> PostedBefore(l, legs[i].accountId, op.at))
            && op.id !in l.txs && (op.VoidTx? ==> op.target in l.txs)
            && exists row: TxRow :: row.postedAt == op.at
                 && Apply(l, op).0 == (if op.Post? then Publish(l, op.id, row, legs)
                   else Mark(Publish(l, op.id, row, legs), op.target))
  {
    hide Inv, MovementFault;
    var legs := LegsMoved(l, op);
    if op.Post? {
      var row := PostHeader(op.tx, op.kind, op.reference, op.at);
      MovementFaultParts(l, op.id, row, legs);
      FreshIds(l, op.id, row, legs);
    } else {
      VoidSucceeds(l, op.id, op.target, op.at);
      OfAccepts(legs);
      FlippedBefore(l, op.target, op.at);
      FreshIds(l, op.id, ReversalHeader(op.target, op.at), legs);
    }
  }

  lemma {:induction false} FreshIds(l: Ledger, t: TxId, row: TxRow, legs: seq<Leg>)
    requires MovementFault(l, t, row, legs) == None
    ensures t !in l.txs
  {
  }

  /** Right after a commit every position told to the scheduler is the end of that account's stream. */
  lemma {:induction false} MovementJustCommitted(l: Ledger, op: Op)
    requires Inv(l) && Timely(l, op) && (op.Post? || op.VoidTx?) && Apply(l, op).1 == None
    ensures Present(l.accounts, LegsMoved(l, op))
    ensures JustCommitted(Apply(l, op).0, LegsMoved(l, op), NextSeqs(l.accounts, LegsMoved(l, op)), op.at)
  {
    hide Inv, Timely, Apply, Stream;
    var legs, l' := LegsMoved(l, op), Apply(l, op).0;
    MovedRows(l, op);
    ApplyKeeps(l, op);
    forall i | 0 <= i < |legs|
      ensures legs[i].accountId in l'.accounts && legs[i].accountId in NextSeqs(l.accounts, legs)
      ensures NextSeqs(l.accounts, legs)[legs[i].accountId] == |Stream(l', legs[i].accountId)| > 0
      ensures PostedBefore(l', legs[i].accountId, op.at)
    {
      assert Uses(legs, legs[i].accountId) && legs[i].accountId in AccountsOf(legs);
      MovementLengthens(l, op, legs[i].accountId);
      StreamLength(l, legs[i].accountId);
      MovedBefore(l, op, i);
    }
  }

  lemma {:induction false} StreamLength(l: Ledger, a: AccountId)
    requires Inv(l) && a in l.accounts
    ensures |Stream(l, a)| == l.accounts[a].currentSequence
  {
    assert AccountOk(l, a);
  }

  lemma {:induction false} MovedBefore(l: Ledger, op: Op, i: nat)
    requires Inv(l) && Timely(l, op) && (op.Post? || op.VoidTx?) && Apply(l, op).1 == None
    requires i < |LegsMoved(l, op)|
    ensures PostedBefore(Apply(l, op).0, LegsMoved(l, op)[i].accountId, op.at)
  {
    hide Inv, Timely, Apply, LegsMoved;
    var legs := LegsMoved(l, op);
    MovedRows(l, op);
    var row: TxRow :| row.postedAt == op.at
      && Apply(l, op).0 == (if op.Post? then Publish(l, op.id, row, legs)
        else Mark(Publish(l, op.id, row, legs), op.target));
    LinkedOf(l);
    PublishedBefore(l, op.id, row, legs, i);
    if op.VoidTx? {
      MarkBefore(Publish(l, op.id, row, legs), op.target, legs[i].accountId, op.at);
    }
  }

  lemma {:induction false} MarkBefore(l: Ledger, target: TxId, a: AccountId, at: Time)
    requires target in l.txs && PostedBefore(l, a, at)
    ensures PostedBefore(Mark(l, target), a, at)
  {
    hide Where;
    assert Stream(Mark(l, target), a) == Stream(l, a);
    forall e | e in Stream(l, a)
      ensures PostedAt(Mark(l, target).txs, e) <= at
    {
      assert PostedAt(Mark(l, target).txs, e) == PostedAt(l.txs, e);
    }
  }

  lemma {:induction false} PublishedBefore(l: Ledger, t: TxId, row: TxRow, legs: seq<Leg>, i: nat)
    requires Linked(l) && t !in l.txs && Present(l.accounts, legs) && DistinctAccounts(legs) && i < |legs|
    requires PostedBefore(l, legs[i].accountId, row.postedAt)
    ensures PostedBefore(Publish(l, t, row, legs), legs[i].accountId, row.postedAt)
  {
    hide Stream;
    var a, l' := legs[i].accountId, Publish(l, t, row, legs);
    PublishedStream(l, t, row, legs, i);
    OldTimes(l, t, row, legs, a);
    var last := Stamp(t, legs, NextSeqs(l.accounts, legs))[i];
    assert PostedAt(l'.txs, last) == row.postedAt;
    forall e | e in Stream(l', a)
      ensures PostedAt(l'.txs, e) <= row.postedAt
    {
      assert e in Stream(l, a) || e == last;
    }
  }

  /** Bounded replay cost: however many movements commit, each followed by its scheduling, every balance read
      replays fewer entries than the interval and fewer than the maximum lag. */
  lemma {:induction false} CommitKeepsBounds(l: Ledger, op: Op, policy: Policy)
    requires Inv(l) && Timely(l, op) && (op.Post? || op.VoidTx?) && AllReplayBounded(l, policy)
    ensures var l' := CommitAndSchedule(l, op, LegsMoved(l, op), policy);
            Inv(l') && AllReplayBounded(l', policy)
  {
    hide Inv, Apply, Timely, LegsMoved, ScheduleAll, NextSeqs, ReplayBounded, AlmostBounded;
    var legs := LegsMoved(l, op);
    var after := Apply(l, op);
    if after.1.Some? {
      RefusalKeeps(l, op);
    } else {
      MovementJustCommitted(l, op);
      var seqs := NextSeqs(l.accounts, legs);
      forall a | a in after.0.accounts
        ensures
          if exists i :: 0 <= i < |legs| && legs[i].accountId == a
          then AlmostBounded(after.0, a, policy)
          else ReplayBounded(after.0, a, policy)
      {
        CommittedBounds(l, op, a, policy);
      }
      SchedulePrefix(after.0, legs, |legs|, seqs, policy, op.at);
      assert legs[..|legs|] == legs;
    }
  }

  lemma {:induction false} RefusalKeeps(l: Ledger, op: Op)
    requires Apply(l, op).1.Some?
    ensures Apply(l, op).0 == l
  {
    RefusalChangesNothing(l, op);
  }

  lemma {:induction false} SameAccounts(l: Ledger, op: Op, a: AccountId)
    requires Inv(l) && Timely(l, op) && (op.Post? || op.VoidTx?) && Apply(l, op).1 == None
      && a in Apply(l, op).0.accounts
    ensures a in l.accounts
  {
    hide Inv, Timely, Apply, LegsMoved;
    MovedRows(l, op);
  }

  lemma {:induction false} CommittedBounds(l: Ledger, op: Op, a: AccountId, policy: Policy)
    requires Inv(l) && Timely(l, op) && (op.Post? || op.VoidTx?) && Apply(l, op).1 == None
    requires a in Apply(l, op).0.accounts && AllReplayBounded(l, policy)
    ensures if exists i :: 0 <= i < |LegsMoved(l, op)| && LegsMoved(l, op)[i].accountId == a
            then AlmostBounded(Apply(l, op).0, a, policy) else ReplayBounded(Apply(l, op).0, a, policy)
  {
    hide Inv, Timely, Apply, LegsMoved, Stream;
    SameAccounts(l, op, a);
    MovementLengthens(l, op, a);
    assert ReplayBounded(l, a, policy);
    if Uses(LegsMoved(l, op), a) {
      AppendedAlmostBounded(l, Apply(l, op).0, a, policy);
    }
  }

  lemma {:induction false} EmptyIsBounded(policy: Policy)
    ensures AllReplayBounded(EMPTY, policy)
  {
  }

  // ----- whole runs -----

  /** A movement is followed by its scheduling; any other operation stands alone. */
  function ScheduledStep(l: Ledger, op: Op, policy: Policy): Ledger {
    if op.Post? || op.VoidTx? then CommitAndSchedule(l, op, LegsMoved(l, op), policy) else Apply(l, op).0
  }

  function ScheduledRun(l: Ledger, ops: seq<Op>, policy: Policy): Ledger {
    if ops == [] then l else ScheduledStep(ScheduledRun(l, ops[..|ops| - 1], policy), ops[|ops| - 1], policy)
  }

  /** Snapshots are written by the scheduler alone. */
  ghost predicate TimelySchedule(l: Ledger, ops: seq<Op>, policy: Policy) {
    ops != [] ==>
      && TimelySchedule(l, ops[..|ops| - 1], policy)
      && Timely(ScheduledRun(l, ops[..|ops| - 1], policy), ops[|ops| - 1]) && !ops[|ops| - 1].TakeSnapshot?
  }

  lemma {:induction false} NewAccountBounded(l: Ledger, l': Ledger, a: AccountId, policy: Policy)
    requires Linked(l) && SnapshotsOk(l) && a !in l.accounts
    requires l'.entries == l.entries && l'.snapshots == l.snapshots
    ensures ReplayBounded(l', a, policy)
  {
    FreshAccount(l, a);
    assert Stream(l', a) == [];
    forall s | s in l.snapshots
      ensures !SnapshotOf(a, None)(s)
    {
      assert SnapshotOk(l, s);
    }
    WhereNone(l.snapshots, SnapshotOf(a, None));
  }

  lemma {:induction false} RowOperationKeepsBounds(l: Ledger, op: Op, policy: Policy)
    requires Inv(l) && AllReplayBounded(l, policy) && !op.Post? && !op.VoidTx? && !op.TakeSnapshot?
    ensures AllReplayBounded(Apply(l, op).0, policy)
  {
    hide Apply, AccountsOk, TxsOk, ReversalsOk, ReplayBounded, Stream;
    var l' := Apply(l, op).0;
    if l' != l {
      RowOperationIsRowChange(l, op);
      forall a | a in l'.accounts
        ensures ReplayBounded(l', a, policy)
      {
        if a in l.accounts {
          SameBounds(l, l', a, policy);
        } else {
          NewAccountBounded(l, l', a, policy);
        }
      }
    }
  }

  /** Over any run of operations from the empty ledger, however many movements commit, every account's balance read
      stays within both bounds. */
  lemma {:induction false} ScheduledRunBounded(ops: seq<Op>, policy: Policy)
    requires TimelySchedule(EMPTY, ops, policy)
    ensures Inv(ScheduledRun(EMPTY, ops, policy)) && AllReplayBounded(ScheduledRun(EMPTY, ops, policy), policy)
  {
    hide Inv, Apply, Timely, CommitAndSchedule, LegsMoved, ReplayBounded;
    if ops == [] {
      EmptyLedgerOk();
      EmptyIsBounded(policy);
    } else {
      var front, op := ops[..|ops| - 1], ops[|ops| - 1];
      ScheduledRunBounded(front, policy);
      var l := ScheduledRun(EMPTY, front, policy);
      if op.Post? || op.VoidTx? {
        CommitKeepsBounds(l, op, policy);
      } else {
        ApplyKeeps(l, op);
        RowOperationKeepsBounds(l, op, policy);
      }
    }
  }
}
