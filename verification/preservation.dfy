/** Every atomic operation keeps the invariant, so every run does. */
module Preservation {
  import opened Prelude
  import opened Seqs
  import opened Money
  import opened DoubleEntry
  import opened Ledger
  import opened Lifecycle
  import opened Invariants

  // ----- what the clock and the scheduler promise about an operation -----

  /** Nothing on this account was posted after `at`. */
  ghost predicate PostedBefore(l: Ledger, a: AccountId, at: Time) {
    forall e :: e in Stream(l, a) ==> PostedAt(l.txs, e) <= at
  }

  /** Timestamps come from one monotone clock read under the locks; a snapshot covers only posted entries. */
  ghost predicate Timely(l: Ledger, op: Op) {
    match op
    case Post(_, tx, _, _, at) => forall i :: 0 <= i < |tx.legs| ==> PostedBefore(l, tx.legs[i].accountId, at)
    case VoidTx(_, target, at) =>
      forall i :: 0 <= i < |LegsOf(l, target)| ==> PostedBefore(l, LegsOf(l, target)[i].accountId, at)
    case TakeSnapshot(a, n, at) =>
      n <= |Stream(l, a)| && forall i :: 0 <= i < n ==> PostedAt(l.txs, Stream(l, a)[i]) <= at
    case _ => true
  }

  // ----- publishing -----

  /** A movement that passed the gate, ready to be published as transaction t. */
  ghost predicate Publishable(l: Ledger, t: TxId, row: TxRow, legs: seq<Leg>) {
    && t !in l.txs
    && Accepted(Draft(legs, FxOf(row.meta)))
    && (row.meta.FxMeta? ==> legs[1].currency == row.meta.toCurrency)
    && Present(l.accounts, legs)
    && (forall i :: 0 <= i < |legs| ==> LegAllowed(l, legs[i]))
    && (forall i :: 0 <= i < |legs| ==> PostedBefore(l, legs[i].accountId, row.postedAt))
  }

  /** Every entry keeps its timestamp, because headers of stored entries are only ever added to. */
  ghost predicate SameTimes(l: Ledger, l': Ledger, a: AccountId) {
    forall e :: e in Stream(l, a) ==> PostedAt(l'.txs, e) == PostedAt(l.txs, e)
  }

  lemma {:induction false} OldTimes(l: Ledger, t: TxId, row: TxRow, legs: seq<Leg>, a: AccountId)
    requires Linked(l) && t !in l.txs && Present(l.accounts, legs)
    ensures SameTimes(l, Publish(l, t, row, legs), a)
  {
    WhereMembers(l.entries, OfAccount(a));
  }

  /** Appending the next entry to an active account's stream. */
  lemma {:induction false} AppendKeepsAccount(l: Ledger, l': Ledger, a: AccountId, e: Entry)
    requires a in l.accounts && a in l'.accounts && AccountOk(l, a) && SameTimes(l, l', a)
    requires Stream(l', a) == Stream(l, a) + [e] && EventStream(l', a) == EventStream(l, a)
    requires l'.accounts[a] == l.accounts[a].(currentSequence := l.accounts[a].currentSequence + 1)
    requires e.seqNo == l.accounts[a].currentSequence + 1 && e.currency == l.accounts[a].currency
    requires PostedBefore(l, a, PostedAt(l'.txs, e)) && l.accounts[a].status == Active
    ensures AccountOk(l', a)
  {
    var st, st' := Stream(l, a), Stream(l', a);
    forall i, j | 0 <= i < j < |st'|
      ensures PostedAt(l'.txs, st'[i]) <= PostedAt(l'.txs, st'[j])
    {
      assert st[i] in st && st'[i] == st[i];
      if j < |st| { assert st[j] in st; }
    }
  }

  lemma {:induction false} PublishedRow(l: Ledger, t: TxId, row: TxRow, legs: seq<Leg>, i: nat)
    requires Present(l.accounts, legs) && i < |legs|
    ensures var a := legs[i].accountId;
            var next := l.accounts[a].currentSequence + 1;
            && Publish(l, t, row, legs).accounts[a] == l.accounts[a].(currentSequence := next)
            && Stamp(t, legs, NextSeqs(l.accounts, legs))[i].seqNo == next
  {
    assert legs[i].accountId in AccountsOf(legs);
  }

  lemma {:induction false} PublishKeepsTouched(l: Ledger, t: TxId, row: TxRow, legs: seq<Leg>, i: nat)
    requires Linked(l) && t !in l.txs && Present(l.accounts, legs) && DistinctAccounts(legs) && i < |legs|
    requires AccountOk(l, legs[i].accountId) && LegAllowed(l, legs[i])
    requires PostedBefore(l, legs[i].accountId, row.postedAt)
    ensures AccountOk(Publish(l, t, row, legs), legs[i].accountId)
  {
    var a, l' := legs[i].accountId, Publish(l, t, row, legs);
    PublishedStream(l, t, row, legs, i);
    PublishedRow(l, t, row, legs, i);
    OldTimes(l, t, row, legs, a);
    AppendKeepsAccount(l, l', a, Stamp(t, legs, NextSeqs(l.accounts, legs))[i]);
  }

  lemma {:induction false} QuietKeepsAccount(l: Ledger, l': Ledger, a: AccountId)
    requires a in l.accounts && a in l'.accounts && AccountOk(l, a) && SameTimes(l, l', a)
    requires Stream(l', a) == Stream(l, a) && EventStream(l', a) == EventStream(l, a)
    requires l'.accounts[a] == l.accounts[a]
    ensures AccountOk(l', a)
  {
    var st := Stream(l, a);
    forall i | 0 <= i < |st|
      ensures PostedAt(l'.txs, st[i]) == PostedAt(l.txs, st[i])
    {
      assert st[i] in st;
    }
  }

  lemma {:induction false} PublishKeepsAccounts(l: Ledger, t: TxId, row: TxRow, legs: seq<Leg>)
    requires Linked(l) && AccountsOk(l) && Publishable(l, t, row, legs)
    ensures AccountsOk(Publish(l, t, row, legs))
  {
    var l' := Publish(l, t, row, legs);
    forall a | a in l'.accounts
      ensures AccountOk(l', a)
    {
      if Uses(legs, a) {
        var i :| 0 <= i < |legs| && legs[i].accountId == a;
        PublishKeepsTouched(l, t, row, legs, i);
      } else {
        PublishedElsewhere(l, t, row, legs, a);
        OldTimes(l, t, row, legs, a);
        QuietKeepsAccount(l, l', a);
      }
    }
  }

  /** A snapshot covers a prefix, and a longer stream has the same prefix. */
  lemma {:induction false} LongerStreamKeepsSnapshot(l: Ledger, l': Ledger, s: Snapshot)
    requires SnapshotOk(l, s) && s.accountId in l'.accounts && SameTimes(l, l', s.accountId)
    requires Stream(l, s.accountId) <= Stream(l', s.accountId)
    requires l'.accounts[s.accountId].normalSide == l.accounts[s.accountId].normalSide
    ensures SnapshotOk(l', s)
  {
    var st, st' := Stream(l, s.accountId), Stream(l', s.accountId);
    assert st'[..s.seqNo] == st[..s.seqNo];
    forall i | 0 <= i < s.seqNo
      ensures PostedAt(l'.txs, st'[i]) <= s.createdAt
    {
      assert st[i] in st && st'[i] == st[i];
    }
  }

  lemma {:induction false} PublishKeepsSnapshots(l: Ledger, t: TxId, row: TxRow, legs: seq<Leg>)
    requires Linked(l) && SnapshotsOk(l) && Publishable(l, t, row, legs)
    ensures SnapshotsOk(Publish(l, t, row, legs))
  {
    var l' := Publish(l, t, row, legs);
    forall s | s in l'.snapshots
      ensures SnapshotOk(l', s)
    {
      WherePrefix(l.entries, l'.entries, OfAccount(s.accountId));
      OldTimes(l, t, row, legs, s.accountId);
      LongerStreamKeepsSnapshot(l, l', s);
    }
  }

  lemma {:induction false} PublishKeepsTxs(l: Ledger, t: TxId, row: TxRow, legs: seq<Leg>)
    requires Linked(l) && TxsOk(l) && Publishable(l, t, row, legs)
    ensures TxsOk(Publish(l, t, row, legs))
  {
    var l' := Publish(l, t, row, legs);
    PublishedTx(l, t, row, legs);
    forall u | u in l'.txs
      ensures TxOk(l', u)
    {
      if u != t {
        assert TxOk(l, u);
        assert LegsOf(l', u) == LegsOf(l, u);
      }
    }
  }

  lemma {:induction false} PublishKeepsLinks(l: Ledger, t: TxId, row: TxRow, legs: seq<Leg>)
    requires Linked(l) && Present(l.accounts, legs)
    ensures Linked(Publish(l, t, row, legs))
  {
    var l' := Publish(l, t, row, legs);
    var es := Stamp(t, legs, NextSeqs(l.accounts, legs));
    forall e | e in l'.entries
      ensures e.txId in l'.txs && e.accountId in l'.accounts
    {
      if e in es {
        var i :| 0 <= i < |es| && es[i] == e;
      }
    }
  }

  lemma {:induction false} FreshKeepsReferences(l: Ledger, l': Ledger, t: TxId, row: TxRow)
    requires ReferencesUnique(l) && t !in l.txs && l'.txs == l.txs[t := row]
    requires row.reference.Some? ==> !HasReference(l.txs, row.reference.value)
    ensures ReferencesUnique(l')
  {
  }

  lemma {:induction false} BumpKeepsNumbers(l: Ledger, t: TxId, row: TxRow, legs: seq<Leg>)
    requires NumbersUnique(l) && Present(l.accounts, legs)
    ensures NumbersUnique(Publish(l, t, row, legs))
  {
    var l' := Publish(l, t, row, legs);
    assert forall a :: a in l'.accounts ==> l'.accounts[a].number == l.accounts[a].number;
  }

  lemma {:induction false} PublishKeepsAll(l: Ledger, t: TxId, row: TxRow, legs: seq<Leg>)
    requires Inv(l) && Publishable(l, t, row, legs)
    requires row.reference.Some? ==> !HasReference(l.txs, row.reference.value)
    ensures var l' := Publish(l, t, row, legs);
            Linked(l') && AccountsOk(l') && TxsOk(l') && ReferencesUnique(l') && NumbersUnique(l') && SnapshotsOk(l')
  {
    PublishKeepsLinks(l, t, row, legs);
    PublishKeepsAccounts(l, t, row, legs);
    PublishKeepsTxs(l, t, row, legs);
    FreshKeepsReferences(l, Publish(l, t, row, legs), t, row);
    BumpKeepsNumbers(l, t, row, legs);
    PublishKeepsSnapshots(l, t, row, legs);
  }

  /** The pairing only reads headers and stored legs, so it survives anything that keeps both. */
  lemma {:induction false} PairingCarries(l: Ledger, l': Ledger, r: TxId)
    requires r in l.txs && l.txs[r].meta.ReversalMeta? && ReversalOk(l, r)
    requires r in l'.txs && l'.txs[r].meta == l.txs[r].meta
    requires var o := l.txs[r].meta.original;
             o in l'.txs && l'.txs[o] == l.txs[o] && TxEntries(l', o) == TxEntries(l, o)
    requires TxEntries(l', r) == TxEntries(l, r)
    ensures ReversalOk(l', r)
  {
  }

  /** A published row that reverses nothing leaves the void/reversal pairing as it was. */
  lemma {:induction false} PlainPublishKeepsReversals(l: Ledger, t: TxId, row: TxRow, legs: seq<Leg>)
    requires Linked(l) && ReversalsOk(l) && t !in l.txs && Present(l.accounts, legs)
    requires !row.meta.ReversalMeta? && row.status == Posted
    ensures ReversalsOk(Publish(l, t, row, legs))
  {
    var l' := Publish(l, t, row, legs);
    PublishedTx(l, t, row, legs);
    forall r | r in l'.txs && l'.txs[r].meta.ReversalMeta?
      ensures ReversalOk(l', r)
    {
      assert ReversalOk(l, r);
      PairingCarries(l, l', r);
    }
    SameReversers(l, l');
  }

  lemma {:induction false} SameReversers(l: Ledger, l': Ledger)
    requires ReversalsOk(l)
    requires forall r, o :: Reverses(l', r, o) <==> Reverses(l, r, o)
    requires forall o :: o in l'.txs && l'.txs[o].status == Voided ==> o in l.txs && l.txs[o].status == Voided
    ensures forall o :: o in l'.txs && l'.txs[o].status == Voided ==> exists r :: Reverses(l', r, o)
    ensures forall r, q, o :: Reverses(l', r, o) && Reverses(l', q, o) ==> r == q
  {
    forall o | o in l'.txs && l'.txs[o].status == Voided
      ensures exists r :: Reverses(l', r, o)
    {
      var r :| Reverses(l, r, o);
      assert Reverses(l', r, o);
    }
  }

  lemma {:induction false} SlotFree(l: Ledger, t: TxId, legs: seq<Leg>, e: Entry, j: nat)
    requires Linked(l) && AccountsOk(l) && t !in l.txs && Present(l.accounts, legs)
    requires e in l.entries && j < |legs| && legs[j].accountId == e.accountId
    ensures var fresh' := Stamp(t, legs, NextSeqs(l.accounts, legs))[j];
            e.seqNo != fresh'.seqNo && e.txId != fresh'.txId
  {
    hide AccountOk;
    StreamSeqBound(l, e);
  }

  /** The gate and the header guard are the only refusals: in a reachable ledger the
      unique slots of the log are always free. */
  lemma {:induction false} SlotsAlwaysFree(l: Ledger, t: TxId, legs: seq<Leg>)
    requires Linked(l) && AccountsOk(l) && t !in l.txs && Present(l.accounts, legs) && DistinctAccounts(legs)
    ensures SlotsFree(l.entries, Stamp(t, legs, NextSeqs(l.accounts, legs)))
  {
    hide AccountsOk, Linked;
    var es := Stamp(t, legs, NextSeqs(l.accounts, legs));
    forall i, j | 0 <= i < |l.entries| && 0 <= j < |es| && l.entries[i].accountId == es[j].accountId
      ensures l.entries[i].seqNo != es[j].seqNo && l.entries[i].txId != es[j].txId
    {
      SlotFree(l, t, legs, l.entries[i], j);
    }
  }

  lemma {:induction false} StreamSeqBound(l: Ledger, e: Entry)
    requires AccountsOk(l) && e in l.entries && e.accountId in l.accounts
    ensures 1 <= e.seqNo <= l.accounts[e.accountId].currentSequence
  {
    WhereMembers(l.entries, OfAccount(e.accountId));
    assert AccountOk(l, e.accountId);
    var k :| 0 <= k < |Stream(l, e.accountId)| && Stream(l, e.accountId)[k] == e;
  }

  lemma {:induction false} MovementFaultExact(l: Ledger, t: TxId, row: TxRow, legs: seq<Leg>)
    requires Inv(l) && DistinctAccounts(legs)
    ensures MovementFault(l, t, row, legs) == None <==>
      && (forall i :: 0 <= i < |legs| ==> LegAllowed(l, legs[i]))
      && (row.reference.Some? ==> !HasReference(l.txs, row.reference.value))
      && t !in l.txs
  {
    hide Inv, LegAllowed, FundsFault, SlotsFree, HasReference, AccountsOk, SnapshotsOk, BalancesFor;
    ReadsSound(l);
    LinkedOf(l);
    GateExact(l, legs);
    if Gate(l.accounts, BalancesFor(l, AccountsOf(legs), None), legs) == None && t !in l.txs {
      SlotsAlwaysFree(l, t, legs);
    }
  }

  // ----- Post -----

  lemma {:induction false} PostPublishable(l: Ledger, t: TxId, d: Movement, kind: TxType, reference: Option<string>,
        at: Time)
    requires Inv(l) && Timely(l, Post(t, d, kind, reference, at))
    requires MovementFault(l, t, PostHeader(d, kind, reference, at), d.legs) == None
    ensures Publishable(l, t, PostHeader(d, kind, reference, at), d.legs)
    ensures reference.Some? ==> !HasReference(l.txs, reference.value)
  {
    MovementFaultExact(l, t, PostHeader(d, kind, reference, at), d.legs);
    assert FxOf(MetaOf(d)) == d.fx;
    assert Draft(d.legs, d.fx) == d;
  }

  lemma {:induction false} PostKeeps(l: Ledger, t: TxId, d: Movement, kind: TxType, reference: Option<string>, at: Time)
    requires Inv(l) && Timely(l, Post(t, d, kind, reference, at))
    ensures Inv(ApplyPost(l, t, d, kind, reference, at).0)
  {
    var row := PostHeader(d, kind, reference, at);
    if MovementFault(l, t, row, d.legs) == None {
      PostPublishable(l, t, d, kind, reference, at);
      PublishKeepsAll(l, t, row, d.legs);
      PlainPublishKeepsReversals(l, t, row, d.legs);
    }
  }

  // ----- Void -----

  /** Marking the original void changes a status and nothing a balance is read from. */
  function Mark(l: Ledger, target: TxId): Ledger
    requires target in l.txs
  {
    l.(txs := l.txs[target := l.txs[target].(status := Voided)])
  }

  lemma {:induction false} MarkKeepsAccounts(l: Ledger, target: TxId)
    requires target in l.txs && AccountsOk(l) && SnapshotsOk(l) && TxsOk(l)
    ensures AccountsOk(Mark(l, target)) && SnapshotsOk(Mark(l, target)) && TxsOk(Mark(l, target))
  {
    var l' := Mark(l, target);
    assert forall e: Entry :: PostedAt(l'.txs, e) == PostedAt(l.txs, e);
    forall a | a in l'.accounts
      ensures AccountOk(l', a)
    {
      QuietKeepsAccount(l, l', a);
    }
    forall s | s in l'.snapshots
      ensures SnapshotOk(l', s)
    {
      LongerStreamKeepsSnapshot(l, l', s);
    }
    forall u | u in l'.txs
      ensures TxOk(l', u)
    {
      assert TxOk(l, u);
      assert LegsOf(l', u) == LegsOf(l, u);
    }
  }

  lemma {:induction false} VoidPublishable(l: Ledger, t: TxId, target: TxId, at: Time)
    requires Inv(l) && Timely(l, VoidTx(t, target, at)) && target in l.txs
    requires var legs := Flip(LegsOf(l, target));
             Of(legs).Ok? && MovementFault(l, t, ReversalHeader(target, at), legs) == None
    ensures Publishable(l, t, ReversalHeader(target, at), Flip(LegsOf(l, target)))
    ensures !l.txs[target].meta.FxMeta?
  {
    var legs := Flip(LegsOf(l, target));
    OfAccepts(legs);
    MovementFaultExact(l, t, ReversalHeader(target, at), legs);
    VoidableHasOneCurrency(l, target);
    FlippedBefore(l, target, at);
  }

  lemma {:induction false} VoidableHasOneCurrency(l: Ledger, target: TxId)
    requires target in l.txs && TxOk(l, target)
    ensures Of(Flip(LegsOf(l, target))).Ok? <==> !l.txs[target].meta.FxMeta?
    ensures Of(Flip(LegsOf(l, target))) ==
      if l.txs[target].meta.FxMeta? then Err(UnbalancedTransaction) else Ok(Draft(Flip(LegsOf(l, target)), None))
  {
    ReversalBuildable(Draft(LegsOf(l, target), FxOf(l.txs[target].meta)));
  }

  lemma {:induction false} FlippedBefore(l: Ledger, target: TxId, at: Time)
    requires forall i :: 0 <= i < |LegsOf(l, target)| ==> PostedBefore(l, LegsOf(l, target)[i].accountId, at)
    ensures forall i :: 0 <= i < |LegsOf(l, target)| ==> PostedBefore(l, Flip(LegsOf(l, target))[i].accountId, at)
  {
  }

  /** Publishing the flipped legs and marking the original adds one void/reversal pair. */
  lemma {:induction false} VoidKeepsReversals(l: Ledger, t: TxId, target: TxId, at: Time)
    requires Linked(l) && ReversalsOk(l)
    requires target in l.txs && l.txs[target].status == Posted && !l.txs[target].meta.FxMeta? && t !in l.txs
    requires Present(l.accounts, Flip(LegsOf(l, target)))
    ensures ReversalsOk(Mark(Publish(l, t, ReversalHeader(target, at), Flip(LegsOf(l, target))), target))
  {
    var row, legs := ReversalHeader(target, at), Flip(LegsOf(l, target));
    var l' := Mark(Publish(l, t, row, legs), target);
    hide Publish, Mark, LegsOf, ReversalsOk;
    VoidedTables(l, t, target, at);
    PairsStay(l, l', t, target);
  }

  lemma {:induction false} PairsStay(l: Ledger, l': Ledger, t: TxId, target: TxId)
    requires ReversalsOk(l) && target in l.txs && t !in l.txs
    requires l.txs[target].status == Posted && !l.txs[target].meta.FxMeta?
    requires t in l'.txs && l'.txs[t].meta == ReversalMeta(target) && l'.txs[t].status == Posted
    requires l'.txs == l.txs[t := l'.txs[t]][target := l.txs[target].(status := Voided)]
    requires LegsOf(l', t) == Flip(LegsOf(l, target))
    requires forall u :: u != t ==> TxEntries(l', u) == TxEntries(l, u)
    ensures ReversalsOk(l')
  {
    hide LegsOf, TxEntries, ReversalOk;
    forall r | r in l'.txs && l'.txs[r].meta.ReversalMeta?
      ensures ReversalOk(l', r)
    {
      OtherPairs(l, l', t, target, r);
    }
    NewReverser(l, l', t, target);
    VoidAddsReverser(l, l', t, target);
  }

  lemma {:induction false} NewReverser(l: Ledger, l': Ledger, t: TxId, target: TxId)
    requires target in l.txs && t !in l.txs && t in l'.txs && l'.txs[t].meta == ReversalMeta(target)
    requires l'.txs == l.txs[t := l'.txs[t]][target := l.txs[target].(status := Voided)]
    ensures forall r, o :: Reverses(l', r, o) <==> Reverses(l, r, o) || (r == t && o == target)
  {
  }

  lemma {:induction false} OtherPairs(l: Ledger, l': Ledger, t: TxId, target: TxId, r: TxId)
    requires ReversalsOk(l) && target in l.txs && t !in l.txs
    requires l.txs[target].status == Posted && !l.txs[target].meta.FxMeta?
    requires t in l'.txs && l'.txs[t].meta == ReversalMeta(target)
    requires l'.txs == l.txs[t := l'.txs[t]][target := l.txs[target].(status := Voided)]
    requires LegsOf(l', t) == Flip(LegsOf(l, target))
    requires forall u :: u != t ==> TxEntries(l', u) == TxEntries(l, u)
    requires r in l'.txs && l'.txs[r].meta.ReversalMeta?
    ensures ReversalOk(l', r)
  {
    hide LegsOf, TxEntries;
    if r == t {
      NewPair(l, l', t, target);
    } else {
      assert ReversalOk(l, r);
      PostedHasNoReverser(l, target);
      assert !Reverses(l, r, target);
      PairingCarries(l, l', r);
    }
  }

  lemma {:induction false} VoidedTables(l: Ledger, t: TxId, target: TxId, at: Time)
    requires Linked(l) && target in l.txs && t !in l.txs && Present(l.accounts, Flip(LegsOf(l, target)))
    ensures var l' := Mark(Publish(l, t, ReversalHeader(target, at), Flip(LegsOf(l, target))), target);
            && l'.txs == l.txs[t := ReversalHeader(target, at)][target := l.txs[target].(status := Voided)]
            && LegsOf(l', t) == Flip(LegsOf(l, target))
            && forall u :: u != t ==> TxEntries(l', u) == TxEntries(l, u)
  {
    var row, legs := ReversalHeader(target, at), Flip(LegsOf(l, target));
    PublishedTx(l, t, row, legs);
    var l1 := Publish(l, t, row, legs);
    assert forall u :: TxEntries(Mark(l1, target), u) == TxEntries(l1, u);
  }

  lemma {:induction false} NewPair(l: Ledger, l': Ledger, t: TxId, target: TxId)
    requires target in l.txs && t != target && !l.txs[target].meta.FxMeta?
    requires target in l'.txs && l'.txs[target] == l.txs[target].(status := Voided)
    requires t in l'.txs && l'.txs[t].meta == ReversalMeta(target)
    requires TxEntries(l', target) == TxEntries(l, target) && LegsOf(l', t) == Flip(LegsOf(l, target))
    ensures ReversalOk(l', t)
  {
  }

  lemma {:induction false} VoidAddsReverser(l: Ledger, l': Ledger, t: TxId, target: TxId)
    requires ReversalsOk(l) && t !in l.txs && target in l.txs && l.txs[target].status == Posted
    requires forall r, o :: Reverses(l', r, o) <==> Reverses(l, r, o) || (r == t && o == target)
    requires forall o :: o in l'.txs && l'.txs[o].status == Voided ==>
               o == target || (o in l.txs && l.txs[o].status == Voided)
    ensures forall o :: o in l'.txs && l'.txs[o].status == Voided ==> exists r :: Reverses(l', r, o)
    ensures forall r, q, o :: Reverses(l', r, o) && Reverses(l', q, o) ==> r == q
  {
    forall o | o in l'.txs && l'.txs[o].status == Voided
      ensures exists r :: Reverses(l', r, o)
    {
      if o == target {
        assert Reverses(l', t, o);
      } else {
        var r :| Reverses(l, r, o);
        assert Reverses(l', r, o);
      }
    }
    PostedHasNoReverser(l, target);
  }

  lemma {:induction false} PostedHasNoReverser(l: Ledger, target: TxId)
    requires ReversalsOk(l) && target in l.txs && l.txs[target].status == Posted
    ensures forall r :: !Reverses(l, r, target)
  {
    forall r
      ensures !Reverses(l, r, target)
    {
      if Reverses(l, r, target) {
        assert false;
      }
    }
  }

  lemma {:induction false} VoidPublished(l: Ledger, t: TxId, target: TxId, at: Time)
    requires Inv(l) && target in l.txs && l.txs[target].status == Posted && !l.txs[target].meta.FxMeta?
    requires Publishable(l, t, ReversalHeader(target, at), Flip(LegsOf(l, target)))
    ensures Inv(Mark(Publish(l, t, ReversalHeader(target, at), Flip(LegsOf(l, target))), target))
  {
    var legs, row := Flip(LegsOf(l, target)), ReversalHeader(target, at);
    PublishKeepsAll(l, t, row, legs);
    VoidKeepsReversals(l, t, target, at);
    MarkKeepsInv(Publish(l, t, row, legs), target);
  }

  lemma {:induction false} VoidSucceeds(l: Ledger, t: TxId, target: TxId, at: Time)
    requires ApplyVoid(l, t, target, at).1 == None
    ensures target in l.txs && l.txs[target].status == Posted
    ensures var legs := Flip(LegsOf(l, target));
            && Of(legs) == Ok(Draft(legs, None))
            && MovementFault(l, t, ReversalHeader(target, at), legs) == None
            && Present(l.accounts, legs)
            && ApplyVoid(l, t, target, at).0 == Mark(Publish(l, t, ReversalHeader(target, at), legs), target)
  {
    OfAccepts(Flip(LegsOf(l, target)));
  }

  lemma {:induction false} VoidKeeps(l: Ledger, t: TxId, target: TxId, at: Time)
    requires Inv(l) && Timely(l, VoidTx(t, target, at))
    ensures Inv(ApplyVoid(l, t, target, at).0)
  {
    if ApplyVoid(l, t, target, at).1 == None {
      VoidSucceeds(l, t, target, at);
      VoidPublishable(l, t, target, at);
      VoidPublished(l, t, target, at);
    }
  }

  lemma {:induction false} MarkKeepsInv(l: Ledger, target: TxId)
    requires target in l.txs && Linked(l) && AccountsOk(l) && TxsOk(l)
    requires ReferencesUnique(l) && NumbersUnique(l) && SnapshotsOk(l)
    requires ReversalsOk(Mark(l, target))
    ensures Inv(Mark(l, target))
  {
    MarkKeepsAccounts(l, target);
  }

  // ----- account rows and lifecycle events -----

  /** An update of one account's row with at most one event appended for it. */
  ghost predicate RowChange(l: Ledger, l': Ledger, a: AccountId) {
    && l'.txs == l.txs && l'.entries == l.entries && l'.snapshots == l.snapshots
    && a in l'.accounts && l'.accounts.Keys == l.accounts.Keys + {a}
    && (forall b :: b in l.accounts && b != a ==> l'.accounts[b] == l.accounts[b])
    && (a in l.accounts ==>
          && l'.accounts[a].normalSide == l.accounts[a].normalSide
          && l'.accounts[a].currency == l.accounts[a].currency
          && l'.accounts[a].currentSequence == l.accounts[a].currentSequence)
    && (l'.events == l.events || exists v :: l'.events == l.events + [v] && v.accountId == a)
  }

  lemma {:induction false} RowChangeEvents(l: Ledger, l': Ledger, a: AccountId, b: AccountId)
    requires RowChange(l, l', a) && b != a
    ensures EventStream(l', b) == EventStream(l, b)
  {
    if l'.events != l.events {
      var v :| l'.events == l.events + [v] && v.accountId == a;
      WhereSnoc(l.events, v, EventOf(b));
    }
  }

  lemma {:induction false} RowChangeKeepsOther(l: Ledger, l': Ledger, a: AccountId, b: AccountId)
    requires RowChange(l, l', a) && b in l.accounts && b != a && AccountOk(l, b)
    ensures AccountOk(l', b)
  {
    RowChangeEvents(l, l', a, b);
    QuietKeepsAccount(l, l', b);
  }

  lemma {:induction false} RowChangeKeepsNumbers(l: Ledger, l': Ledger, a: AccountId)
    requires NumbersUnique(l) && l'.accounts.Keys == l.accounts.Keys + {a} && a in l'.accounts
    requires forall b :: b in l.accounts && b != a ==>
               l'.accounts[b] == l.accounts[b] && l.accounts[b].number != l'.accounts[a].number
    ensures NumbersUnique(l')
  {
  }

  lemma {:induction false} RowChangeKeepsInv(l: Ledger, l': Ledger, a: AccountId)
    requires Inv(l) && RowChange(l, l', a) && AccountOk(l', a)
    requires forall b :: b in l.accounts && b != a ==> l.accounts[b].number != l'.accounts[a].number
    ensures Inv(l')
  {
    forall b | b in l'.accounts
      ensures AccountOk(l', b)
    {
      if b != a {
        RowChangeKeepsOther(l, l', a, b);
      }
    }
    RowChangeKeepsTables(l, l', a);
    RowChangeKeepsNumbers(l, l', a);
  }

  lemma {:induction false} RowChangeKeepsTables(l: Ledger, l': Ledger, a: AccountId)
    requires Linked(l) && TxsOk(l) && ReversalsOk(l) && ReferencesUnique(l) && SnapshotsOk(l) && RowChange(l, l', a)
    ensures Linked(l') && TxsOk(l') && ReversalsOk(l') && ReferencesUnique(l') && SnapshotsOk(l')
  {
    forall t | t in l'.txs
      ensures TxOk(l', t)
    {
      assert TxOk(l, t);
      assert LegsOf(l', t) == LegsOf(l, t);
    }
    forall s | s in l'.snapshots
      ensures SnapshotOk(l', s)
    {
      assert SnapshotOk(l, s);
      LongerStreamKeepsSnapshot(l, l', s);
    }
    SameTxsKeepReversals(l, l');
  }

  lemma {:induction false} SameTxsKeepReversals(l: Ledger, l': Ledger)
    requires ReversalsOk(l) && l'.txs == l.txs && l'.entries == l.entries
    ensures ReversalsOk(l')
  {
    forall r | r in l'.txs && l'.txs[r].meta.ReversalMeta?
      ensures ReversalOk(l', r)
    {
      assert ReversalOk(l, r);
      PairingCarries(l, l', r);
    }
    SameReversers(l, l');
  }

  lemma {:induction false} NextEventNumber(l: Ledger, a: AccountId)
    requires AccountsOk(l) && a in l.accounts
    ensures MaxEventSeq(EventStream(l, a)) == |EventStream(l, a)|
  {
    assert AccountOk(l, a);
    MaxSeqOfContiguous(EventStream(l, a));
  }

  /** One row update with one appended event, the shape shared by every lifecycle change. */
  function Amend(l: Ledger, a: AccountId, row: Account, v: Event): Ledger {
    l.(accounts := l.accounts[a := row], events := l.events + [v])
  }

  lemma {:induction false} AmendedRead(l: Ledger, a: AccountId, row: Account, v: Event)
    requires v.accountId == a
    ensures Stream(Amend(l, a, row, v), a) == Stream(l, a)
    ensures EventStream(Amend(l, a, row, v), a) == EventStream(l, a) + [v]
    ensures SameTimes(l, Amend(l, a, row, v), a)
  {
    WhereSnoc(l.events, v, EventOf(a));
  }

  lemma {:induction false} AmendKeepsInv(l: Ledger, a: AccountId, row: Account, v: Event)
    requires Inv(l) && a in l.accounts && v.accountId == a
    requires row.normalSide == l.accounts[a].normalSide && row.currency == l.accounts[a].currency
    requires row.currentSequence == l.accounts[a].currentSequence && row.number == l.accounts[a].number
    requires RowProjects(row, EventStream(l, a) + [v])
    requires row.status == Closed ==> Balance(l, a) == 0
    ensures Inv(Amend(l, a, row, v))
  {
    hide RowProjects, StreamOk, TimesOk, Balance, EventStream, TxsOk, ReversalsOk, SnapshotsOk, ReferencesUnique,
      Linked;
    var l' := Amend(l, a, row, v);
    AmendedAccount(l, a, row, v);
    assert l'.events == l.events + [v];
    RowChangeKeepsInv(l, l', a);
  }

  lemma {:induction false} AmendedAccount(l: Ledger, a: AccountId, row: Account, v: Event)
    requires a in l.accounts && v.accountId == a && AccountOk(l, a)
    requires row.normalSide == l.accounts[a].normalSide && row.currency == l.accounts[a].currency
    requires row.currentSequence == l.accounts[a].currentSequence
    requires RowProjects(row, EventStream(l, a) + [v])
    requires row.status == Closed ==> Balance(l, a) == 0
    ensures AccountOk(Amend(l, a, row, v), a)
  {
    AmendedRead(l, a, row, v);
  }

  lemma {:induction false} StatusKeeps(l: Ledger, a: AccountId, to: Status)
    requires Inv(l)
    ensures Inv(ApplyStatus(l, a, to).0)
  {
    var l' := ApplyStatus(l, a, to).0;
    if l' != l {
      var current := l.accounts[a];
      var change := Transition(current.status, to);
      var v := NextEvent(l, a, StatusEvent(to), Some(change), None);
      NextEventNumber(l, a);
      assert AccountOk(l, a);
      StatusChangeProjects(current, EventStream(l, a), to, v);
      CurrentRead(l, a);
      AmendKeepsInv(l, a, current.(status := to, history := current.history + [change]), v);
    }
  }

  lemma {:induction false} LimitKeeps(l: Ledger, a: AccountId, limit: string)
    requires Inv(l)
    ensures Inv(ApplyLimit(l, a, limit).0)
  {
    if ApplyLimit(l, a, limit).1 == None {
      var units := FromDecimalString(limit).value;
      var v := NextEvent(l, a, LimitChanged, None, Some(ToDecimalString(units)));
      NextEventNumber(l, a);
      assert AccountOk(l, a);
      FromDecimalStringExact(limit, units);
      LimitChangeProjects(l.accounts[a], EventStream(l, a), units, v);
      AmendKeepsInv(l, a, l.accounts[a].(limit := units), v);
    }
  }

  /** A row nobody refers to yet has no entries and no events. */
  lemma {:induction false} FreshAccount(l: Ledger, a: AccountId)
    requires Linked(l) && a !in l.accounts
    ensures Stream(l, a) == [] && EventStream(l, a) == []
  {
    WhereNone(l.entries, OfAccount(a));
    WhereNone(l.events, EventOf(a));
  }

  lemma {:induction false} NewAccountOk(l: Ledger, l': Ledger, a: AccountId)
    requires Linked(l) && a !in l.accounts && l'.entries == l.entries && a in l'.accounts
    requires l'.accounts[a].status == Active && l'.accounts[a].currentSequence == 0
    requires RowProjects(l'.accounts[a], EventStream(l', a))
    ensures AccountOk(l', a)
  {
    FreshAccount(l, a);
    assert Stream(l', a) == [];
  }

  lemma {:induction false} OpenKeeps(l: Ledger, a: AccountId, number: string, side: Direction, currency: Currency,
        limit: string)
    requires Inv(l)
    ensures Inv(ApplyOpen(l, a, number, side, currency, limit).0)
  {
    hide FromDecimalString, ToDecimalString, Inv, RowChange, AccountOk, HasNumber, MaxEventSeq, EventStream;
    if ApplyOpen(l, a, number, side, currency, limit).1 == None {
      LinkedOf(l);
      FirstEvent(l, a);
      NumberUnused(l.accounts, number);
      var units := FromDecimalString(limit).value;
      var row := Account(number, side, currency, units, Active, 0, []);
      var v := NextEvent(l, a, AccountOpened, None, Some(limit));
      FreshAccount(l, a);
      FromDecimalStringExact(limit, units);
      OpenedAccountOk(l, a, row, v);
      OpenedIsRowChange(l, a, row, v);
      RowChangeKeepsInv(l, Amend(l, a, row, v), a);
    }
  }

  lemma {:induction false} OpenedIsRowChange(l: Ledger, a: AccountId, row: Account, v: Event)
    requires a !in l.accounts && v.accountId == a
    ensures RowChange(l, Amend(l, a, row, v), a)
  {
    assert Amend(l, a, row, v).events == l.events + [v];
  }

  lemma {:induction false} OpenedAccountOk(l: Ledger, a: AccountId, row: Account, v: Event)
    requires Linked(l) && a !in l.accounts && v.accountId == a
    requires row.status == Active && row.history == [] && row.currentSequence == 0 && 0 <= row.limit <= MAX_UNITS
    requires v.kind == AccountOpened && v.change == None && v.seqNo == 1
    requires v.limit.Some? && FromDecimalString(v.limit.value) == Ok(row.limit)
    ensures AccountOk(Amend(l, a, row, v), a)
  {
    FreshAccount(l, a);
    AmendedRead(l, a, row, v);
    OpeningProjects(row, v);
    assert EventStream(Amend(l, a, row, v), a) == [v];
    NewAccountOk(l, Amend(l, a, row, v), a);
  }

  lemma {:induction false} VaultKeeps(l: Ledger, a: AccountId, currency: Currency)
    requires Inv(l)
    ensures Inv(ApplyVault(l, a, currency).0)
  {
    hide Inv, RowChange, AccountOk, HasNumber, EventStream, VaultNumber;
    var l' := ApplyVault(l, a, currency).0;
    if l' != l {
      LinkedOf(l);
      NumberUnused(l.accounts, VaultNumber(currency));
      VaultIsNew(l, l', a);
      NewAccountOk(l, l', a);
      RowChangeKeepsInv(l, l', a);
    }
  }

  lemma {:induction false} FirstEvent(l: Ledger, a: AccountId)
    requires Linked(l) && a !in l.accounts
    ensures MaxEventSeq(EventStream(l, a)) == 0
  {
    FreshAccount(l, a);
  }

  lemma {:induction false} NumberUnused(accounts: map<AccountId, Account>, number: string)
    requires !HasNumber(accounts, number)
    ensures forall b :: b in accounts ==> accounts[b].number != number
  {
  }

  lemma {:induction false} VaultIsNew(l: Ledger, l': Ledger, a: AccountId)
    requires Linked(l) && a !in l.accounts && a in l'.accounts && l' == l.(accounts := l.accounts[a := l'.accounts[a]])
    requires l'.accounts[a].status == Active && l'.accounts[a].limit == VAULT_LIMIT && l'.accounts[a].history == []
    ensures RowProjects(l'.accounts[a], EventStream(l', a)) && RowChange(l, l', a)
  {
    hide RowProjects;
    FreshAccount(l, a);
    assert EventStream(l', a) == [];
    VaultProjects(l'.accounts[a]);
  }

  // ----- snapshots -----

  lemma {:induction false} SnapshotKeeps(l: Ledger, a: AccountId, n: int, at: Time)
    requires Inv(l) && Timely(l, TakeSnapshot(a, n, at))
    ensures Inv(ApplySnapshot(l, a, n, at).0)
  {
    var l' := ApplySnapshot(l, a, n, at).0;
    if l' != l {
      forall b | b in l'.accounts
        ensures AccountOk(l', b)
      {
        QuietKeepsAccount(l, l', b);
      }
      forall t | t in l'.txs
        ensures TxOk(l', t)
      {
        assert TxOk(l, t);
        assert LegsOf(l', t) == LegsOf(l, t);
      }
      SameTxsKeepReversals(l, l');
      SnapshotInserted(l, a, n, at);
    }
  }

  lemma {:induction false} SnapshotInserted(l: Ledger, a: AccountId, n: nat, at: Time)
    requires AccountsOk(l) && SnapshotsOk(l) && Timely(l, TakeSnapshot(a, n, at)) && 1 <= n && a in l.accounts
    ensures SnapshotsOk(ApplySnapshot(l, a, n, at).0)
  {
    var l' := ApplySnapshot(l, a, n, at).0;
    NewSnapshotOk(l, a, n, at);
    forall s | s in l'.snapshots
      ensures SnapshotOk(l', s)
    {
      assert Stream(l', s.accountId) == Stream(l, s.accountId);
      if s in l.snapshots {
        assert SnapshotOk(l, s);
      } else {
        assert s == Snapshot(a, n, BalanceUpToSeq(l, a, n, None), at);
      }
    }
  }

  lemma {:induction false} NewSnapshotOk(l: Ledger, a: AccountId, n: nat, at: Time)
    requires a in l.accounts && AccountOk(l, a) && Timely(l, TakeSnapshot(a, n, at)) && 1 <= n
    ensures SnapshotOk(l, Snapshot(a, n, BalanceUpToSeq(l, a, n, None), at))
  {
    SeqFilters(Stream(l, a), n);
    NoTimeFilter(l.txs, Stream(l, a)[..n]);
  }

  // ----- every operation, every run -----

  lemma {:induction false} ApplyKeeps(l: Ledger, op: Op)
    requires Inv(l) && Timely(l, op)
    ensures Inv(Apply(l, op).0)
  {
    match op
    case Post(id, tx, kind, reference, at) => PostKeeps(l, id, tx, kind, reference, at);
    case VoidTx(id, target, at) => VoidKeeps(l, id, target, at);
    case SetStatus(a, to) => StatusKeeps(l, a, to);
    case SetLimit(a, limit) => LimitKeeps(l, a, limit);
    case OpenAccount(a, number, side, currency, limit) => OpenKeeps(l, a, number, side, currency, limit);
    case OpenVault(a, currency) => VaultKeeps(l, a, currency);
    case TakeSnapshot(a, n, at) => SnapshotKeeps(l, a, n, at);
  }

  function Run(l: Ledger, ops: seq<Op>): Ledger {
    if ops == [] then l else Apply(Run(l, ops[..|ops| - 1]), ops[|ops| - 1]).0
  }

  ghost predicate TimelyRun(l: Ledger, ops: seq<Op>) {
    ops != [] ==>
      && TimelyRun(l, ops[..|ops| - 1])
      && Timely(Run(l, ops[..|ops| - 1]), ops[|ops| - 1])
  }

  /** Running in two stretches is running the whole. */
  lemma {:induction false} RunTogether(l: Ledger, ops: seq<Op>, more: seq<Op>)
    ensures Run(Run(l, ops), more) == Run(l, ops + more)
    ensures TimelyRun(l, ops + more) <==> TimelyRun(l, ops) && TimelyRun(Run(l, ops), more)
  {
    hide Apply, Timely;
    if more == [] {
      assert ops + more == ops;
    } else {
      var front := more[..|more| - 1];
      assert (ops + more)[..|ops + more| - 1] == ops + front;
      RunTogether(l, ops, front);
    }
  }

  lemma {:induction false} EmptyLedgerOk()
    ensures Inv(EMPTY)
  {
  }

  /** Every ledger reached from the empty one satisfies the invariant. */
  lemma {:induction false} RunKeeps(l: Ledger, ops: seq<Op>)
    requires Inv(l) && TimelyRun(l, ops)
    ensures Inv(Run(l, ops))
  {
    if ops != [] {
      RunKeeps(l, ops[..|ops| - 1]);
      ApplyKeeps(Run(l, ops[..|ops| - 1]), ops[|ops| - 1]);
    }
  }
}
