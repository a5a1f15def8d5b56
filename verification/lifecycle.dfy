/** The account aggregate rebuilt from its lifecycle events. */
module Lifecycle {
  import opened Prelude
  import opened Money
  import opened Ledger

  datatype HistoryItem = HistoryItem(seqNo: nat, kind: EventType, resulting: Status)

  datatype Projection = Projection(status: Status, limit: string, items: seq<HistoryItem>)

  const BLANK: Projection := Projection(Active, "0", [])

  /** Malformed or missing limits are ignored. */
  function SetLimitText(current: string, value: Option<string>): string {
    if value == None then current
    else
      match FromDecimalString(value.value)
      case Err(_) => current
      case Ok(units) => ToDecimalString(units)
  }

  function StatusAfter(kind: EventType, status: Status): Status {
    match kind
    case AccountOpened => Active
    case AccountReactivated => Active
    case AccountFroze => Frozen
    case AccountClosure => Closed
    case LimitChanged => status
  }

  function Fold(events: seq<Event>): Projection {
    if events == [] then BLANK
    else
      var p, v := Fold(events[..|events| - 1]), events[|events| - 1];
      var status := StatusAfter(v.kind, p.status);
      Projection(
        status,
        if v.kind == AccountOpened || v.kind == LimitChanged then SetLimitText(p.limit, v.limit) else p.limit,
        if v.kind == LimitChanged then p.items else p.items + [HistoryItem(v.seqNo, v.kind, status)])
  }

  method FoldEvents(events: seq<Event>) returns (p: Projection)
    ensures p == Fold(events)
  {
    var status, limit, items := Active, "0", [];
    for i := 0 to |events|
      invariant Projection(status, limit, items) == Fold(events[..i])
    {
      var v := events[i];
      assert events[..i + 1][..i] == events[..i];
      match v.kind {
        case AccountOpened =>
          status := Active;
          limit := SetLimitText(limit, v.limit);
          items := items + [HistoryItem(v.seqNo, v.kind, status)];
        case AccountFroze =>
          status := Frozen;
          items := items + [HistoryItem(v.seqNo, v.kind, status)];
        case AccountReactivated =>
          status := Active;
          items := items + [HistoryItem(v.seqNo, v.kind, status)];
        case AccountClosure =>
          status := Closed;
          items := items + [HistoryItem(v.seqNo, v.kind, status)];
        case LimitChanged =>
          limit := SetLimitText(limit, v.limit);
      }
    }
    assert events[..|events|] == events;
    return Projection(status, limit, items);
  }

  /** The from/to pairs that the status events of a stream record. */
  function Changes(events: seq<Event>): seq<Transition> {
    if events == [] then []
    else
      var front, v := Changes(events[..|events| - 1]), events[|events| - 1];
      if v.change.Some? then front + [v.change.value] else front
  }

  /** Each transition leaves the state the previous one reached, none is a self-transition, none leaves closed. */
  ghost predicate Chain(history: seq<Transition>, status: Status) {
    && (forall i :: 0 <= i < |history| ==> history[i].from != history[i].to && history[i].from != Closed)
    && (forall i :: 0 < i < |history| ==> history[i].from == history[i - 1].to)
    && (if history == [] then status == Active else history[0].from == Active && history[|history| - 1].to == status)
  }

  /** A stream says something about the limit once it holds an opening or a limit change. */
  predicate SetsLimit(events: seq<Event>) {
    exists i :: 0 <= i < |events| && (events[i].kind == AccountOpened || events[i].kind == LimitChanged)
  }

  /** The row agrees with its event stream; a vault nobody re-limited keeps the limit it was inserted with. */
  ghost predicate RowProjects(account: Account, events: seq<Event>) {
    && (forall i :: 0 <= i < |events| ==> events[i].seqNo == i + 1)
    && account.history == Changes(events)
    && Chain(account.history, account.status)
    && Fold(events).status == account.status
    && 0 <= account.limit <= MAX_UNITS
    && (if SetsLimit(events) then Fold(events).limit == ToDecimalString(account.limit)
        else Fold(events).limit == "0" && account.limit == VAULT_LIMIT)
  }

  lemma {:induction false} MaxSeqOfContiguous(events: seq<Event>)
    requires forall i :: 0 <= i < |events| ==> events[i].seqNo == i + 1
    ensures MaxEventSeq(events) == |events|
  {
    if events != [] {
      MaxSeqOfContiguous(events[..|events| - 1]);
    }
  }

  lemma {:induction false} FoldSnoc(events: seq<Event>, v: Event)
    ensures Fold(events + [v]).status == StatusAfter(v.kind, Fold(events).status)
    ensures Fold(events + [v]).limit ==
      if v.kind == AccountOpened || v.kind == LimitChanged then SetLimitText(Fold(events).limit, v.limit)
      else Fold(events).limit
  {
    hide SetLimitText;
    assert (events + [v])[..|events + [v]| - 1] == events;
  }

  lemma {:induction false} ChangesSnoc(events: seq<Event>, v: Event)
    ensures Changes(events + [v]) == Changes(events) + (if v.change.Some? then [v.change.value] else [])
  {
    assert (events + [v])[..|events + [v]| - 1] == events;
  }

  lemma {:induction false} SetsLimitSnoc(events: seq<Event>, v: Event)
    ensures SetsLimit(events + [v]) <==> SetsLimit(events) || v.kind == AccountOpened || v.kind == LimitChanged
  {
    var es := events + [v];
    assert es[|events|] == v;
    if SetsLimit(events) {
      var i :| 0 <= i < |events| && (events[i].kind == AccountOpened || events[i].kind == LimitChanged);
      assert es[i] == events[i];
    }
    if SetsLimit(es) && v.kind != AccountOpened && v.kind != LimitChanged {
      var i :| 0 <= i < |es| && (es[i].kind == AccountOpened || es[i].kind == LimitChanged);
      assert events[i] == es[i];
    }
  }

  lemma {:induction false} StatusChangeProjects(account: Account, events: seq<Event>, to: Status, v: Event)
    requires RowProjects(account, events)
    requires account.status != Closed && account.status != to
    requires v.kind == StatusEvent(to) && v.change == Some(Transition(account.status, to)) && v.seqNo == |events| + 1
    ensures RowProjects(account.(status := to, history := account.history + [v.change.value]), events + [v])
  {
    hide Fold, Changes, SetsLimit, FromDecimalString, ToDecimalString;
    FoldSnoc(events, v);
    ChangesSnoc(events, v);
    SetsLimitSnoc(events, v);
  }

  lemma {:induction false} LimitChangeProjects(account: Account, events: seq<Event>, limit: int, v: Event)
    requires RowProjects(account, events)
    requires 0 <= limit <= MAX_UNITS
    requires v.kind == LimitChanged && v.change == None && v.limit == Some(ToDecimalString(limit))
      && v.seqNo == |events| + 1
    ensures RowProjects(account.(limit := limit), events + [v])
  {
    hide Fold, Changes, SetsLimit, FromDecimalString, ToDecimalString;
    FoldSnoc(events, v);
    ChangesSnoc(events, v);
    SetsLimitSnoc(events, v);
    ParsePrintRoundTrip(limit);
  }

  lemma {:induction false} OpeningProjects(account: Account, v: Event)
    requires account.status == Active && account.history == [] && 0 <= account.limit <= MAX_UNITS
    requires v.kind == AccountOpened && v.change == None && v.seqNo == 1
    requires v.limit.Some? && FromDecimalString(v.limit.value) == Ok(account.limit)
    ensures RowProjects(account, [v])
  {
    hide FromDecimalString, ToDecimalString;
    FoldSnoc([], v);
    ChangesSnoc([], v);
    SetsLimitSnoc([], v);
    assert [] + [v] == [v];
  }

  lemma {:induction false} VaultProjects(account: Account)
    requires account.status == Active && account.history == [] && account.limit == VAULT_LIMIT
    ensures RowProjects(account, [])
  {
  }

  // ----- the fold in terms of the events -----

  /** The events a status history lists. */
  function StatusEvents(events: seq<Event>): seq<Event> {
    if events == [] then []
    else
      var rest, v := StatusEvents(events[..|events| - 1]), events[|events| - 1];
      if v.kind != LimitChanged then rest + [v] else rest
  }

  /** The history lists every event but limit changes, in order, each with its number, its kind and the status it
      leads to; the account's status is the one the last of them leads to, and active before any. */
  lemma {:induction false} ItemsAre(events: seq<Event>)
    ensures |Fold(events).items| == |StatusEvents(events)|
    ensures forall j :: 0 <= j < |StatusEvents(events)| ==>
      var v, item := StatusEvents(events)[j], Fold(events).items[j];
      && item.seqNo == v.seqNo && item.kind == v.kind
      && (v.kind == AccountOpened || v.kind == AccountReactivated ==> item.resulting == Active)
      && (v.kind == AccountFroze ==> item.resulting == Frozen)
      && (v.kind == AccountClosure ==> item.resulting == Closed)
    ensures var n := |Fold(events).items|;
            Fold(events).status == if n == 0 then Active else Fold(events).items[n - 1].resulting
  {
    hide SetLimitText, StatusAfter;
    if events != [] {
      var front, v := events[..|events| - 1], events[|events| - 1];
      ItemsAre(front);
      StatusOf(v.kind, Fold(front).status);
    }
  }

  lemma {:induction false} StatusOf(kind: EventType, status: Status)
    ensures kind == AccountOpened || kind == AccountReactivated ==> StatusAfter(kind, status) == Active
    ensures kind == AccountFroze ==> StatusAfter(kind, status) == Frozen
    ensures kind == AccountClosure ==> StatusAfter(kind, status) == Closed
    ensures kind == LimitChanged ==> StatusAfter(kind, status) == status
  {
  }

  /** The limit is the canonical text of the amount the latest opening or limit change carries. */
  lemma {:induction false} LimitIsLast(events: seq<Event>, k: nat, units: int)
    requires k < |events| && (events[k].kind == AccountOpened || events[k].kind == LimitChanged)
    requires events[k].limit.Some? && FromDecimalString(events[k].limit.value) == Ok(units)
    requires forall j :: k < j < |events| ==> events[j].kind != AccountOpened && events[j].kind != LimitChanged
    ensures Fold(events).limit == ToDecimalString(units)
  {
    hide FromDecimalString, ToDecimalString;
    if k < |events| - 1 {
      var front := events[..|events| - 1];
      assert front[k] == events[k];
      LimitIsLast(front, k, units);
    }
  }
}
