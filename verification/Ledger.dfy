/** Conservation laws of a queue over every run: claims against attempts, recorded reasons against the
    stored error history, attempts against errors, recorded content against read content, and the least
    time between claims. */
module Ledger {
  import opened Base
  import opened ErrorHistory
  import opened Metadata
  import opened Schedule
  import opened Queue
  import opened Leases

  /** The instants at which a run claims a row. */
  ghost function Claims(kind: Kind, s: State, es: seq<Event>, id: Uuid): seq<Time> {
    if es == [] then []
    else
      var init := es[..|es| - 1];
      var before := Exec(kind, s, init);
      Claims(kind, s, init, id) + if IsClaim(TouchOf(kind, before, es[|es| - 1], id)) then [before.now] else []
  }

  function ReasonsOf(kind: Kind, t: Touch): seq<Text> {
    match t
    case Quarantined(_, reason) => [reason]
    case Failure(_, Some(reason)) => [reason]
    case TimedOut(_) => [TimeoutReason(kind)]
    case _ => []
  }

  /** The reasons with which a run ends leases of a row, in order. */
  ghost function Reasons(kind: Kind, s: State, es: seq<Event>, id: Uuid): seq<Text> {
    if es == [] then []
    else
      var init := es[..|es| - 1];
      Reasons(kind, s, init, id) + ReasonsOf(kind, TouchOf(kind, Exec(kind, s, init), es[|es| - 1], id))
  }

  lemma RowsAppearOnlyByRecord(kind: Kind, s: State, e: Event, id: Uuid)
    requires Inv(s) && id !in s.rows && id in Next(kind, s, e).rows
    ensures e.Record? && e.id == id && IsRecordable(kind, id, e.row) && Next(kind, s, e).rows[id] == e.row
  {
  }

  // ---------- attempts ----------

  /** The attempt counter counts exactly the committed claims. */
  lemma {:induction false} AttemptsCountClaims(kind: Kind, s: State, es: seq<Event>, id: Uuid)
    requires Inv(s)
    ensures id in Exec(kind, s, es).rows ==>
              Exec(kind, s, es).rows[id].attempts
              == (if id in s.rows then s.rows[id].attempts else 0) + |Claims(kind, s, es, id)|
    ensures id !in Exec(kind, s, es).rows ==> Claims(kind, s, es, id) == []
  {
    if es != [] {
      var init, e := es[..|es| - 1], es[|es| - 1];
      var before := Exec(kind, s, init);
      AttemptsCountClaims(kind, s, init, id);
      RunKeepsInv(kind, s, init);
      EventCountsClaim(kind, before, e, id);
    }
  }

  lemma EventCountsClaim(kind: Kind, s: State, e: Event, id: Uuid)
    requires Inv(s)
    ensures var after := Next(kind, s, e).rows;
            if id in s.rows then id in after && after[id].attempts == s.rows[id].attempts + if IsClaim(TouchOf(kind, s, e, id)) then 1 else 0
            else !IsClaim(TouchOf(kind, s, e, id)) && (id in after ==> after[id].attempts == 0)
  {
    if id in s.rows {
      TouchEffect(kind, s, e, id);
    } else if id in Next(kind, s, e).rows {
      RowsAppearOnlyByRecord(kind, s, e, id);
    }
  }

  // ---------- error history ----------

  lemma TouchExtendsHistory(kind: Kind, row: Row, t: Touch, max: I32, now: Time, after: Row)
    requires Touched(kind, row, t, max, now, after) && Keeps(row.extra)
    ensures Keeps(after.extra) && Errors(after.extra) == Errors(row.extra) + Strings(ReasonsOf(kind, t))
  {
    match t
    case Quarantined(_, reason) => RepeatedFailures(row.extra, [reason]); OneReason(row.extra, reason);
    case Failure(_, Some(reason)) => RepeatedFailures(row.extra, [reason]); OneReason(row.extra, reason);
    case TimedOut(_) => SweepKeepsDecodable(row.extra, TimeoutReason(kind));
    case _ =>
  }

  lemma OneReason(column: Option<Json>, reason: Text)
    ensures FailureColumns(column, [reason]) == FailureColumn(column, Some(reason))
  {
    assert [reason][..0] == [];
  }

  predicate KeepsAt(rows: Rows, id: Uuid) {
    id in rows ==> Keeps(rows[id].extra)
  }

  function HistoryAt(rows: Rows, id: Uuid): seq<Json> {
    if id in rows then Errors(rows[id].extra) else []
  }

  lemma EventExtendsHistory(kind: Kind, s: State, e: Event, id: Uuid)
    requires Inv(s) && KeepsAt(s.rows, id)
    ensures KeepsAt(Next(kind, s, e).rows, id)
    ensures HistoryAt(Next(kind, s, e).rows, id) == HistoryAt(s.rows, id) + Strings(ReasonsOf(kind, TouchOf(kind, s, e, id)))
  {
    if id in s.rows {
      TouchEffect(kind, s, e, id);
      TouchExtendsHistory(kind, s.rows[id], TouchOf(kind, s, e, id), MaxOf(e), s.now, Next(kind, s, e).rows[id]);
    } else if id in Next(kind, s, e).rows {
      RowsAppearOnlyByRecord(kind, s, e, id);
    }
  }

  lemma StringsAppend(a: seq<Text>, b: seq<Text>)
    ensures Strings(a + b) == Strings(a) + Strings(b)
  {
  }

  /** A row's stored history is its initial history followed by every reason with which a lease of it
      ended, each exactly once and in commit order. */
  lemma {:induction false} HistoryIsReasons(kind: Kind, s: State, es: seq<Event>, id: Uuid)
    requires Inv(s) && KeepsAt(s.rows, id)
    ensures KeepsAt(Exec(kind, s, es).rows, id)
    ensures HistoryAt(Exec(kind, s, es).rows, id) == HistoryAt(s.rows, id) + Strings(Reasons(kind, s, es, id))
  {
    if es != [] {
      var init, e := es[..|es| - 1], es[|es| - 1];
      var before := Exec(kind, s, init);
      HistoryIsReasons(kind, s, init, id);
      RunKeepsInv(kind, s, init);
      EventExtendsHistory(kind, before, e, id);
      StringsAppend(Reasons(kind, s, init, id), ReasonsOf(kind, TouchOf(kind, before, e, id)));
    }
  }

  /** One stored error per finished attempt: all attempts but the running or the successful one. */
  predicate Balanced(row: Row) {
    |Errors(row.extra)| == row.attempts - if row.status.Reserved? || row.status.Completed? then 1 else 0
  }

  predicate BalancedAt(rows: Rows, id: Uuid) {
    id in rows ==> Keeps(rows[id].extra) && Balanced(rows[id])
  }

  /** The consumers give a reason with every failure. */
  predicate GivesReasons(es: seq<Event>) {
    forall i | 0 <= i < |es| :: es[i].Fail? ==> es[i].reason.Some?
  }

  /** In every state that consumers, sweepers and recorders reach, the stored errors number one less than
      the attempts while a row is Reserved or Completed, and equal the attempts otherwise. */
  lemma {:induction false} ErrorsBalanceAttempts(kind: Kind, s: State, es: seq<Event>, id: Uuid)
    requires Inv(s) && BalancedAt(s.rows, id) && GivesReasons(es)
    ensures BalancedAt(Exec(kind, s, es).rows, id)
  {
    if es != [] {
      var init, e := es[..|es| - 1], es[|es| - 1];
      var before := Exec(kind, s, init);
      ErrorsBalanceAttempts(kind, s, init, id);
      RunKeepsInv(kind, s, init);
      EventKeepsBalance(kind, before, e, id);
    }
  }

  lemma TouchKeepsBalance(kind: Kind, row: Row, t: Touch, max: I32, now: Time, after: Row)
    requires Touched(kind, row, t, max, now, after) && Keeps(row.extra) && Balanced(row) && (t.Failure? ==> t.cause.Some?)
    ensures Keeps(after.extra) && Balanced(after)
  {
    TouchExtendsHistory(kind, row, t, max, now, after);
  }

  lemma EventKeepsBalance(kind: Kind, s: State, e: Event, id: Uuid)
    requires Inv(s) && BalancedAt(s.rows, id) && (e.Fail? ==> e.reason.Some?)
    ensures BalancedAt(Next(kind, s, e).rows, id)
  {
    if id in s.rows {
      TouchEffect(kind, s, e, id);
      hide Touched, Next, Inv;
      TouchKeepsBalance(kind, s.rows[id], TouchOf(kind, s, e, id), MaxOf(e), s.now, Next(kind, s, e).rows[id]);
    } else if id in Next(kind, s, e).rows {
      RowsAppearOnlyByRecord(kind, s, e, id);
    }
  }

  // ---------- content ----------

  predicate SameContent(a: Row, b: Row) {
    a.payload == b.payload && a.route == b.route && a.meta == b.meta && a.receivedAt == b.receivedAt
  }

  predicate Healthy(kind: Kind, row: Row) {
    Keeps(row.extra) && row.meta.Some? && Decode(kind, row.meta.value).Ok?
  }

  predicate HealthyAt(kind: Kind, rows: Rows, id: Uuid) {
    id in rows ==> Healthy(kind, rows[id])
  }

  /** Nothing a queue does changes what was recorded. */
  lemma {:induction false} ContentIsImmutable(kind: Kind, s: State, es: seq<Event>, id: Uuid)
    requires Inv(s) && id in s.rows
    ensures id in Exec(kind, s, es).rows && SameContent(Exec(kind, s, es).rows[id], s.rows[id])
  {
    if es != [] {
      ContentIsImmutable(kind, s, es[..|es| - 1], id);
      RunKeepsInv(kind, s, es[..|es| - 1]);
      TouchEffect(kind, Exec(kind, s, es[..|es| - 1]), es[|es| - 1], id);
    }
  }

  /** The row that a run records first under an id. */
  function FirstRecord(kind: Kind, es: seq<Event>, id: Uuid): Option<Row> {
    if es == [] then None
    else
      var earlier := FirstRecord(kind, es[..|es| - 1], id);
      var last := es[|es| - 1];
      if earlier.Some? then earlier
      else if last.Record? && last.id == id && IsRecordable(kind, id, last.row) then Some(last.row) else None
  }

  /** However often rows are recorded under one id, by whomever, the first one's content stands. */
  lemma {:induction false} FirstRecordWins(kind: Kind, s: State, es: seq<Event>, id: Uuid)
    requires Inv(s) && id !in s.rows
    ensures match FirstRecord(kind, es, id)
            case None => id !in Exec(kind, s, es).rows
            case Some(row) => id in Exec(kind, s, es).rows && SameContent(Exec(kind, s, es).rows[id], row)
  {
    if es != [] {
      var init, e := es[..|es| - 1], es[|es| - 1];
      FirstRecordWins(kind, s, init, id);
      RunKeepsInv(kind, s, init);
      RecordedFirst(kind, Exec(kind, s, init), e, id);
    }
  }

  lemma RecordedFirst(kind: Kind, s: State, e: Event, id: Uuid)
    requires Inv(s)
    ensures id in s.rows ==> id in Next(kind, s, e).rows && SameContent(Next(kind, s, e).rows[id], s.rows[id])
    ensures id !in s.rows ==> if e.Record? && e.id == id && IsRecordable(kind, id, e.row)
                              then id in Next(kind, s, e).rows && Next(kind, s, e).rows[id] == e.row
                              else id !in Next(kind, s, e).rows
  {
    if id in s.rows {
      TouchEffect(kind, s, e, id);
    }
  }

  lemma EventKeepsHealthy(kind: Kind, s: State, e: Event, id: Uuid)
    requires Inv(s) && HealthyAt(kind, s.rows, id)
    ensures HealthyAt(kind, Next(kind, s, e).rows, id)
    ensures !TouchOf(kind, s, e, id).Quarantined?
  {
    if id in s.rows {
      TouchEffect(kind, s, e, id);
      TouchExtendsHistory(kind, s.rows[id], TouchOf(kind, s, e, id), MaxOf(e), s.now, Next(kind, s, e).rows[id]);
    } else if id in Next(kind, s, e).rows {
      RowsAppearOnlyByRecord(kind, s, e, id);
    }
  }

  /** A row that `record` accepted is healthy in every later state, so no reservation ever quarantines it. */
  lemma {:induction false} RecordedRowsAreNeverQuarantined(kind: Kind, s: State, es: seq<Event>, e: Event, id: Uuid)
    requires Inv(s) && HealthyAt(kind, s.rows, id)
    ensures HealthyAt(kind, Exec(kind, s, es).rows, id)
    ensures !TouchOf(kind, Exec(kind, s, es), e, id).Quarantined?
  {
    if es != [] {
      RecordedRowsAreNeverQuarantined(kind, s, es[..|es| - 1], es[|es| - 1], id);
      RunKeepsInv(kind, s, es[..|es| - 1]);
      EventKeepsHealthy(kind, Exec(kind, s, es[..|es| - 1]), es[|es| - 1], id);
    }
    RunKeepsInv(kind, s, es);
    EventKeepsHealthy(kind, Exec(kind, s, es), e, id);
  }

  // ---------- time between claims ----------

  predicate UsesMax(e: Event, max: I32) {
    e.Reserve? || e.Fail? || e.Sweep? ==> e.max == max
  }

  predicate Uses(es: seq<Event>, max: I32) {
    forall i | 0 <= i < |es| :: UsesMax(es[i], max)
  }

  predicate Gaps(kind: Kind, claims: seq<Time>) {
    forall n | 1 <= n < |claims| :: claims[n] >= claims[n - 1] + FailureDelay(kind, n)
  }

  /** A failed row still below `cap` attempts waits out its delay. Only the outbox needs the cap: it keeps the
      old schedule of a row that had used up its limit. */
  predicate Paced(kind: Kind, cap: I32, row: Row, claims: seq<Time>, now: Time) {
    && row.attempts == |claims|
    && Gaps(kind, claims)
    && (row.status.Received? ==> claims == [])
    && (claims != [] ==>
          var last := claims[|claims| - 1];
          && last <= now
          && (row.status.Reserved? ==> row.reservedAt == Some(last))
          && (row.status.Failed? && (kind.Outbox? ==> row.attempts < cap) ==>
                row.scheduledAt >= last + FailureDelay(kind, |claims|)))
  }

  lemma TouchKeepsPace(kind: Kind, cap: I32, later: I32, row: Row, claims: seq<Time>, t: Touch, m: I32, now: Time, after: Row)
    requires RowOk(row, now) && Paced(kind, cap, row, claims, now) && Touched(kind, row, t, m, now, after)
    requires kind.Outbox? ==> later <= cap && (IsClaim(t) ==> m <= cap) && (t.Quarantined? || t.Failure? || t.TimedOut? ==> later <= m)
    ensures Paced(kind, later, after, claims + if IsClaim(t) then [now] else [], now)
  {
    if IsClaim(t) && claims != [] {
      assert now >= row.scheduledAt >= claims[|claims| - 1] + FailureDelay(kind, |claims|);
    }
  }

  predicate UnclaimedAt(rows: Rows, id: Uuid) {
    id in rows ==> rows[id].attempts == 0
  }

  /** Transactions that can end a lease without success: for a healthy row, failures and sweeps; a reservation
      can quarantine one that is not. */
  predicate Ends(e: Event, healthy: bool) {
    e.Fail? || e.Sweep? || (e.Reserve? && !healthy)
  }

  /** No reservation allows more attempts than a transaction before it that could end a lease. */
  predicate NeverRaised(es: seq<Event>, healthy: bool) {
    forall i, j | 0 <= i < j < |es| && Ends(es[i], healthy) && es[j].Reserve? :: es[j].max <= MaxOf(es[i])
  }

  predicate AllAbove(es: seq<Event>, healthy: bool, cap: I32) {
    forall i | 0 <= i < |es| && Ends(es[i], healthy) :: cap <= MaxOf(es[i])
  }

  lemma EventKeepsPace(kind: Kind, s: State, e: Event, id: Uuid, cap: I32, later: I32, claims: seq<Time>)
    requires Inv(s) && id in s.rows && Paced(kind, cap, s.rows[id], claims, s.now)
    requires kind.Outbox? ==> later <= cap && (e.Reserve? ==> e.max <= cap) && (Ends(e, HealthyAt(kind, s.rows, id)) ==> later <= MaxOf(e))
    ensures id in Next(kind, s, e).rows
    ensures Paced(kind, later, Next(kind, s, e).rows[id], claims + if IsClaim(TouchOf(kind, s, e, id)) then [s.now] else [], Next(kind, s, e).now)
  {
    NextKeepsInv(kind, s, e);
    TouchEffect(kind, s, e, id);
    assert RowOk(s.rows[id], s.now);
    if HealthyAt(kind, s.rows, id) {
      EventKeepsHealthy(kind, s, e, id);
    }
    TouchKeepsPace(kind, cap, later, s.rows[id], claims, TouchOf(kind, s, e, id), MaxOf(e), s.now, Next(kind, s, e).rows[id]);
  }

  lemma {:induction false} RunKeepsPace(kind: Kind, s: State, es: seq<Event>, id: Uuid, cap: I32)
    requires Inv(s) && UnclaimedAt(s.rows, id)
    requires var healthy := HealthyAt(kind, s.rows, id);
             kind.Outbox? ==> NeverRaised(es, healthy) && AllAbove(es, healthy, cap)
    ensures var after := Exec(kind, s, es);
            if id in after.rows then Paced(kind, cap, after.rows[id], Claims(kind, s, es, id), after.now)
            else Claims(kind, s, es, id) == []
  {
    if es != [] {
      var init, e := es[..|es| - 1], es[|es| - 1];
      var before := Exec(kind, s, init);
      var earlier := if e.Reserve? && e.max > cap then e.max else cap;
      RunKeepsPace(kind, s, init, id, earlier);
      RunKeepsInv(kind, s, init);
      hide Next, Exec, TouchOf, Inv, Paced, HealthyAt;
      if HealthyAt(kind, s.rows, id) {
        RecordedRowsAreNeverQuarantined(kind, s, init, e, id);
      }
      if id in before.rows {
        EventKeepsPace(kind, before, e, id, earlier, cap, Claims(kind, s, init, id));
      } else {
        NewRowIsPaced(kind, before, e, id, cap);
      }
    }
  }

  lemma NewRowIsPaced(kind: Kind, s: State, e: Event, id: Uuid, cap: I32)
    requires Inv(s) && id !in s.rows
    ensures !IsClaim(TouchOf(kind, s, e, id))
    ensures id in Next(kind, s, e).rows ==> Paced(kind, cap, Next(kind, s, e).rows[id], [], Next(kind, s, e).now)
  {
    if id in Next(kind, s, e).rows {
      RowsAppearOnlyByRecord(kind, s, e, id);
    }
  }

  /** However its attempts end, a row's n-th claim comes at least the summed backoff after its first. The
      outbox keeps the old schedule of exhausted rows; there it is enough that no reservation allows more attempts
      than a failure or sweep before it did (or a reservation, for a row that one might quarantine). */
  lemma RetryTimeLowerBound(kind: Kind, s: State, es: seq<Event>, id: Uuid, n: nat)
    requires Inv(s) && UnclaimedAt(s.rows, id) && (kind.Outbox? ==> NeverRaised(es, HealthyAt(kind, s.rows, id)))
    requires 1 <= n <= |Claims(kind, s, es, id)|
    ensures Claims(kind, s, es, id)[n - 1] >= Claims(kind, s, es, id)[0] + TotalDelay(kind, n - 1)
  {
    RunKeepsPace(kind, s, es, id, -0x8000_0000);
    SumOfGaps(kind, Claims(kind, s, es, id), n);
  }

  /** Why: until its backoff has passed, an outbox row whose lease ended by failure or sweep may be claimed
      again exactly when it had used up the limit it ended under and the reservation allows more. */
  lemma RaisedLimitSkipsBackoff(row: Row, max: I32, higher: I32, now: Time, later: Time, reason: Option<Text>)
    requires row.status.Reserved? && row.attempts >= 1 && row.scheduledAt <= now <= later < now + FailureDelay(Outbox, row.attempts)
    ensures Eligible(FailRow(Outbox, row, max, now, reason), later, higher) <==> max <= row.attempts < higher
    ensures Eligible(SweepRow(Outbox, row, max, now), later, higher) <==> max <= row.attempts < higher
  {
  }

  lemma ClaimsAppend(kind: Kind, s: State, es: seq<Event>, e: Event, id: Uuid)
    ensures Claims(kind, s, es + [e], id)
            == Claims(kind, s, es, id) + if IsClaim(TouchOf(kind, Exec(kind, s, es), e, id)) then [Exec(kind, s, es).now] else []
    ensures Exec(kind, s, es + [e]) == Next(kind, Exec(kind, s, es), e)
  {
    assert (es + [e])[..|es|] == es;
  }

  /** Reserving from a table of one due row. */
  lemma ReserveOnly(kind: Kind, s: State, id: Uuid, row: Row, token: Uuid, max: I32)
    requires s.rows == map[id := row] && token !in s.issued && Eligible(row, s.now, max) && Healthy(kind, row)
    ensures var e := Event.Reserve(token, max, 1, {}, {id});
            && TouchOf(kind, s, e, id) == Claimed(token)
            && Next(kind, s, e) == State(map[id := ClaimRow(row, token, s.now)], s.now, s.issued + {token})
  {
    var e := Event.Reserve(token, max, 1, {}, {id});
    assert EligibleIds(s.rows, s.now, max, {}) == {id};
    assert Next(kind, s, e).rows == map[id := ClaimRow(row, token, s.now)];
  }

  /** A table of one unleased outbox row at the end of its k-th claim under one limit, every wait kept as short
      as the schedule allows. */
  predicate Retried(s: State, id: Uuid, max: I32, k: nat, claims: seq<Time>) {
    && s.rows.Keys == {id}
    && var row := s.rows[id];
       && row.status.Failed? && row.attempts == k && Healthy(Outbox, row) && RowOk(row, s.now)
       && row.scheduledAt <= s.now + (if k < max then FailureDelay(Outbox, k) else 0)
       && (forall token | token in s.issued :: token < k)
       && |claims| == k > 0 && claims[0] == 0 && claims[k - 1] == s.now == TotalDelay(Outbox, k - 1)
  }

  predicate AllUnder(es: seq<Event>, max: I32) {
    forall i | 0 <= i < |es| :: UsesMax(es[i], max)
  }

  /** One more claim and failure of the only row, after the given wait. */
  function RetryEvents(id: Uuid, token: Uuid, max: I32, wait: nat): seq<Event> {
    [Tick(wait), Event.Reserve(token, max, 1, {}, {id}), Fail(id, token, max, Some(Lit("down")))]
  }

  lemma RetryOnce(s: State, id: Uuid, row: Row, token: Uuid, max: I32, wait: nat)
    requires s.rows == map[id := row] && token !in s.issued && Eligible(row, s.now + wait, max) && Healthy(Outbox, row) && row.attempts >= 0
    ensures var now := s.now + wait;
            var failed := FailRow(Outbox, ClaimRow(row, token, now), max, now, Some(Lit("down")));
            && Exec(Outbox, s, RetryEvents(id, token, max, wait)) == State(map[id := failed], now, s.issued + {token})
            && Claims(Outbox, s, RetryEvents(id, token, max, wait), id) == [now]
  {
    var es := RetryEvents(id, token, max, wait);
    var later := Next(Outbox, s, es[0]);
    var claimed := ClaimRow(row, token, later.now);
    assert claimed.status.Reserved? && claimed.token == Some(token);
    assert later == State(map[id := row], s.now + wait, s.issued) && TouchOf(Outbox, s, es[0], id) == Untouched;
    hide Next, TouchOf, Exec, FailRow, ClaimRow, Claims, Healthy, Eligible;
    ReserveOnly(Outbox, later, id, row, token, max);
    FailOnly(Outbox, State(map[id := claimed], later.now, s.issued + {token}), id, claimed, token, max, Lit("down"));
    ThreeEvents(Outbox, s, es[0], es[1], es[2], id);
  }

  lemma ThreeEvents(kind: Kind, s: State, a: Event, b: Event, c: Event, id: Uuid)
    ensures var t := Next(kind, s, a);
            var u := Next(kind, t, b);
            && Exec(kind, s, [a, b, c]) == Next(kind, u, c)
            && Claims(kind, s, [a, b, c], id)
               == (if IsClaim(TouchOf(kind, s, a, id)) then [s.now] else [])
                  + (if IsClaim(TouchOf(kind, t, b, id)) then [t.now] else [])
                  + (if IsClaim(TouchOf(kind, u, c, id)) then [u.now] else [])
  {
    hide Next, TouchOf;
    ExecNothing(kind, s);
    assert Claims(kind, s, [], id) == [];
    ClaimsAppend(kind, s, [], a, id);
    ClaimsAppend(kind, s, [a], b, id);
    ClaimsAppend(kind, s, [a, b], c, id);
    assert [] + [a] == [a] && [a] + [b] == [a, b] && [a, b] + [c] == [a, b, c];
  }

  lemma {:induction false} ClaimsConcat(kind: Kind, s: State, es: seq<Event>, more: seq<Event>, id: Uuid)
    ensures Claims(kind, s, es + more, id) == Claims(kind, s, es, id) + Claims(kind, Exec(kind, s, es), more, id)
  {
    hide Next, TouchOf;
    if more == [] {
      assert es + more == es;
    } else {
      var init, e := more[..|more| - 1], more[|more| - 1];
      assert (es + more)[..|es + more| - 1] == es + init;
      ClaimsConcat(kind, s, es, init, id);
      ExecAppend(kind, s, es, init);
    }
  }

  /** What a retry leaves of a row: schedule, attempts and history in order for the next one. */
  lemma RetryKeepsShape(row: Row, token: Uuid, max: I32, now: Time)
    requires Healthy(Outbox, row) && 0 <= row.attempts < max && row.scheduledAt <= now
    ensures var failed := FailRow(Outbox, ClaimRow(row, token, now), max, now, Some(Lit("down")));
            && failed.status.Failed? && failed.attempts == row.attempts + 1 && Healthy(Outbox, failed) && RowOk(failed, now)
            && failed.scheduledAt <= now + if row.attempts + 1 < max then FailureDelay(Outbox, row.attempts + 1) else 0
  {
    OneFailure(row.extra, Lit("down"));
  }

  lemma FirstTry(id: Uuid, row: Row, max: I32)
    requires IsRecordable(Outbox, id, row) && row.scheduledAt <= 0 && 1 <= max
    ensures var s := State(map[id := row], 0, {});
            var es := RetryEvents(id, 0, max, 0);
            Retried(Exec(Outbox, s, es), id, max, 1, Claims(Outbox, s, es, id))
  {
    var s := State(map[id := row], 0, {});
    RecordedMayStart(id, row);
    hide Next, Exec, Claims, FailRow, ClaimRow, Healthy, IsRecordable;
    RetryOnce(s, id, row, 0, max, 0);
    RetryKeepsShape(row, 0, max, 0);
  }

  lemma TryAgain(s: State, id: Uuid, max: I32, k: nat, claims: seq<Time>)
    requires Retried(s, id, max, k, claims) && k < max
    ensures var es := RetryEvents(id, k, max, FailureDelay(Outbox, k));
            Retried(Exec(Outbox, s, es), id, max, k + 1, claims + Claims(Outbox, s, es, id))
  {
    var row, now := s.rows[id], s.now + FailureDelay(Outbox, k);
    assert s.rows == map[id := row];
    assert TotalDelay(Outbox, k) == TotalDelay(Outbox, k - 1) + FailureDelay(Outbox, k);
    hide Next, Exec, Claims, FailRow, ClaimRow, Healthy, TotalDelay, FailureDelay;
    RetryOnce(s, id, row, k, max, FailureDelay(Outbox, k));
    RetryKeepsShape(row, k, max, now);
  }

  /** A recorded row can be brought to any number of attempts under the limit as fast as the schedule allows. */
  lemma {:induction false} CanRetry(id: Uuid, row: Row, max: I32, k: nat) returns (es: seq<Event>)
    requires IsRecordable(Outbox, id, row) && row.scheduledAt <= 0 && 1 <= k <= max
    ensures AllUnder(es, max)
    ensures Retried(Exec(Outbox, State(map[id := row], 0, {}), es), id, max, k, Claims(Outbox, State(map[id := row], 0, {}), es, id))
  {
    hide Exec, Claims, IsRecordable, Retried, FailureDelay;
    if k == 1 {
      es := RetryEvents(id, 0, max, 0);
      FirstTry(id, row, max);
    } else {
      var s := State(map[id := row], 0, {});
      var init := CanRetry(id, row, max, k - 1);
      var wait := FailureDelayIsNatural(k - 1);
      var last := RetryEvents(id, k - 1, max, wait);
      es := init + last;
      TryAgain(Exec(Outbox, s, init), id, max, k - 1, Claims(Outbox, s, init, id));
      ExecAppend(Outbox, s, init, last);
      ClaimsConcat(Outbox, s, init, last, id);
    }
  }

  lemma FailureDelayIsNatural(attempts: int) returns (delay: nat)
    ensures delay == FailureDelay(Outbox, attempts)
  {
    delay := FailureDelay(Outbox, attempts);
  }

  /** For any due outbox row just recorded and any two limits: a run that raises the one to the other, in which
      the row's last claim comes earlier than the bound allows. */
  lemma RaisedLimitBreaksBound(id: Uuid, row: Row, max: I32, higher: I32) returns (s: State, es: seq<Event>)
    requires IsRecordable(Outbox, id, row) && row.scheduledAt <= 0 && 1 <= max < higher
    ensures Inv(s) && s.rows == map[id := row] && UnclaimedAt(s.rows, id)
    ensures es != [] && AllUnder(es[..|es| - 1], max) && UsesMax(es[|es| - 1], higher)
    ensures var claims := Claims(Outbox, s, es, id);
            |claims| == max + 1 && claims[max] < claims[0] + TotalDelay(Outbox, max)
  {
    s := State(map[id := row], 0, {});
    RecordedMayStart(id, row);
    var init := CanRetry(id, row, max, max);
    var again := Event.Reserve(max, higher, 1, {}, {id});
    es := init + [again];
    assert es[..|es| - 1] == init;
    hide Exec, Claims, Retried, IsRecordable, Inv, AllUnder;
    ClaimedAgain(Exec(Outbox, s, init), id, max, higher, Claims(Outbox, s, init, id));
    ClaimsAppend(Outbox, s, init, again, id);
  }

  lemma ClaimedAgain(s: State, id: Uuid, max: I32, higher: I32, claims: seq<Time>)
    requires 1 <= max < higher && Retried(s, id, max, max, claims)
    ensures TouchOf(Outbox, s, Event.Reserve(max, higher, 1, {}, {id}), id) == Claimed(max)
    ensures |claims| == max && claims[0] == 0 && s.now < TotalDelay(Outbox, max)
  {
    assert TotalDelay(Outbox, max) == TotalDelay(Outbox, max - 1) + FailureDelay(Outbox, max);
    assert s.rows == map[id := s.rows[id]];
    ReserveOnly(Outbox, s, id, s.rows[id], max, higher);
  }

  lemma RecordedMayStart(id: Uuid, row: Row)
    requires IsRecordable(Outbox, id, row)
    ensures Inv(State(map[id := row], 0, {})) && row.attempts == 0 && row.status.Received? && Healthy(Outbox, row)
  {
  }

  lemma FailOnly(kind: Kind, s: State, id: Uuid, row: Row, token: Uuid, max: I32, reason: Text)
    requires s.rows == map[id := row] && row.status.Reserved? && row.token == Some(token)
    ensures TouchOf(kind, s, Fail(id, token, max, Some(reason)), id) == Failure(token, Some(reason))
    ensures Next(kind, s, Fail(id, token, max, Some(reason))) == s.(rows := map[id := FailRow(kind, row, max, s.now, Some(reason))])
  {
  }

  lemma {:induction false} SumOfGaps(kind: Kind, claims: seq<Time>, n: nat)
    requires Gaps(kind, claims) && 1 <= n <= |claims|
    ensures claims[n - 1] >= claims[0] + TotalDelay(kind, n - 1)
  {
    if n > 1 {
      SumOfGaps(kind, claims, n - 1);
    }
  }
}
