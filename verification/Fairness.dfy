/** Bounded waiting: a due row cannot be passed over for ever by rows that are scheduled later or retried. */
module Fairness {
  import opened Base
  import opened Counting
  import opened Metadata
  import opened Schedule
  import opened Queue
  import opened Leases
  import opened Ledger

  /** The other claimable rows scheduled no later than a row. */
  function Ahead(rows: Rows, r: Uuid, max: I32): set<Uuid>
    requires r in rows
  {
    set id | id in rows && id != r && (rows[id].status.Received? || rows[id].status.Failed?)
             && rows[id].attempts < max && rows[id].scheduledAt <= rows[r].scheduledAt
  }

  predicate Waiting(s: State, r: Uuid, max: I32) {
    r in s.rows && Eligible(s.rows[r], s.now, max)
  }

  /** Reservations take at least `limit` rows when there are that many and find the waiting row unlocked;
      new rows are scheduled after it; every transaction uses one retry limit. */
  predicate FairEvent(e: Event, r: Uuid, due: Time, max: I32, limit: nat) {
    && UsesMax(e, max)
    && (e.Record? ==> e.row.scheduledAt > due)
    && (e.Reserve? ==> e.limit >= limit && r !in e.locked)
  }

  predicate Fair(es: seq<Event>, r: Uuid, due: Time, max: I32, limit: nat) {
    forall i | 0 <= i < |es| :: FairEvent(es[i], r, due, max, limit)
  }

  ghost predicate EndsWithReserve(kind: Kind, s: State, es: seq<Event>)
    requires es != []
  {
    es[|es| - 1].Reserve? && Commits(kind, Exec(kind, s, es[..|es| - 1]), es[|es| - 1])
  }

  /** How many reservations a run commits. */
  ghost function Reserves(kind: Kind, s: State, es: seq<Event>): nat {
    if es == [] then 0
    else Reserves(kind, s, es[..|es| - 1]) + if EndsWithReserve(kind, s, es) then 1 else 0
  }

  lemma DelaysArePositive(kind: Kind, attempts: int)
    requires attempts >= 1
    ensures FailureDelay(kind, attempts) > 0 && SweepDelay(kind, attempts) > 0
  {
  }

  /** No row joins the ones ahead of an unclaimed due row. */
  lemma NothingJoinsAhead(kind: Kind, s: State, e: Event, r: Uuid, max: I32, limit: nat)
    requires Inv(s) && Waiting(s, r, max) && FairEvent(e, r, s.rows[r].scheduledAt, max, limit)
    requires !IsClaim(TouchOf(kind, s, e, r))
    ensures var after := Next(kind, s, e);
            && Waiting(after, r, max) && after.rows[r] == s.rows[r]
            && Ahead(after.rows, r, max) <= Ahead(s.rows, r, max)
            && (e.Reserve? && Commits(kind, s, e) ==> Ahead(after.rows, r, max) !! e.picked)
  {
    var after := Next(kind, s, e);
    NextKeepsInv(kind, s, e);
    TouchEffect(kind, s, e, r);
    forall id | id in Ahead(after.rows, r, max)
      ensures id in Ahead(s.rows, r, max) && (e.Reserve? && Commits(kind, s, e) ==> id !in e.picked)
    {
      if id in s.rows {
        TouchEffect(kind, s, e, id);
        assert RowOk(s.rows[id], s.now);
        if TouchOf(kind, s, e, id) != Untouched && after.rows[id].status.Failed? {
          DelaysArePositive(kind, after.rows[id].attempts);
        }
      } else {
        RowsAppearOnlyByRecord(kind, s, e, id);
      }
    }
  }

  /** A committed reservation that passes over a due row takes `limit` of the rows ahead of it. */
  lemma PassingOverShrinksAhead(kind: Kind, s: State, e: Event, r: Uuid, max: I32, limit: nat)
    requires Inv(s) && Waiting(s, r, max) && FairEvent(e, r, s.rows[r].scheduledAt, max, limit)
    requires !IsClaim(TouchOf(kind, s, e, r)) && e.Reserve? && Commits(kind, s, e)
    ensures e.picked <= Ahead(s.rows, r, max)
    ensures r in Next(kind, s, e).rows && |Ahead(Next(kind, s, e).rows, r, max)| + limit <= |Ahead(s.rows, r, max)|
  {
    var candidates := EligibleIds(s.rows, s.now, max, e.locked);
    assert r in candidates - e.picked;
    assert e.picked <= Ahead(s.rows, r, max);
    SubsetSize(e.picked, candidates);
    NothingJoinsAhead(kind, s, e, r, max, limit);
    SubsetSize(Ahead(Next(kind, s, e).rows, r, max), Ahead(s.rows, r, max) - e.picked);
  }

  /** The rows that the committed reservations of a run could take at least. */
  ghost function Capacity(kind: Kind, s: State, es: seq<Event>, limit: nat): nat {
    if es == [] then 0
    else Capacity(kind, s, es[..|es| - 1], limit) + if EndsWithReserve(kind, s, es) then limit else 0
  }

  lemma OneMore(limit: nat, n: nat)
    ensures limit * (n + 1) == limit * n + limit
  {
  }

  lemma {:induction false} CapacityIsLimitTimesReserves(kind: Kind, s: State, es: seq<Event>, limit: nat)
    ensures Capacity(kind, s, es, limit) == limit * Reserves(kind, s, es)
  {
    if es != [] {
      CapacityIsLimitTimesReserves(kind, s, es[..|es| - 1], limit);
      OneMore(limit, Reserves(kind, s, es[..|es| - 1]));
    }
  }

  lemma WaitingStep(kind: Kind, s: State, e: Event, r: Uuid, max: I32, limit: nat)
    requires Inv(s) && Waiting(s, r, max) && FairEvent(e, r, s.rows[r].scheduledAt, max, limit)
    requires !IsClaim(TouchOf(kind, s, e, r))
    ensures var after := Next(kind, s, e);
            && Waiting(after, r, max) && after.rows[r] == s.rows[r]
            && |Ahead(after.rows, r, max)| + (if e.Reserve? && Commits(kind, s, e) then limit else 0) <= |Ahead(s.rows, r, max)|
  {
    NothingJoinsAhead(kind, s, e, r, max, limit);
    SubsetSize(Ahead(Next(kind, s, e).rows, r, max), Ahead(s.rows, r, max));
    if e.Reserve? && Commits(kind, s, e) {
      PassingOverShrinksAhead(kind, s, e, r, max, limit);
    }
  }

  lemma {:induction false} WaitingRun(kind: Kind, s: State, es: seq<Event>, r: Uuid, max: I32, limit: nat)
    requires Inv(s) && Waiting(s, r, max) && Fair(es, r, s.rows[r].scheduledAt, max, limit)
    requires Claims(kind, s, es, r) == []
    ensures var after := Exec(kind, s, es);
            && Waiting(after, r, max) && after.rows[r] == s.rows[r]
            && |Ahead(after.rows, r, max)| + Capacity(kind, s, es, limit) <= |Ahead(s.rows, r, max)|
  {
    if es != [] {
      var init, e := es[..|es| - 1], es[|es| - 1];
      WaitingRun(kind, s, init, r, max, limit);
      RunKeepsInv(kind, s, init);
      assert FairEvent(e, r, s.rows[r].scheduledAt, max, limit);
      WaitingStep(kind, Exec(kind, s, init), e, r, max, limit);
    }
  }

  /** No starvation: a due row is claimed by the time ahead / limit + 1 reservations have committed. */
  lemma ClaimedWithinBound(kind: Kind, s: State, es: seq<Event>, r: Uuid, max: I32, limit: nat)
    requires Inv(s) && Waiting(s, r, max) && Fair(es, r, s.rows[r].scheduledAt, max, limit) && limit >= 1
    requires Reserves(kind, s, es) >= |Ahead(s.rows, r, max)| / limit + 1
    ensures Claims(kind, s, es, r) != []
  {
    if Claims(kind, s, es, r) == [] {
      WaitingRun(kind, s, es, r, max, limit);
      CapacityIsLimitTimesReserves(kind, s, es, limit);
      MoreThan(|Ahead(s.rows, r, max)|, limit, Reserves(kind, s, es));
    }
  }

  lemma MoreThan(ahead: nat, limit: nat, reserves: nat)
    requires limit >= 1 && reserves >= ahead / limit + 1
    ensures limit * reserves > ahead
  {
    assert limit * reserves >= limit * (ahead / limit + 1);
    assert limit * (ahead / limit) + ahead % limit == ahead;
  }

  predicate Overtaking(claims: seq<Time>, other: Uuid, ahead: set<Uuid>) {
    |claims| + (if other in ahead then 1 else 0) <= 1
  }

  /** While a due row waits, every other row overtakes it at most once, and only if it was ahead of it. */
  lemma {:induction false} OvertakenAtMostOnce(kind: Kind, s: State, es: seq<Event>, r: Uuid, max: I32, limit: nat, other: Uuid)
    requires Inv(s) && Waiting(s, r, max) && Fair(es, r, s.rows[r].scheduledAt, max, limit)
    requires Claims(kind, s, es, r) == [] && other != r
    ensures r in Exec(kind, s, es).rows && Overtaking(Claims(kind, s, es, other), other, Ahead(Exec(kind, s, es).rows, r, max))
    ensures other !in Ahead(s.rows, r, max) ==> Claims(kind, s, es, other) == [] && other !in Ahead(Exec(kind, s, es).rows, r, max)
  {
    if es != [] {
      var init, e := es[..|es| - 1], es[|es| - 1];
      var before := Exec(kind, s, init);
      OvertakenAtMostOnce(kind, s, init, r, max, limit, other);
      WaitingRun(kind, s, init, r, max, limit);
      RunKeepsInv(kind, s, init);
      assert FairEvent(e, r, s.rows[r].scheduledAt, max, limit);
      hide Next, TouchOf, Inv, Ahead, Fair, FairEvent, Waiting;
      OvertakingStep(kind, before, e, r, max, limit, other);
    }
  }

  /** A row that is claimed past a waiting one was ahead of it and is not any more. */
  lemma OvertakingStep(kind: Kind, s: State, e: Event, r: Uuid, max: I32, limit: nat, other: Uuid)
    requires Inv(s) && Waiting(s, r, max) && FairEvent(e, r, s.rows[r].scheduledAt, max, limit)
    requires !IsClaim(TouchOf(kind, s, e, r))
    ensures r in Next(kind, s, e).rows && Ahead(Next(kind, s, e).rows, r, max) <= Ahead(s.rows, r, max)
    ensures IsClaim(TouchOf(kind, s, e, other)) ==> other in Ahead(s.rows, r, max) - Ahead(Next(kind, s, e).rows, r, max)
  {
    NothingJoinsAhead(kind, s, e, r, max, limit);
    if IsClaim(TouchOf(kind, s, e, other)) {
      PassingOverShrinksAhead(kind, s, e, r, max, limit);
      assert other in e.picked;
    }
  }
}
