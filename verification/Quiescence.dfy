/** Termination: with one retry limit and no new rows, only finitely many row changes are possible, and
    exactly the settled tables allow none. */
module Quiescence {
  import opened Base
  import opened Counting
  import opened ErrorHistory
  import opened Metadata
  import opened Queue
  import opened Leases
  import opened Ledger

  /** Twice the attempts a row has left, plus one while it is Reserved. */
  function Potential(row: Row, max: I32): nat {
    2 * Max(0, max - row.attempts) + if row.status.Reserved? then 1 else 0
  }

  function Potentials(rows: Rows, max: I32): map<Uuid, nat> {
    map id | id in rows :: Potential(rows[id], max)
  }

  ghost function TouchedIds(kind: Kind, s: State, e: Event): set<Uuid> {
    set id | id in s.rows && TouchOf(kind, s, e, id) != Untouched
  }

  /** How many times a run changes some row. */
  ghost function RowChanges(kind: Kind, s: State, es: seq<Event>): nat {
    if es == [] then 0
    else
      var init := es[..|es| - 1];
      RowChanges(kind, s, init) + |TouchedIds(kind, Exec(kind, s, init), es[|es| - 1])|
  }

  /** Transactions with one retry limit, and no new rows. */
  predicate Draining(e: Event, max: I32) {
    UsesMax(e, max) && !e.Record?
  }

  predicate DrainingRun(es: seq<Event>, max: I32) {
    forall i | 0 <= i < |es| :: Draining(es[i], max)
  }

  lemma TouchCosts(kind: Kind, row: Row, t: Touch, max: I32, m: I32, now: Time, after: Row)
    requires Touched(kind, row, t, m, now, after) && (IsClaim(t) ==> m == max)
    ensures Potential(after, max) <= Potential(row, max)
    ensures t != Untouched ==> Potential(after, max) < Potential(row, max)
  {
  }

  lemma DrainingKeepsKeys(kind: Kind, s: State, e: Event, max: I32)
    requires Inv(s) && Draining(e, max)
    ensures Next(kind, s, e).rows.Keys == s.rows.Keys
  {
    NextKeepsInv(kind, s, e);
    forall id | id in Next(kind, s, e).rows ensures id in s.rows {
      if id !in s.rows {
        RowsAppearOnlyByRecord(kind, s, e, id);
      }
    }
  }

  lemma EveryChangeCosts(kind: Kind, s: State, e: Event, max: I32)
    requires Inv(s) && Draining(e, max)
    ensures Sum(Potentials(Next(kind, s, e).rows, max)) + |TouchedIds(kind, s, e)| <= Sum(Potentials(s.rows, max))
  {
    var a, b := Potentials(s.rows, max), Potentials(Next(kind, s, e).rows, max);
    DrainingKeepsKeys(kind, s, e, max);
    forall id | id in s.rows
      ensures b[id] <= a[id] && (id in TouchedIds(kind, s, e) ==> b[id] < a[id])
    {
      TouchEffect(kind, s, e, id);
      TouchCosts(kind, s.rows[id], TouchOf(kind, s, e, id), max, MaxOf(e), s.now, Next(kind, s, e).rows[id]);
    }
    SumDecrease(a, b, TouchedIds(kind, s, e));
  }

  /** Every run without new rows makes at most as many row changes as the potential it starts with. */
  lemma {:induction false} RowChangesAreBounded(kind: Kind, s: State, es: seq<Event>, max: I32)
    requires Inv(s) && DrainingRun(es, max)
    ensures RowChanges(kind, s, es) + Sum(Potentials(Exec(kind, s, es).rows, max)) <= Sum(Potentials(s.rows, max))
  {
    if es != [] {
      var init := es[..|es| - 1];
      RowChangesAreBounded(kind, s, init, max);
      RunKeepsInv(kind, s, init);
      assert Draining(es[|es| - 1], max);
      EveryChangeCosts(kind, Exec(kind, s, init), es[|es| - 1], max);
    }
  }

  /** Finished for good: terminal, or unleased with no attempt left. */
  predicate Settled(row: Row, max: I32) {
    Terminal(row) || (!row.status.Reserved? && row.attempts >= max)
  }

  lemma SettledRowsAreUntouched(kind: Kind, s: State, es: seq<Event>, max: I32)
    requires Inv(s) && DrainingRun(es, max)
    requires forall id | id in s.rows :: Settled(s.rows[id], max)
    ensures Exec(kind, s, es).rows == s.rows
  {
    if es != [] {
      var init, e := es[..|es| - 1], es[|es| - 1];
      SettledRowsAreUntouched(kind, s, init, max);
      RunKeepsInv(kind, s, init);
      assert Draining(e, max);
      SettledStep(kind, Exec(kind, s, init), e, max);
    }
  }

  lemma SettledStep(kind: Kind, s: State, e: Event, max: I32)
    requires Inv(s) && Draining(e, max) && forall id | id in s.rows :: Settled(s.rows[id], max)
    ensures Next(kind, s, e).rows == s.rows
  {
    DrainingKeepsKeys(kind, s, e, max);
    hide Next, TouchOf;
    forall id | id in s.rows ensures Next(kind, s, e).rows[id] == s.rows[id] {
      TouchEffect(kind, s, e, id);
    }
  }

  /** While some row is not settled, letting time pass and then sweeping or reserving changes it. */
  lemma UnsettledRowsCanMove(kind: Kind, s: State, max: I32, id: Uuid) returns (es: seq<Event>)
    requires Inv(s) && id in s.rows && !Settled(s.rows[id], max)
    ensures DrainingRun(es, max) && Exec(kind, s, es).rows != s.rows
  {
    var row := s.rows[id];
    assert RowOk(row, s.now);
    var wait := Max(1, row.scheduledAt - s.now);
    var later := Next(kind, s, Tick(wait));
    NextKeepsInv(kind, s, Tick(wait));
    var e: Event;
    if row.status.Reserved? {
      e := Sweep(0, max);
      forall i | i in StaleIds(later.rows, later.now, 0) ensures Sweepable(kind, later.rows[i]) {
        assert RowOk(later.rows[i], later.now);
        SweepKeepsDecodable(later.rows[i].extra, TimeoutReason(kind));
      }
      assert Stale(later.rows[id], later.now, 0);
    } else {
      var token := FreshId(s.issued);
      var all := EligibleIds(later.rows, later.now, max, {});
      e := Reserve(token, max, |all|, {}, all);
      assert id in all;
    }
    es := [Tick(wait), e];
    ExecTwo(kind, s, Tick(wait), e);
    TouchEffect(kind, later, e, id);
  }

  /** A table can change no more, whatever consumers and sweepers do and however long they wait, exactly
      when every row is settled. */
  lemma QuiescentIff(kind: Kind, s: State, max: I32)
    requires Inv(s)
    ensures (forall es: seq<Event> | DrainingRun(es, max) :: Exec(kind, s, es).rows == s.rows)
       <==> (forall id | id in s.rows :: Settled(s.rows[id], max))
  {
    if forall id | id in s.rows :: Settled(s.rows[id], max) {
      forall es: seq<Event> | DrainingRun(es, max) ensures Exec(kind, s, es).rows == s.rows {
        SettledRowsAreUntouched(kind, s, es, max);
      }
    } else {
      var id :| id in s.rows && !Settled(s.rows[id], max);
      var es := UnsettledRowsCanMove(kind, s, max, id);
    }
  }

  predicate WithinLimit(row: Row, max: I32) {
    && row.attempts <= max && (row.status.Received? ==> row.attempts == 0)
    && !row.status.Dead? && !row.status.Archive?
  }

  predicate WithinLimitAt(rows: Rows, id: Uuid, max: I32) {
    id in rows ==> WithinLimit(rows[id], max)
  }

  predicate CompletedOrExhausted(row: Row, max: I32) {
    row.status.Completed? || (row.status.Failed? && row.attempts == max)
  }

  /** With one retry limit attempts never exceed it, so a row recorded in the run is settled at its end exactly
      when it is Completed or is Failed with exactly `max` attempts. */
  lemma {:induction false} SettledMeansCompletedOrExhausted(kind: Kind, s: State, es: seq<Event>, max: I32, id: Uuid)
    requires Inv(s) && Uses(es, max) && max >= 1 && WithinLimitAt(s.rows, id, max)
    ensures WithinLimitAt(Exec(kind, s, es).rows, id, max)
    ensures id in Exec(kind, s, es).rows ==> (Settled(Exec(kind, s, es).rows[id], max) <==> CompletedOrExhausted(Exec(kind, s, es).rows[id], max))
  {
    if es != [] {
      var init, e := es[..|es| - 1], es[|es| - 1];
      var before := Exec(kind, s, init);
      SettledMeansCompletedOrExhausted(kind, s, init, max, id);
      RunKeepsInv(kind, s, init);
      assert UsesMax(e, max);
      if id in before.rows {
        TouchEffect(kind, before, e, id);
      } else if id in Next(kind, before, e).rows {
        RowsAppearOnlyByRecord(kind, before, e, id);
      }
    }
  }

  /** Where sweeping, waiting and consuming end: after any run on rows recorded in it, nothing without new rows
      can change the table any more exactly when every row is Completed or is Failed with all attempts used. */
  lemma QuiescentMeansDone(kind: Kind, s: State, es: seq<Event>, max: I32)
    requires Inv(s) && Uses(es, max) && max >= 1 && forall id | id in s.rows :: WithinLimit(s.rows[id], max)
    ensures var after := Exec(kind, s, es);
            ((forall more: seq<Event> | DrainingRun(more, max) :: Exec(kind, after, more).rows == after.rows)
             <==> forall id | id in after.rows :: CompletedOrExhausted(after.rows[id], max))
  {
    var after := Exec(kind, s, es);
    RunKeepsInv(kind, s, es);
    hide Exec, Next, Inv, DrainingRun, Settled, CompletedOrExhausted;
    QuiescentIff(kind, after, max);
    forall id | id in after.rows ensures Settled(after.rows[id], max) <==> CompletedOrExhausted(after.rows[id], max) {
      SettledMeansCompletedOrExhausted(kind, s, es, max, id);
    }
  }

  /** A run that touches no row leaves the rows as they are. */
  lemma {:induction false} NoChangeKeepsRows(kind: Kind, s: State, es: seq<Event>, max: I32)
    requires Inv(s) && DrainingRun(es, max) && RowChanges(kind, s, es) == 0
    ensures Exec(kind, s, es).rows == s.rows
  {
    if es != [] {
      var init, e := es[..|es| - 1], es[|es| - 1];
      var before := Exec(kind, s, init);
      NoChangeKeepsRows(kind, s, init, max);
      RunKeepsInv(kind, s, init);
      assert Draining(e, max);
      UntouchedKeepsRows(kind, before, e, max);
    }
  }

  lemma UntouchedKeepsRows(kind: Kind, s: State, e: Event, max: I32)
    requires Inv(s) && Draining(e, max) && TouchedIds(kind, s, e) == {}
    ensures Next(kind, s, e).rows == s.rows
  {
    DrainingKeepsKeys(kind, s, e, max);
    forall id | id in s.rows ensures Next(kind, s, e).rows[id] == s.rows[id] {
      TouchEffect(kind, s, e, id);
      assert id !in TouchedIds(kind, s, e);
    }
  }

  /** Draining ends: from every state some run without new rows settles every row. */
  lemma {:induction false} DrainingEnds(kind: Kind, s: State, max: I32) returns (es: seq<Event>)
    requires Inv(s)
    ensures DrainingRun(es, max)
    ensures forall id | id in Exec(kind, s, es).rows :: Settled(Exec(kind, s, es).rows[id], max)
    decreases Sum(Potentials(s.rows, max))
  {
    hide Next, Inv, Settled, RowChanges;
    es := [];
    ExecNothing(kind, s);
    if id :| id in s.rows && !Settled(s.rows[id], max) {
      var first := UnsettledRowsCanMove(kind, s, max, id);
      RowChangesAreBounded(kind, s, first, max);
      if RowChanges(kind, s, first) == 0 {
        NoChangeKeepsRows(kind, s, first, max);
      }
      RunKeepsInv(kind, s, first);
      var rest := DrainingEnds(kind, Exec(kind, s, first), max);
      ExecAppend(kind, s, first, rest);
      es := first + rest;
    }
  }

  /** Whatever happened to a queue of recorded rows, sweeping, waiting and consuming can bring it to the point
      where every row is Completed or is Failed with all attempts used, which nothing changes any more. */
  lemma QuiescenceIsReachable(kind: Kind, s: State, es: seq<Event>, max: I32) returns (more: seq<Event>)
    requires Inv(s) && Uses(es, max) && max >= 1 && forall id | id in s.rows :: WithinLimit(s.rows[id], max)
    ensures DrainingRun(more, max)
    ensures forall id | id in Exec(kind, s, es + more).rows :: CompletedOrExhausted(Exec(kind, s, es + more).rows[id], max)
  {
    RunKeepsInv(kind, s, es);
    more := DrainingEnds(kind, Exec(kind, s, es), max);
    ExecAppend(kind, s, es, more);
    assert Uses(es + more, max) by {
      forall i | 0 <= i < |es + more| ensures UsesMax((es + more)[i], max) {
        assert i >= |es| ==> Draining(more[i - |es|], max);
      }
    }
    hide Exec, Inv, Settled, CompletedOrExhausted;
    forall id | id in Exec(kind, s, es + more).rows ensures CompletedOrExhausted(Exec(kind, s, es + more).rows[id], max) {
      SettledMeansCompletedOrExhausted(kind, s, es + more, max, id);
    }
  }
}
