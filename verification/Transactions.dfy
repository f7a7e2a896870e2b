/** How transactions of one queue relate to each other: overlapping reservations, repeated sweeps, and
    what sweeps count over a whole run. */
module Transactions {
  import opened Base
  import opened Counting
  import opened ErrorHistory
  import opened Metadata
  import opened Queue
  import opened Leases

  /** A selection stays one when other rows are claimed meanwhile, if those count as locked. */
  lemma SelectionSurvives(rows: Rows, after: Rows, now: Time, max: I32, limit: nat, locked: set<Uuid>, picked: set<Uuid>, taken: set<Uuid>)
    requires IsSelection(rows, now, max, limit, locked, picked) && picked !! taken
    requires after.Keys == rows.Keys && forall id | id in rows && id !in taken :: after[id] == rows[id]
    ensures IsSelection(after, now, max, limit, locked + taken, picked)
  {
    var all := EligibleIds(rows, now, max, locked);
    assert EligibleIds(after, now, max, locked + taken) == all - taken;
    SubsetSize(picked, all - taken);
    SubsetSize(all - taken, all);
    if |picked| == |all| {
      SubsetSize(picked, all);
    }
  }

  lemma ReserveTouchesOnlyPicked(kind: Kind, s: State, e: Event)
    requires e.Reserve? && Commits(kind, s, e)
    ensures var after := Next(kind, s, e);
            && after.rows.Keys == s.rows.Keys && after.now == s.now && after.issued == s.issued + {e.token}
            && (forall id | id in s.rows && id !in e.picked :: after.rows[id] == s.rows[id])
            && (forall id | id in s.rows && id in e.picked :: s.rows[id].attempts < e.max
                  && after.rows[id] == ReserveRow(kind, id, s.rows[id], e.token, e.max, s.now))
  {
  }

  lemma CommitsAfter(kind: Kind, s: State, first: Event, second: Event)
    requires first.Reserve? && second.Reserve? && first.token != second.token && first.picked !! second.picked
    requires Commits(kind, s, first) && Commits(kind, s, second)
    ensures Commits(kind, Next(kind, s, first), second.(locked := second.locked + first.picked))
  {
    ReserveTouchesOnlyPicked(kind, s, first);
    SelectionSurvives(s.rows, Next(kind, s, first).rows, s.now, second.max, second.limit, second.locked, second.picked, first.picked);
  }

  /** Two reservations overlap when the second selects from the same snapshot while the first still holds
      its row locks. They claim disjoint rows, and each is a valid reservation after the other. */
  lemma OverlappingReservesCommit(kind: Kind, s: State, first: Event, second: Event)
    requires first.Reserve? && second.Reserve? && first.token != second.token && first.picked <= second.locked
    requires Commits(kind, s, first) && Commits(kind, s, second)
    ensures first.picked !! second.picked && Commits(kind, Next(kind, s, first), second)
    ensures Commits(kind, Next(kind, s, second), first.(locked := first.locked + second.picked))
  {
    assert second.picked <= EligibleIds(s.rows, s.now, second.max, second.locked);
    CommitsAfter(kind, s, first, second);
    assert second.(locked := second.locked + first.picked) == second by {
      assert second.locked + first.picked == second.locked;
    }
    CommitsAfter(kind, s, second, first);
  }

  /** Whichever of them commits first, the table ends the same. */
  lemma OverlappingReservesSerialize(kind: Kind, s: State, first: Event, second: Event)
    requires first.Reserve? && second.Reserve? && first.token != second.token && first.picked <= second.locked
    requires Commits(kind, s, first) && Commits(kind, s, second)
    ensures Next(kind, Next(kind, s, first), second).rows
            == Next(kind, Next(kind, s, second), first.(locked := first.locked + second.picked)).rows
  {
    OverlappingReservesCommit(kind, s, first, second);
    hide Next;
    SameRowsInBothOrders(kind, s, first, second, first.(locked := first.locked + second.picked));
  }

  lemma SameRowsInBothOrders(kind: Kind, s: State, first: Event, second: Event, late: Event)
    requires first.Reserve? && second.Reserve? && first.picked !! second.picked && late.Reserve? && late == first.(locked := late.locked)
    requires Commits(kind, s, first) && Commits(kind, s, second)
    requires Commits(kind, Next(kind, s, first), second) && Commits(kind, Next(kind, s, second), late)
    ensures Next(kind, Next(kind, s, first), second).rows == Next(kind, Next(kind, s, second), late).rows
  {
    ReserveTouchesOnlyPicked(kind, s, first);
    ReserveTouchesOnlyPicked(kind, s, second);
    ReserveTouchesOnlyPicked(kind, Next(kind, s, first), second);
    ReserveTouchesOnlyPicked(kind, Next(kind, s, second), late);
    var a, b := Next(kind, Next(kind, s, first), second).rows, Next(kind, Next(kind, s, second), late).rows;
    forall id | id in s.rows ensures a[id] == b[id] {
      if id in first.picked {
      } else if id in second.picked {
      }
    }
  }

  /** A sweep leaves nothing for a second sweep at the same instant. */
  lemma SecondSweepFindsNothing(kind: Kind, s: State, timeout: Time, max: I32, again: I32)
    requires Inv(s) && Commits(kind, s, Sweep(timeout, max))
    ensures var after := Next(kind, s, Sweep(timeout, max));
            StaleIds(after.rows, after.now, timeout) == {} && Next(kind, after, Sweep(timeout, again)) == after
  {
    var after := Next(kind, s, Sweep(timeout, max));
    forall id | id in after.rows ensures !Stale(after.rows[id], after.now, timeout) {
      TouchEffect(kind, s, Sweep(timeout, max), id);
    }
    assert Next(kind, after, Sweep(timeout, again)).rows == after.rows;
  }

  /** In every run a sweep commits: a reservation never leaves a leased row whose column it cannot extend. */
  lemma SweepsNeverAbort(kind: Kind, s: State, es: seq<Event>, timeout: Time, max: I32)
    requires Inv(s)
    ensures Commits(kind, Exec(kind, s, es), Sweep(timeout, max))
  {
    RunKeepsInv(kind, s, es);
    var after := Exec(kind, s, es);
    forall id | id in StaleIds(after.rows, after.now, timeout) ensures Sweepable(kind, after.rows[id]) {
      assert RowOk(after.rows[id], after.now);
      SweepKeepsDecodable(after.rows[id].extra, TimeoutReason(kind));
    }
  }

  ghost function SweptBy(kind: Kind, s: State, e: Event): set<Lease> {
    set id | id in s.rows && TouchOf(kind, s, e, id).TimedOut? :: Lease(id, TouchOf(kind, s, e, id).token)
  }

  ghost function Swept(kind: Kind, s: State, es: seq<Event>): set<Lease> {
    if es == [] then {}
    else Swept(kind, s, es[..|es| - 1]) + SweptBy(kind, Exec(kind, s, es[..|es| - 1]), es[|es| - 1])
  }

  /** The count a sweep returns. */
  ghost function CountOf(kind: Kind, s: State, e: Event): nat {
    if e.Sweep? && Commits(kind, s, e) then |StaleIds(s.rows, s.now, e.timeout)| else 0
  }

  ghost function TotalCount(kind: Kind, s: State, es: seq<Event>): nat {
    if es == [] then 0
    else TotalCount(kind, s, es[..|es| - 1]) + CountOf(kind, Exec(kind, s, es[..|es| - 1]), es[|es| - 1])
  }

  ghost function TimedOutIds(kind: Kind, s: State, e: Event): set<Uuid> {
    set id | id in s.rows && TouchOf(kind, s, e, id).TimedOut?
  }

  lemma TimedOutIdsAreTheStaleOnes(kind: Kind, s: State, e: Event)
    requires Inv(s)
    ensures TimedOutIds(kind, s, e) == if e.Sweep? && Commits(kind, s, e) then StaleIds(s.rows, s.now, e.timeout) else {}
  {
    forall id | id in s.rows ensures RowOk(s.rows[id], s.now) {}
  }

  lemma TimedOutWasOwned(kind: Kind, s: State, e: Event, id: Uuid)
    requires Inv(s) && id in TimedOutIds(kind, s, e)
    ensures Owned(s.rows, id, TouchOf(kind, s, e, id).token)
  {
    TouchEffect(kind, s, e, id);
  }

  lemma CountIsLeases(kind: Kind, s: State, e: Event)
    requires Inv(s)
    ensures |SweptBy(kind, s, e)| == CountOf(kind, s, e)
    ensures forall l | l in SweptBy(kind, s, e) :: Owned(s.rows, l.id, l.token)
  {
    var swept, ids := SweptBy(kind, s, e), TimedOutIds(kind, s, e);
    forall id | id in ids ensures exists l :: l in swept && l.id == id {
      assert Lease(id, TouchOf(kind, s, e, id).token) in swept;
    }
    SameSize(ids, swept);
    TimedOutIdsAreTheStaleOnes(kind, s, e);
    forall l | l in swept ensures Owned(s.rows, l.id, l.token) {
      TimedOutWasOwned(kind, s, e, l.id);
    }
  }

  lemma {:induction false} SameSize(ids: set<Uuid>, leases: set<Lease>)
    requires forall l | l in leases :: l.id in ids
    requires forall id | id in ids :: exists l :: l in leases && l.id == id
    requires forall l, m | l in leases && m in leases :: l.id == m.id ==> l == m
    ensures |ids| == |leases|
  {
    if leases == {} {
      assert ids == {};
    } else {
      var l :| l in leases;
      SameSize(ids - {l.id}, leases - {l});
    }
  }

  /** Over any run the counts that sweeps return add up to the number of distinct leases they ended: no
      lease is counted twice, and none of them is live again. */
  lemma {:induction false} SweepsCountEachLeaseOnce(kind: Kind, s: State, es: seq<Event>)
    requires Inv(s)
    ensures TotalCount(kind, s, es) == |Swept(kind, s, es)|
    ensures forall l | l in Swept(kind, s, es) :: l.token in Exec(kind, s, es).issued && !Owned(Exec(kind, s, es).rows, l.id, l.token)
  {
    if es != [] {
      var init, e := es[..|es| - 1], es[|es| - 1];
      var before := Exec(kind, s, init);
      SweepsCountEachLeaseOnce(kind, s, init);
      RunKeepsInv(kind, s, init);
      NextKeepsInv(kind, before, e);
      CountIsLeases(kind, before, e);
      assert Swept(kind, s, init) !! SweptBy(kind, before, e);
      forall l | l in Swept(kind, s, es)
        ensures l.token in Exec(kind, s, es).issued && !Owned(Exec(kind, s, es).rows, l.id, l.token)
      {
        SweptLeaseIsOver(kind, before, e, l);
      }
    }
  }

  lemma SweptLeaseIsOver(kind: Kind, s: State, e: Event, l: Lease)
    requires Inv(s)
    requires l in SweptBy(kind, s, e) || (l.token in s.issued && !Owned(s.rows, l.id, l.token))
    ensures l.token in Next(kind, s, e).issued && !Owned(Next(kind, s, e).rows, l.id, l.token)
  {
    NextKeepsInv(kind, s, e);
    if l.id in s.rows {
      TouchEffect(kind, s, e, l.id);
      assert RowOk(s.rows[l.id], s.now);
    }
  }
}
