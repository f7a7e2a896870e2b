/** One batch of a consumer: reserve, run every item inside its own boundary, report. */
module Batch {
  import opened Base
  import opened Metadata
  import opened Queue
  import opened Leases
  import opened Repository
  import opened Consumer
  import opened Transactions

  /** The events and the errors of the first `n` items, each item starting where the one before ended. */
  function BatchEvents(kind: Kind, s: State, batch: seq<Envelope>, n: nat, max: I32, plans: Uuid -> Plan): seq<Event>
    requires n <= |batch|
  {
    if n == 0 then []
    else
      var prior := BatchEvents(kind, s, batch, n - 1, max, plans);
      prior + ItemEvents(kind, Exec(kind, s, prior), batch[n - 1].id, batch[n - 1].token, max, plans(batch[n - 1].id))
  }

  function BatchErrors(kind: Kind, s: State, batch: seq<Envelope>, n: nat, max: I32, plans: Uuid -> Plan): seq<Text>
    requires n <= |batch|
  {
    if n == 0 then []
    else
      var prior := Exec(kind, s, BatchEvents(kind, s, batch, n - 1, max, plans));
      BatchErrors(kind, s, batch, n - 1, max, plans)
      + ItemErrors(kind, prior, batch[n - 1].id, batch[n - 1].token, plans(batch[n - 1].id))
  }

  /** Whether the k-th item's work and completion both return Ok. */
  predicate Succeeds(kind: Kind, s: State, batch: seq<Envelope>, k: nat, max: I32, plans: Uuid -> Plan)
    requires k < |batch|
  {
    MainResult(kind, Exec(kind, s, BatchEvents(kind, s, batch, k, max, plans)), batch[k].id, batch[k].token, plans(batch[k].id)).Ok?
  }

  lemma NoItemErrorIff(kind: Kind, s: State, id: Uuid, token: Uuid, plan: Plan)
    ensures ItemErrors(kind, s, id, token, plan) == [] <==> MainResult(kind, s, id, token, plan).Ok?
  {
  }

  /** A batch reports no error exactly when every item's work and completion both returned Ok. */
  lemma {:induction false} NoErrorsIff(kind: Kind, s: State, batch: seq<Envelope>, n: nat, max: I32, plans: Uuid -> Plan)
    requires n <= |batch|
    ensures BatchErrors(kind, s, batch, n, max, plans) == [] <==> forall k | 0 <= k < n :: Succeeds(kind, s, batch, k, max, plans)
  {
    hide Exec, ItemEvents, ItemErrors, MainResult;
    if n > 0 {
      NoErrorsIff(kind, s, batch, n - 1, max, plans);
      var prior := Exec(kind, s, BatchEvents(kind, s, batch, n - 1, max, plans));
      var last := batch[n - 1];
      NoItemErrorIff(kind, prior, last.id, last.token, plans(last.id));
      assert Succeeds(kind, s, batch, n - 1, max, plans) <==> MainResult(kind, prior, last.id, last.token, plans(last.id)).Ok?;
      assert |BatchErrors(kind, s, batch, n, max, plans)|
          == |BatchErrors(kind, s, batch, n - 1, max, plans)| + |ItemErrors(kind, prior, last.id, last.token, plans(last.id))|;
    }
  }

  /** An item whose work and completion succeeded is Completed, and stays so whatever follows. */
  lemma SuccessIsDurable(kind: Kind, s: State, id: Uuid, token: Uuid, max: I32, plan: Plan, more: seq<Event>)
    requires Inv(s) && MainResult(kind, s, id, token, plan).Ok?
    ensures var after := Exec(kind, Exec(kind, s, ItemEvents(kind, s, id, token, max, plan)), more);
            id in after.rows && after.rows[id].status == Status.Completed
  {
    var s1 := Exec(kind, s, plan.before);
    RunKeepsInv(kind, s, plan.before);
    NextKeepsInv(kind, s1, Complete(id, token));
    ExecAppend(kind, s, plan.before, [Complete(id, token)]);
    ExecOne(kind, s1, Complete(id, token));
    TerminalIsAbsorbing(kind, Next(kind, s1, Complete(id, token)), more, id);
  }

  /** Every item of a batch that reported no error is Completed when the batch ends, although others may
      have acted on the queue all along. */
  lemma {:induction false} NoErrorsMeansCompleted(kind: Kind, s: State, batch: seq<Envelope>, n: nat, max: I32, plans: Uuid -> Plan, k: nat)
    requires Inv(s) && k < n <= |batch| && BatchErrors(kind, s, batch, n, max, plans) == []
    ensures var after := Exec(kind, s, BatchEvents(kind, s, batch, n, max, plans));
            batch[k].id in after.rows && after.rows[batch[k].id].status == Status.Completed
  {
    hide Exec, ItemEvents, ItemErrors, MainResult;
    NoErrorsIff(kind, s, batch, n, max, plans);
    assert Succeeds(kind, s, batch, k, max, plans);
    var prior := BatchEvents(kind, s, batch, k, max, plans);
    var at := Exec(kind, s, prior);
    RunKeepsInv(kind, s, prior);
    var item := ItemEvents(kind, at, batch[k].id, batch[k].token, max, plans(batch[k].id));
    var more := LaterEvents(kind, s, batch, k + 1, n, max, plans);
    ExecAppend(kind, s, prior, item);
    ExecAppend(kind, s, prior + item, more);
    SuccessIsDurable(kind, at, batch[k].id, batch[k].token, max, plans(batch[k].id), more);
  }

  lemma {:induction false} LaterEvents(kind: Kind, s: State, batch: seq<Envelope>, m: nat, n: nat, max: I32, plans: Uuid -> Plan)
    returns (more: seq<Event>)
    requires m <= n <= |batch|
    ensures BatchEvents(kind, s, batch, n, max, plans) == BatchEvents(kind, s, batch, m, max, plans) + more
    decreases n - m
  {
    hide Exec, ItemEvents;
    more := [];
    if m < n {
      var first := ItemEvents(kind, Exec(kind, s, BatchEvents(kind, s, batch, m, max, plans)), batch[m].id, batch[m].token, max, plans(batch[m].id));
      var rest := LaterEvents(kind, s, batch, m + 1, n, max, plans);
      more := first + rest;
    }
  }

  // ---------- isolation ----------

  predicate Agree(a: State, b: State, id: Uuid) {
    a.now == b.now && (id in a.rows <==> id in b.rows) && (id in a.rows ==> a.rows[id] == b.rows[id])
  }

  /** Anything but a reservation that takes the row. */
  predicate Spares(e: Event, id: Uuid) {
    e.Reserve? ==> id !in e.picked
  }

  predicate AllSpare(es: seq<Event>, id: Uuid) {
    forall i | 0 <= i < |es| :: Spares(es[i], id)
  }

  predicate PlanSpares(plan: Plan, id: Uuid) {
    AllSpare(plan.before, id) && AllSpare(plan.between, id)
  }

  /** While an item runs, no other reservation takes its row, and no two items share a row. */
  predicate BatchSpares(batch: seq<Envelope>, plans: Uuid -> Plan, id: Uuid) {
    && (forall i, j | 0 <= i < j < |batch| :: batch[i].id != batch[j].id)
    && (forall i | 0 <= i < |batch| :: PlanSpares(plans(batch[i].id), id))
  }

  lemma SpareStep(kind: Kind, a: State, b: State, e: Event, id: Uuid)
    requires Inv(a) && Inv(b) && Agree(a, b, id) && Spares(e, id)
    ensures Agree(Next(kind, a, e), Next(kind, b, e), id)
  {
    if e.Sweep? {
      SweepsNeverAbort(kind, a, [], e.timeout, e.max);
      SweepsNeverAbort(kind, b, [], e.timeout, e.max);
    }
  }

  lemma {:induction false} SpareRun(kind: Kind, a: State, b: State, es: seq<Event>, id: Uuid)
    requires Inv(a) && Inv(b) && Agree(a, b, id) && AllSpare(es, id)
    ensures Inv(Exec(kind, a, es)) && Inv(Exec(kind, b, es)) && Agree(Exec(kind, a, es), Exec(kind, b, es), id)
  {
    hide Next, Inv, Agree, Spares;
    ExecNothing(kind, a);
    ExecNothing(kind, b);
    if es != [] {
      var init, e := es[..|es| - 1], es[|es| - 1];
      SpareRun(kind, a, b, init, id);
      assert Spares(e, id);
      SpareStep(kind, Exec(kind, a, init), Exec(kind, b, init), e, id);
      NextKeepsInv(kind, Exec(kind, a, init), e);
      NextKeepsInv(kind, Exec(kind, b, init), e);
    }
  }

  /** An item's own finalization leaves every other row alone. */
  lemma OwnCall(kind: Kind, a: State, b: State, call: DbCall, e: Event, item: Uuid, id: Uuid)
    requires Inv(a) && Agree(a, b, id) && (e.Complete? || e.Fail?) && e.id == item && item != id
    ensures Inv(Exec(kind, a, FinalizeEvents(call, e))) && Agree(Exec(kind, a, FinalizeEvents(call, e)), b, id)
  {
    NextKeepsInv(kind, a, e);
    ExecOne(kind, a, e);
    ExecNothing(kind, a);
  }

  /** What the others do around an item, without the item's own completion and failure. */
  function Around(kind: Kind, s: State, id: Uuid, token: Uuid, plan: Plan): seq<Event> {
    plan.before + if MainResult(kind, s, id, token, plan).Ok? then [] else plan.between
  }

  /** For another row, running an item is no more than what the others do around it. */
  lemma OtherItem(kind: Kind, a: State, b: State, item: Uuid, token: Uuid, max: I32, plan: Plan, id: Uuid)
    requires Inv(a) && Inv(b) && Agree(a, b, id) && item != id && PlanSpares(plan, id)
    ensures Agree(Exec(kind, a, ItemEvents(kind, a, item, token, max, plan)), Exec(kind, b, Around(kind, a, item, token, plan)), id)
  {
    hide Exec, Inv, Agree, Next, MainResult, FinalizeEvents, AllSpare;
    SpareRun(kind, a, b, plan.before, id);
    var complete := FinalizeEvents(plan.complete, Complete(item, token));
    var a1, b1 := Exec(kind, a, plan.before), Exec(kind, b, plan.before);
    ExecAppend(kind, a, plan.before, complete);
    OwnCall(kind, a1, b1, plan.complete, Complete(item, token), item, id);
    var a2 := Exec(kind, a, CompletionEvents(item, token, plan));
    assert Inv(a2) && Agree(a2, b1, id);
    match MainResult(kind, a, item, token, plan)
    case Ok(_) => assert plan.before + [] == plan.before;
    case Err(cause) =>
      var e := Fail(item, token, max, Some(ItemText(item, token, StageOf(item, token, plan), cause)));
      SpareRun(kind, a2, b1, plan.between, id);
      ExecAppend(kind, a, CompletionEvents(item, token, plan), FailureEvents(item, token, max, plan, cause));
      ExecAppend(kind, a2, plan.between, FinalizeEvents(plan.fail, e));
      OwnCall(kind, Exec(kind, a2, plan.between), Exec(kind, b1, plan.between), plan.fail, e, item, id);
      ExecAppend(kind, b, plan.before, plan.between);
  }

  lemma OwnEventsSpare(id: Uuid, token: Uuid, plan: Plan)
    requires PlanSpares(plan, id)
    ensures AllSpare(CompletionEvents(id, token, plan), id)
    ensures forall max, cause :: AllSpare(FailureEvents(id, token, max, plan, cause), id)
  {
  }

  /** An item sees nothing but its own row: where that agrees, so do its transactions, its errors and the row
      it leaves. */
  lemma SameItem(kind: Kind, a: State, b: State, id: Uuid, token: Uuid, max: I32, plan: Plan)
    requires Inv(a) && Inv(b) && Agree(a, b, id) && PlanSpares(plan, id)
    ensures ItemEvents(kind, a, id, token, max, plan) == ItemEvents(kind, b, id, token, max, plan)
    ensures ItemErrors(kind, a, id, token, plan) == ItemErrors(kind, b, id, token, plan)
    ensures Agree(Exec(kind, a, ItemEvents(kind, a, id, token, max, plan)), Exec(kind, b, ItemEvents(kind, a, id, token, max, plan)), id)
  {
    hide Exec, Inv, Next, AllSpare, CompletionEvents, FailureEvents;
    OwnEventsSpare(id, token, plan);
    SpareRun(kind, a, b, plan.before, id);
    assert MainResult(kind, a, id, token, plan) == MainResult(kind, b, id, token, plan);
    SpareRun(kind, a, b, CompletionEvents(id, token, plan), id);
    var a2, b2 := Exec(kind, a, CompletionEvents(id, token, plan)), Exec(kind, b, CompletionEvents(id, token, plan));
    SpareRun(kind, a2, b2, plan.between, id);
    match MainResult(kind, a, id, token, plan)
    case Ok(_) =>
    case Err(cause) =>
      SpareRun(kind, a2, b2, FailureEvents(id, token, max, plan, cause), id);
      ExecAppend(kind, a, CompletionEvents(id, token, plan), FailureEvents(id, token, max, plan, cause));
      ExecAppend(kind, b, CompletionEvents(id, token, plan), FailureEvents(id, token, max, plan, cause));
  }

  /** The batch without the other items' own calls: what others do around all items, and the k-th item. */
  function Alone(kind: Kind, s: State, batch: seq<Envelope>, n: nat, max: I32, plans: Uuid -> Plan, k: nat): seq<Event>
    requires n <= |batch|
  {
    if n == 0 then []
    else
      var at := Exec(kind, s, BatchEvents(kind, s, batch, n - 1, max, plans));
      var last := batch[n - 1];
      Alone(kind, s, batch, n - 1, max, plans, k)
      + if n - 1 == k then ItemEvents(kind, at, last.id, last.token, max, plans(last.id))
        else Around(kind, at, last.id, last.token, plans(last.id))
  }

  /** The k-th item's transactions and errors are the same in both states. */
  predicate RunsAlike(kind: Kind, a: State, b: State, item: Envelope, max: I32, plan: Plan) {
    && ItemEvents(kind, a, item.id, item.token, max, plan) == ItemEvents(kind, b, item.id, item.token, max, plan)
    && ItemErrors(kind, a, item.id, item.token, plan) == ItemErrors(kind, b, item.id, item.token, plan)
  }

  lemma IsolationStep(kind: Kind, at: State, alone: State, last: Envelope, max: I32, plan: Plan, id: Uuid)
    requires Inv(at) && Inv(alone) && Agree(at, alone, id) && PlanSpares(plan, id)
    ensures last.id == id ==> RunsAlike(kind, at, alone, last, max, plan)
    ensures var more := if last.id == id then ItemEvents(kind, at, last.id, last.token, max, plan)
                        else Around(kind, at, last.id, last.token, plan);
            Agree(Exec(kind, at, ItemEvents(kind, at, last.id, last.token, max, plan)), Exec(kind, alone, more), id)
  {
    hide Exec, Inv, Agree, ItemEvents, ItemErrors, Around, PlanSpares;
    if last.id == id {
      SameItem(kind, at, alone, id, last.token, max, plan);
    } else {
      OtherItem(kind, at, alone, last.id, last.token, max, plan, id);
    }
  }

  /** Isolation: whatever becomes of the other items, and whatever other workers, sweepers and the clock do
      meanwhile, each item makes the transactions, reports the errors and leaves the row that it would if no
      other item of the batch had completed or failed. */
  lemma {:induction false} ItemsAreIsolated(kind: Kind, s: State, batch: seq<Envelope>, n: nat, max: I32, plans: Uuid -> Plan, k: nat)
    requires Inv(s) && n <= |batch| && k < |batch| && BatchSpares(batch, plans, batch[k].id)
    ensures Agree(Exec(kind, s, BatchEvents(kind, s, batch, n, max, plans)), Exec(kind, s, Alone(kind, s, batch, n, max, plans, k)), batch[k].id)
    ensures k < n ==> RunsAlike(kind, Exec(kind, s, BatchEvents(kind, s, batch, k, max, plans)),
                                Exec(kind, s, Alone(kind, s, batch, k, max, plans, k)), batch[k], max, plans(batch[k].id))
  {
    hide Exec, Inv, ItemEvents, Around, PlanSpares, RunsAlike;
    if n > 0 {
      var prior, alone := BatchEvents(kind, s, batch, n - 1, max, plans), Alone(kind, s, batch, n - 1, max, plans, k);
      var at, last := Exec(kind, s, prior), batch[n - 1];
      ItemsAreIsolated(kind, s, batch, n - 1, max, plans, k);
      RunKeepsInv(kind, s, prior);
      RunKeepsInv(kind, s, alone);
      ExecAppend(kind, s, prior, ItemEvents(kind, at, last.id, last.token, max, plans(last.id)));
      ExecAppend(kind, s, alone, if n - 1 == k then ItemEvents(kind, at, last.id, last.token, max, plans(last.id))
                                 else Around(kind, at, last.id, last.token, plans(last.id)));
      IsolationStep(kind, at, Exec(kind, s, alone), last, max, plans(last.id), batch[k].id);
    } else {
      ExecNothing(kind, s);
    }
  }

  // ---------- the loop ----------

  /** All lists, one after another. */
  function Concat(lists: seq<seq<Text>>): seq<Text> {
    if lists == [] then [] else Concat(lists[..|lists| - 1]) + lists[|lists| - 1]
  }

  /** Every item's part of a batch, in order: where it starts, what it reports, where it ends. */
  predicate ItemByItem(kind: Kind, batch: seq<Envelope>, n: nat, max: I32, plans: Uuid -> Plan, reports: seq<seq<Text>>, states: seq<State>) {
    && n <= |batch| && |reports| == n && |states| == n + 1
    && forall k | 0 <= k < n ::
         Reports(kind, states[k], batch[k].id, batch[k].token, max, plans(batch[k].id), reports[k], states[k + 1])
  }

  lemma OneMoreItem(kind: Kind, batch: seq<Envelope>, n: nat, max: I32, plans: Uuid -> Plan, reports: seq<seq<Text>>, states: seq<State>,
                    reported: seq<Text>, after: State)
    requires ItemByItem(kind, batch, n, max, plans, reports, states) && n < |batch|
    requires Reports(kind, states[n], batch[n].id, batch[n].token, max, plans(batch[n].id), reported, after)
    ensures ItemByItem(kind, batch, n + 1, max, plans, reports + [reported], states + [after])
    ensures Concat(reports + [reported]) == Concat(reports) + reported
  {
    hide Reports;
    assert (reports + [reported])[..n] == reports;
  }

  /** Run every item, in order; the errors are the items' errors, item after item. */
  method ProcessBatch(repository: Repository, batch: seq<Envelope>, max: I32, plans: Uuid -> Plan)
    returns (errors: seq<Text>, ghost reports: seq<seq<Text>>, ghost states: seq<State>)
    modifies repository
    ensures ItemByItem(repository.kind, batch, |batch|, max, plans, reports, states)
    ensures states[0] == old(repository.State()) && states[|batch|] == repository.State()
    ensures errors == Concat(reports)
    ensures repository.State() == Exec(repository.kind, old(repository.State()),
                                       BatchEvents(repository.kind, old(repository.State()), batch, |batch|, max, plans))
    ensures errors == BatchErrors(repository.kind, old(repository.State()), batch, |batch|, max, plans)
  {
    hide Exec, ItemEvents, ItemErrors, ItemByItem, Reports, Concat;
    ghost var kind, s := repository.kind, repository.State();
    ExecNothing(kind, s);
    NoItems(kind, batch, max, plans, s);
    errors, reports, states := [], [], [s];
    var n := 0;
    while n < |batch|
      invariant 0 <= n <= |batch|
      invariant repository.State() == Exec(kind, s, BatchEvents(kind, s, batch, n, max, plans))
      invariant errors == BatchErrors(kind, s, batch, n, max, plans) == Concat(reports)
      invariant ItemByItem(kind, batch, n, max, plans, reports, states) && |states| == n + 1
      invariant states[0] == s && states[n] == repository.State()
    {
      ghost var before := errors;
      ghost var prior := BatchEvents(kind, s, batch, n, max, plans);
      ghost var at := repository.State();
      errors := RunItem(repository, batch[n].id, batch[n].token, max, plans(batch[n].id), errors);
      ExecAppend(kind, s, prior, ItemEvents(kind, at, batch[n].id, batch[n].token, max, plans(batch[n].id)));
      OneMoreItem(kind, batch, n, max, plans, reports, states, errors[|before|..], repository.State());
      reports, states := reports + [errors[|before|..]], states + [repository.State()];
      n := n + 1;
    }
  }

  lemma NoItems(kind: Kind, batch: seq<Envelope>, max: I32, plans: Uuid -> Plan, s: State)
    ensures ItemByItem(kind, batch, 0, max, plans, [], [s]) && Concat([]) == []
  {
  }

  /** `publish_batch`, `process` and `consume`: reserve and run every healthy entry. Ok reports the number of
      entries exactly if every one's work and completion returned Ok, and then every one is Completed. */
  method Consume(repository: Repository, max: I32, limit: nat, locked: set<Uuid>, token: Uuid, fate: Fate, faults: set<Uuid>, plans: Uuid -> Plan)
    returns (r: Result<nat, seq<Text>>, ghost picked: set<Uuid>, ghost batch: seq<Envelope>,
             ghost reports: seq<seq<Text>>, ghost states: seq<State>)
    requires Inv(repository.State()) && token !in repository.issued
    modifies repository
    ensures IsSelection(old(repository.rows), old(repository.now), max, limit, locked, picked)
    ensures !Reserves(repository.kind, old(repository.State()), picked, token, fate, faults) ==>
              && r == Err([Display(Storage)])
              && repository.State() == if ReserveCommits(repository.kind, old(repository.State()), picked, token, fate, faults)
                                       then Next(repository.kind, old(repository.State()), Event.Reserve(token, max, limit, locked, picked))
                                       else old(repository.State())
    ensures Reserves(repository.kind, old(repository.State()), picked, token, fate, faults) ==>
              var claimed := Next(repository.kind, old(repository.State()), Event.Reserve(token, max, limit, locked, picked));
              && IsHealthyBatch(repository.kind, claimed.rows, picked, token, batch)
              && repository.State() == Exec(repository.kind, claimed, BatchEvents(repository.kind, claimed, batch, |batch|, max, plans))
              && (r.Ok? <==> forall k | 0 <= k < |batch| :: Succeeds(repository.kind, claimed, batch, k, max, plans))
              && var errors := BatchErrors(repository.kind, claimed, batch, |batch|, max, plans);
                 r == if errors == [] then Ok(|batch|) else Err(errors)
    ensures Reserves(repository.kind, old(repository.State()), picked, token, fate, faults) ==>
              && ItemByItem(repository.kind, batch, |batch|, max, plans, reports, states) && states[|batch|] == repository.State()
              && states[0] == Next(repository.kind, old(repository.State()), Event.Reserve(token, max, limit, locked, picked))
              && r == if Concat(reports) == [] then Ok(|batch|) else Err(Concat(reports))
    ensures r.Ok? ==> r.value == |batch| <= limit
    ensures r.Ok? ==> forall k | 0 <= k < |batch| :: batch[k].id in repository.rows && repository.rows[batch[k].id].status == Status.Completed
  {
    ghost var kind, before := repository.kind, repository.State();
    batch, reports, states := [], [], [];
    var reserved, chosen := repository.Reserve(max, limit, locked, token, fate, faults);
    picked := chosen;
    if reserved.Err? {
      return Err([Display(Storage)]), picked, batch, reports, states;
    }
    batch := reserved.value;
    ghost var claimed := repository.State();
    NextKeepsInv(kind, before, Event.Reserve(token, max, limit, locked, picked));
    BatchFitsSelection(kind, claimed.rows, picked, token, batch);
    var errors, itemReports, itemStates := ProcessBatch(repository, reserved.value, max, plans);
    reports, states := itemReports, itemStates;
    NoErrorsIff(kind, claimed, batch, |batch|, max, plans);
    if errors == [] {
      forall k | 0 <= k < |batch|
        ensures batch[k].id in repository.rows && repository.rows[batch[k].id].status == Status.Completed
      {
        NoErrorsMeansCompleted(kind, claimed, batch, |batch|, max, plans, k);
      }
    }
    r := Report(|reserved.value|, errors);
  }

  /** Whether the reserving transaction commits, acknowledged or not. */
  ghost predicate ReserveCommits(kind: Kind, s: State, picked: set<Uuid>, token: Uuid, fate: Fate, faults: set<Uuid>)
    requires picked <= s.rows.Keys && forall id | id in picked :: s.rows[id].attempts < 0x7FFF_FFFF
  {
    !fate.RolledBack? && !RejectsWrite(kind, s.rows, picked, token, s.now, faults)
  }

  /** Whether the reserving transaction succeeds: it commits and the database rejects no quarantine write. */
  ghost predicate Reserves(kind: Kind, s: State, picked: set<Uuid>, token: Uuid, fate: Fate, faults: set<Uuid>)
    requires picked <= s.rows.Keys && forall id | id in picked :: s.rows[id].attempts < 0x7FFF_FFFF
  {
    fate.Committed? && !RejectsWrite(kind, s.rows, picked, token, s.now, faults)
  }

  /** `finish_batch`. */
  function Report(count: nat, errors: seq<Text>): Result<nat, seq<Text>> {
    if errors == [] then Ok(count) else Err(errors)
  }

  lemma BatchFitsSelection(kind: Kind, rows: Rows, picked: set<Uuid>, token: Uuid, batch: seq<Envelope>)
    requires IsHealthyBatch(kind, rows, picked, token, batch)
    ensures |batch| <= |picked|
  {
    IdsFit(batch, picked);
  }

  lemma {:induction false} IdsFit(batch: seq<Envelope>, ids: set<Uuid>)
    requires forall j, k | 0 <= j < k < |batch| :: batch[j].id != batch[k].id
    requires forall k | 0 <= k < |batch| :: batch[k].id in ids
    ensures |batch| <= |ids|
  {
    if batch != [] {
      IdsFit(batch[..|batch| - 1], ids - {batch[|batch| - 1].id});
    }
  }
}
