/** The consumers: the unwind boundary around one item, and the batch loop that all four queues share. */
module Consumer {
  import opened Base
  import opened Metadata
  import opened Queue
  import opened Repository

  /** How a call ends: it returns, or it unwinds. */
  datatype Outcome = Returned(result: Result<(), Text>) | Panicked

  /** A call that finalizes in the database: the transaction's fate, and whether the call then unwinds. */
  datatype DbCall = DbCall(fate: Fate, panics: bool)

  /** Everything outside the consumer's control while it runs one item: what the others do before the item's
      first finalization and between its two, and how its three calls end. */
  datatype Plan = Plan(before: seq<Event>, work: Outcome, complete: DbCall, between: seq<Event>, fail: DbCall)

  function Display(e: Error): Text {
    match e
    case Storage => Lit("storage error")
    case Conversion => Lit("conversion error")
    case NotOwned(_, _) => Lit("reservation not owned")
  }

  function Guard(outcome: Outcome, panicError: Text): Result<(), Text> {
    match outcome
    case Returned(result) => result
    case Panicked => Err(panicError)
  }

  function PanicError(id: Uuid, token: Uuid, stage: string): Text {
    ItemText(id, token, stage, Lit("panicked"))
  }

  // ---------- what running an item means ----------

  function FinalizeResult(s: State, id: Uuid, token: Uuid, call: DbCall, stage: string): Result<(), Text> {
    if call.panics then Err(PanicError(id, token, stage))
    else if !call.fate.Committed? then Err(Display(Storage))
    else if Owned(s.rows, id, token) then Ok(())
    else Err(Display(NotOwned(id, token)))
  }

  function FinalizeEvents(call: DbCall, e: Event): seq<Event> {
    if call.fate.RolledBack? then [] else [e]
  }

  function WorkResult(id: Uuid, token: Uuid, plan: Plan): Result<(), Text> {
    Guard(plan.work, PanicError(id, token, "processing"))
  }

  /** The events up to and including the item's completion, if it gets that far. */
  function CompletionEvents(id: Uuid, token: Uuid, plan: Plan): seq<Event> {
    if WorkResult(id, token, plan).Ok? then plan.before + FinalizeEvents(plan.complete, Complete(id, token)) else plan.before
  }

  function StageOf(id: Uuid, token: Uuid, plan: Plan): string {
    if WorkResult(id, token, plan).Ok? then "completion" else "processing"
  }

  /** What work and completion together return. */
  function MainResult(kind: Kind, s: State, id: Uuid, token: Uuid, plan: Plan): Result<(), Text> {
    var work := WorkResult(id, token, plan);
    if work.Ok? then FinalizeResult(Exec(kind, s, plan.before), id, token, plan.complete, "completion") else work
  }

  function FailureEvents(id: Uuid, token: Uuid, max: I32, plan: Plan, cause: Text): seq<Event> {
    plan.between + FinalizeEvents(plan.fail, Fail(id, token, max, Some(ItemText(id, token, StageOf(id, token, plan), cause))))
  }

  /** The events an item's processing adds to the run, its own and the interleaved ones. */
  function ItemEvents(kind: Kind, s: State, id: Uuid, token: Uuid, max: I32, plan: Plan): seq<Event> {
    match MainResult(kind, s, id, token, plan)
    case Ok(_) => CompletionEvents(id, token, plan)
    case Err(cause) => CompletionEvents(id, token, plan) + FailureEvents(id, token, max, plan, cause)
  }

  /** The errors an item reports: none, its cause, or a finalization error followed by its cause. */
  function ItemErrors(kind: Kind, s: State, id: Uuid, token: Uuid, plan: Plan): seq<Text> {
    match MainResult(kind, s, id, token, plan)
    case Ok(_) => []
    case Err(cause) =>
      var finalization := FinalizeResult(Exec(kind, Exec(kind, s, CompletionEvents(id, token, plan)), plan.between),
                                         id, token, plan.fail, "failure finalization");
      if finalization.Err? then [finalization.error, cause] else [cause]
  }

  lemma FinalizationIsStep(kind: Kind, s: State, call: DbCall, e: Event)
    ensures Exec(kind, s, FinalizeEvents(call, e)) == if call.fate.RolledBack? then s else Next(kind, s, e)
  {
    ExecNothing(kind, s);
    ExecOne(kind, s, e);
  }

  /** What an item does to the queue and what it reports, from the outcomes of its three calls alone: nothing to
      report if work and completion succeed; otherwise the cause, after the finalization's own error if that
      failed too. */
  predicate Reports(kind: Kind, s: State, id: Uuid, token: Uuid, max: I32, plan: Plan, reported: seq<Text>, after: State) {
    var tried := Exec(kind, s, plan.before);
    var worked := plan.work.Returned? && plan.work.result.Ok?;
    var owned := id in tried.rows && tried.rows[id].status == Status.Reserved && tried.rows[id].token == Some(token);
    var completed := worked && !plan.complete.panics && plan.complete.fate.Committed? && owned;
    var left := Exec(kind, if worked && !plan.complete.fate.RolledBack? then Next(kind, tried, Complete(id, token)) else tried, plan.between);
    var leased := id in left.rows && left.rows[id].status == Status.Reserved && left.rows[id].token == Some(token);
    var failed := !plan.fail.panics && plan.fail.fate.Committed? && leased;
    var cause := if plan.work.Panicked? then ItemText(id, token, "processing", Lit("panicked"))
                 else if !worked then plan.work.result.error
                 else if plan.complete.panics then ItemText(id, token, "completion", Lit("panicked"))
                 else if !plan.complete.fate.Committed? then Lit("storage error")
                 else Lit("reservation not owned");
    var finalization := if plan.fail.panics then ItemText(id, token, "failure finalization", Lit("panicked"))
                        else if !plan.fail.fate.Committed? then Lit("storage error")
                        else Lit("reservation not owned");
    var reason := ItemText(id, token, if worked then "completion" else "processing", cause);
    && reported == (if completed then [] else if failed then [cause] else [finalization, cause])
    && after == if completed then Next(kind, tried, Complete(id, token))
         else if plan.fail.fate.RolledBack? then left
         else Next(kind, left, Fail(id, token, max, Some(reason)))
  }

  lemma ItemMeans(kind: Kind, s: State, id: Uuid, token: Uuid, max: I32, plan: Plan)
    ensures Reports(kind, s, id, token, max, plan, ItemErrors(kind, s, id, token, plan), Exec(kind, s, ItemEvents(kind, s, id, token, max, plan)))
  {
    hide Next, Exec;
    var work := WorkResult(id, token, plan);
    var tried := Exec(kind, s, plan.before);
    FinalizationIsStep(kind, tried, plan.complete, Complete(id, token));
    ExecAppend(kind, s, plan.before, FinalizeEvents(plan.complete, Complete(id, token)));
    var done := Exec(kind, s, CompletionEvents(id, token, plan));
    match MainResult(kind, s, id, token, plan)
    case Ok(_) =>
    case Err(cause) =>
      var e := Fail(id, token, max, Some(ItemText(id, token, StageOf(id, token, plan), cause)));
      ExecAppend(kind, s, CompletionEvents(id, token, plan), FailureEvents(id, token, max, plan, cause));
      ExecAppend(kind, done, plan.between, FinalizeEvents(plan.fail, e));
      FinalizationIsStep(kind, Exec(kind, done, plan.between), plan.fail, e);
  }

  /** When the work fails the item reports its cause last, and before it the failure's own error if that could
      not be recorded. */
  lemma NothingIsLost(kind: Kind, s: State, id: Uuid, token: Uuid, plan: Plan)
    ensures var reported := ItemErrors(kind, s, id, token, plan);
            && (plan.work.Panicked? ==> reported != [] && reported[|reported| - 1] == ItemText(id, token, "processing", Lit("panicked")))
            && (plan.work.Returned? && plan.work.result.Err? ==> reported != [] && reported[|reported| - 1] == plan.work.result.error)
            && ((plan.work.Panicked? || plan.work.result.Err?) && (plan.fail.panics || !plan.fail.fate.Committed?) ==> |reported| == 2)
  {
    hide Exec, Next;
  }

  lemma AppendedReports(kind: Kind, s: State, id: Uuid, token: Uuid, max: I32, plan: Plan, errors: seq<Text>, all: seq<Text>)
    requires all == errors + ItemErrors(kind, s, id, token, plan)
    ensures |errors| <= |all| && all[..|errors|] == errors
    ensures Reports(kind, s, id, token, max, plan, all[|errors|..], Exec(kind, s, ItemEvents(kind, s, id, token, max, plan)))
    ensures plan.work.Panicked? ==> |all| > |errors| && all[|all| - 1] == ItemText(id, token, "processing", Lit("panicked"))
    ensures plan.work.Returned? && plan.work.result.Err? ==> |all| > |errors| && all[|all| - 1] == plan.work.result.error
    ensures (plan.work.Panicked? || plan.work.result.Err?) && (plan.fail.panics || !plan.fail.fate.Committed?) ==> |all| == |errors| + 2
  {
    hide Reports, ItemErrors, ItemEvents, Exec;
    ItemMeans(kind, s, id, token, max, plan);
    NothingIsLost(kind, s, id, token, plan);
    assert all[|errors|..] == ItemErrors(kind, s, id, token, plan);
  }

  /** `complete` inside the unwind boundary. */
  method GuardedComplete(repository: Repository, id: Uuid, token: Uuid, call: DbCall) returns (result: Result<(), Text>)
    modifies repository
    ensures repository.State() == Exec(repository.kind, old(repository.State()), FinalizeEvents(call, Complete(id, token)))
    ensures result == FinalizeResult(old(repository.State()), id, token, call, "completion")
  {
    ExecOne(repository.kind, repository.State(), Complete(id, token));
    var completed := repository.Completed(id, token, call.fate);
    var outcome := if call.panics then Panicked else Returned(if completed.Ok? then Ok(()) else Err(Display(completed.error)));
    result := Guard(outcome, PanicError(id, token, "completion"));
  }

  /** `fail` inside the unwind boundary. */
  method GuardedFail(repository: Repository, id: Uuid, token: Uuid, max: I32, reason: Text, call: DbCall) returns (result: Result<(), Text>)
    modifies repository
    ensures repository.State() == Exec(repository.kind, old(repository.State()), FinalizeEvents(call, Fail(id, token, max, Some(reason))))
    ensures result == FinalizeResult(old(repository.State()), id, token, call, "failure finalization")
  {
    ExecOne(repository.kind, repository.State(), Fail(id, token, max, Some(reason)));
    var failed := repository.Failed(id, token, max, Some(reason), call.fate);
    var outcome := if call.panics then Panicked else Returned(if failed.Ok? then Ok(()) else Err(Display(failed.error)));
    result := Guard(outcome, PanicError(id, token, "failure finalization"));
  }

  /** Run one item: work, then complete; on any error or panic, fail with the stage in the reason. */
  method RunItem(repository: Repository, id: Uuid, token: Uuid, max: I32, plan: Plan, errors: seq<Text>) returns (all: seq<Text>)
    modifies repository
    ensures repository.State() == Exec(repository.kind, old(repository.State()), ItemEvents(repository.kind, old(repository.State()), id, token, max, plan))
    ensures all == errors + ItemErrors(repository.kind, old(repository.State()), id, token, plan)
    ensures |errors| <= |all| && all[..|errors|] == errors
    ensures Reports(repository.kind, old(repository.State()), id, token, max, plan, all[|errors|..], repository.State())
    ensures plan.work.Panicked? ==> |all| > |errors| && all[|all| - 1] == ItemText(id, token, "processing", Lit("panicked"))
    ensures plan.work.Returned? && plan.work.result.Err? ==> |all| > |errors| && all[|all| - 1] == plan.work.result.error
    ensures (plan.work.Panicked? || plan.work.result.Err?) && (plan.fail.panics || !plan.fail.fate.Committed?) ==> |all| == |errors| + 2
  {
    ghost var kind, s := repository.kind, repository.State();
    hide Reports, Exec, Next, FinalizeEvents, FinalizeResult;
    repository.Interfere(plan.before);
    var stage := "processing";
    var result := Guard(plan.work, PanicError(id, token, stage));
    if result.Ok? {
      stage := "completion";
      result := GuardedComplete(repository, id, token, plan.complete);
      ExecAppend(kind, s, plan.before, FinalizeEvents(plan.complete, Complete(id, token)));
    }
    all := errors;
    if result.Err? {
      var finalization := FailItem(repository, id, token, max, plan, stage, result.error);
      ExecAppend(kind, s, CompletionEvents(id, token, plan), FailureEvents(id, token, max, plan, result.error));
      if finalization.Err? {
        all := all + [finalization.error];
      }
      all := all + [result.error];
    }
    AppendedReports(kind, s, id, token, max, plan, errors, all);
  }

  method FailItem(repository: Repository, id: Uuid, token: Uuid, max: I32, plan: Plan, stage: string, cause: Text)
    returns (finalization: Result<(), Text>)
    requires stage == StageOf(id, token, plan)
    modifies repository
    ensures repository.State() == Exec(repository.kind, old(repository.State()), FailureEvents(id, token, max, plan, cause))
    ensures finalization == FinalizeResult(Exec(repository.kind, old(repository.State()), plan.between), id, token, plan.fail, "failure finalization")
  {
    var reason := ItemText(id, token, stage, cause);
    ExecAppend(repository.kind, repository.State(), plan.between, FinalizeEvents(plan.fail, Fail(id, token, max, Some(reason))));
    repository.Interfere(plan.between);
    finalization := GuardedFail(repository, id, token, max, reason, plan.fail);
  }

  lemma ExecOne(kind: Kind, s: State, e: Event)
    ensures Exec(kind, s, [e]) == Next(kind, s, e)
  {
    assert [e][..0] == [];
  }
}
