/** The two views of one item agree: what the item boundary does to the queue is what its pass does, step
    by step, among any steps of the other passes and of everyone else. */
module Passes {
  import opened Base
  import opened Metadata
  import opened Queue
  import opened Leases
  import opened Consumer
  import opened Workers

  function NodeRun(kind: Kind, n: Node, actions: seq<Action>): Node {
    if actions == [] then n else Step(kind, NodeRun(kind, n, actions[..|actions| - 1]), actions[|actions| - 1])
  }

  /** Everything but this pass's own steps. */
  predicate Foreign(a: Action, lease: Lease) {
    match a
    case Others(_) => true
    case Work(l, _) => l != lease
    case Finish(l, _) => l != lease
    case GiveUp(l, _, _) => l != lease
  }

  predicate AllForeign(actions: seq<Action>, lease: Lease) {
    forall i | 0 <= i < |actions| :: Foreign(actions[i], lease)
  }

  /** What an action does to the queue. */
  function EventsOf(n: Node, a: Action): seq<Event> {
    match a
    case Others(e) => if e.Complete? || e.Fail? then [] else [e]
    case Work(_, _) => []
    case Finish(l, call) => if At(n, l, true) then FinalizeEvents(call, Complete(l.id, l.token)) else []
    case GiveUp(l, call, max) => if At(n, l, false) then FinalizeEvents(call, Fail(l.id, l.token, max, Some(n.items[l].cause))) else []
  }

  function RunEvents(kind: Kind, n: Node, actions: seq<Action>): seq<Event> {
    if actions == [] then []
    else
      var init := actions[..|actions| - 1];
      RunEvents(kind, n, init) + EventsOf(NodeRun(kind, n, init), actions[|actions| - 1])
  }

  /** How the item's own calls end and what its work produces, and what everyone else does before its first
      finalization and between its two. */
  datatype ActionPlan = ActionPlan(before: seq<Action>, work: Outcome, outputs: seq<Output>, complete: DbCall, between: seq<Action>, fail: DbCall)

  function WorkOf(lease: Lease, work: Outcome, outputs: seq<Output>): Result<seq<Output>, Text> {
    match Guard(work, PanicError(lease.id, lease.token, "processing"))
    case Ok(_) => Ok(outputs)
    case Err(cause) => Err(ReasonFor(lease, "processing", cause))
  }

  /** Others act, the work returns, the completion is tried. */
  function Tried(lease: Lease, actions: ActionPlan): seq<Action> {
    actions.before + [Work(lease, WorkOf(lease, actions.work, actions.outputs)), Finish(lease, actions.complete)]
  }

  /** The item boundary's plan when these others act around it. */
  function PlanOf(kind: Kind, n: Node, lease: Lease, actions: ActionPlan): Plan {
    Plan(RunEvents(kind, n, actions.before), actions.work, actions.complete,
         RunEvents(kind, NodeRun(kind, n, Tried(lease, actions)), actions.between), actions.fail)
  }

  /** The pass of the item: if work or completion fails, others act again and the failure is recorded. */
  function PassActions(kind: Kind, n: Node, lease: Lease, max: I32, actions: ActionPlan): seq<Action> {
    Tried(lease, actions)
    + if MainResult(kind, n.queue, lease.id, lease.token, PlanOf(kind, n, lease, actions)).Ok? then []
      else actions.between + [GiveUp(lease, actions.fail, max)]
  }

  lemma {:induction false} NodeRunAppend(kind: Kind, n: Node, actions: seq<Action>, more: seq<Action>)
    ensures NodeRun(kind, n, actions + more) == NodeRun(kind, NodeRun(kind, n, actions), more)
  {
    if more == [] {
      assert actions + more == actions;
    } else {
      assert (actions + more)[..|actions + more| - 1] == actions + more[..|more| - 1];
      NodeRunAppend(kind, n, actions, more[..|more| - 1]);
    }
  }

  lemma {:induction false} NodeRunKeepsInv(kind: Kind, n: Node, actions: seq<Action>)
    requires NodeInv(kind, n)
    ensures NodeInv(kind, NodeRun(kind, n, actions))
  {
    if actions != [] {
      NodeRunKeepsInv(kind, n, actions[..|actions| - 1]);
      StepKeepsInv(kind, NodeRun(kind, n, actions[..|actions| - 1]), actions[|actions| - 1]);
    }
  }

  /** One step of anyone else: it acts on the queue by its events and leaves this pass where it is. */
  lemma ForeignStep(kind: Kind, n: Node, a: Action, lease: Lease)
    requires NodeInv(kind, n) && Foreign(a, lease) && lease in n.items
    ensures var after := Step(kind, n, a);
            after.queue == Exec(kind, n.queue, EventsOf(n, a)) && lease in after.items && after.items[lease] == n.items[lease]
  {
    hide Next, Started, NodeInv, FinalizeResult, Exec;
    ExecNothing(kind, n.queue);
    match a
    case Others(e) => OthersKeepPhase(kind, n, e, lease); ExecOne(kind, n.queue, e);
    case Work(_, _) =>
    case Finish(l, _) => ExecOne(kind, n.queue, Complete(l.id, l.token));
    case GiveUp(l, _, max) => if At(n, l, false) { ExecOne(kind, n.queue, Fail(l.id, l.token, max, Some(n.items[l].cause))); }
  }

  lemma OthersKeepPhase(kind: Kind, n: Node, e: Event, lease: Lease)
    requires NodeInv(kind, n) && lease in n.items
    ensures lease !in Started(kind, n.queue, e)
  {
    hide Next, Started, TouchOf, RowBacked;
    assert ItemBacked(n, lease);
    StartedIsClaimed(kind, n.queue, e, lease);
  }

  lemma {:induction false} ForeignRun(kind: Kind, n: Node, actions: seq<Action>, lease: Lease)
    requires NodeInv(kind, n) && AllForeign(actions, lease) && lease in n.items
    ensures var after := NodeRun(kind, n, actions);
            after.queue == Exec(kind, n.queue, RunEvents(kind, n, actions)) && lease in after.items && after.items[lease] == n.items[lease]
  {
    hide NodeInv, Step, Foreign, EventsOf, Exec;
    ExecNothing(kind, n.queue);
    if actions != [] {
      var init, last := actions[..|actions| - 1], actions[|actions| - 1];
      var before := NodeRun(kind, n, init);
      ForeignRun(kind, n, init, lease);
      NodeRunKeepsInv(kind, n, init);
      assert Foreign(last, lease);
      ForeignStep(kind, before, last, lease);
      ExecAppend(kind, n.queue, RunEvents(kind, n, init), EventsOf(before, last));
    }
  }

  lemma NodeRunTwo(kind: Kind, n: Node, a: Action, b: Action)
    ensures NodeRun(kind, n, [a, b]) == Step(kind, Step(kind, n, a), b)
    ensures NodeRun(kind, n, [b]) == Step(kind, n, b)
  {
    assert [a, b][..1] == [a] && [a][..0] == [] && [b][..0] == [];
    assert NodeRun(kind, n, [a]) == Step(kind, n, a);
  }

  /** Work and completion of one pass. */
  lemma PassFinishes(kind: Kind, n: Node, lease: Lease, plan: Plan, outputs: seq<Output>)
    requires lease in n.items && n.items[lease].Pending?
    ensures var work := WorkResult(lease.id, lease.token, plan);
            var after := Step(kind, Step(kind, n, Work(lease, WorkOf(lease, plan.work, outputs))), Finish(lease, plan.complete));
            var main := if work.Ok? then FinalizeResult(n.queue, lease.id, lease.token, plan.complete, "completion") else work;
            && after.queue == (if work.Ok? && !plan.complete.fate.RolledBack? then Next(kind, n.queue, Complete(lease.id, lease.token)) else n.queue)
            && lease in after.items
            && after.items[lease] == if main.Ok? then Finished else Broken(ReasonFor(lease, StageOf(lease.id, lease.token, plan), main.error))
  {
    hide Next;
  }

  lemma CompletionIsEvents(kind: Kind, s: State, lease: Lease, plan: Plan)
    ensures Exec(kind, s, CompletionEvents(lease.id, lease.token, plan))
            == if WorkResult(lease.id, lease.token, plan).Ok? && !plan.complete.fate.RolledBack?
               then Next(kind, Exec(kind, s, plan.before), Complete(lease.id, lease.token)) else Exec(kind, s, plan.before)
  {
    ExecAppend(kind, s, plan.before, FinalizeEvents(plan.complete, Complete(lease.id, lease.token)));
    ExecOne(kind, Exec(kind, s, plan.before), Complete(lease.id, lease.token));
  }

  /** Running an item is a run of its pass: whatever all other passes, workers and sweepers do meanwhile, both
      change the queue in the same way, the pass ends, and its completion ends it exactly when the item reports
      no error. */
  lemma RunItemIsAPass(kind: Kind, n: Node, lease: Lease, max: I32, actions: ActionPlan)
    requires NodeInv(kind, n) && lease in n.items && n.items[lease].Pending?
    requires AllForeign(actions.before, lease) && AllForeign(actions.between, lease)
    ensures NodeRun(kind, n, PassActions(kind, n, lease, max, actions)).queue
            == Exec(kind, n.queue, ItemEvents(kind, n.queue, lease.id, lease.token, max, PlanOf(kind, n, lease, actions)))
    ensures var tried := NodeRun(kind, n, Tried(lease, actions)).items;
            lease in tried && (tried[lease].Finished? <==> ItemErrors(kind, n.queue, lease.id, lease.token, PlanOf(kind, n, lease, actions)) == [])
    ensures var ended := NodeRun(kind, n, PassActions(kind, n, lease, max, actions)).items;
            lease in ended && ended[lease].Finished?
  {
    hide NodeInv, Next, Step, FinalizeResult, AllForeign, RunEvents;
    var id, token, plan := lease.id, lease.token, PlanOf(kind, n, lease, actions);
    var at := NodeRun(kind, n, actions.before);
    var own := [Work(lease, WorkOf(lease, actions.work, actions.outputs)), Finish(lease, actions.complete)];
    ForeignRun(kind, n, actions.before, lease);
    PassFinishes(kind, at, lease, plan, actions.outputs);
    CompletionIsEvents(kind, n.queue, lease, plan);
    NodeRunAppend(kind, n, actions.before, own);
    NodeRunTwo(kind, at, own[0], own[1]);
    var tried := Tried(lease, actions);
    var main := MainResult(kind, n.queue, id, token, plan);
    if main.Ok? {
      assert tried + [] == tried;
    } else {
      NodeRunKeepsInv(kind, n, tried);
      NodeRunAppend(kind, n, tried, actions.between + [GiveUp(lease, actions.fail, max)]);
      ExecAppend(kind, n.queue, CompletionEvents(id, token, plan), FailureEvents(id, token, max, plan, main.error));
      PassGivesUp(kind, NodeRun(kind, n, tried), lease, max, actions, plan, main.error);
    }
  }

  lemma PassGivesUp(kind: Kind, n: Node, lease: Lease, max: I32, actions: ActionPlan, plan: Plan, cause: Text)
    requires NodeInv(kind, n) && lease in n.items && AllForeign(actions.between, lease)
    requires n.items[lease] == Broken(ReasonFor(lease, StageOf(lease.id, lease.token, plan), cause))
    requires plan.between == RunEvents(kind, n, actions.between) && plan.fail == actions.fail
    ensures NodeRun(kind, n, actions.between + [GiveUp(lease, actions.fail, max)]).queue
            == Exec(kind, n.queue, FailureEvents(lease.id, lease.token, max, plan, cause))
    ensures var items := NodeRun(kind, n, actions.between + [GiveUp(lease, actions.fail, max)]).items;
            lease in items && items[lease].Finished?
  {
    hide NodeInv, Next, AllForeign, RunEvents;
    var giveUp := GiveUp(lease, actions.fail, max);
    var at := NodeRun(kind, n, actions.between);
    var e := Fail(lease.id, lease.token, max, Some(ReasonFor(lease, StageOf(lease.id, lease.token, plan), cause)));
    ForeignRun(kind, n, actions.between, lease);
    NodeRunAppend(kind, n, actions.between, [giveUp]);
    NodeRunTwo(kind, at, giveUp, giveUp);
    ExecAppend(kind, n.queue, plan.between, FinalizeEvents(actions.fail, e));
    ExecOne(kind, Exec(kind, n.queue, plan.between), e);
  }
}
