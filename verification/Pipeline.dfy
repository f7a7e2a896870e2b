/** The persistent kernel end to end: broker deliveries are stored in the inbox, its messages become commands,
    commands' handlers record events, events reach their subscribers. A run interleaves any steps of the three
    queues, of the passes over their rows, of any number of intake workers, and of whoever else records
    messages and commands. */
module Pipeline {
  import opened Base
  import opened Metadata
  import opened Queue
  import opened Ledger
  import opened Workers
  import opened Lineage
  import opened Links
  import opened Kernel
  import Intake

  /** `log` lists the broker's deliveries; `forward` links inbox and commands, `execute` commands and events;
      `served` remembers which subscribers returned Ok to each pass over an event, in the order of the calls. */
  datatype Sys = Sys(log: seq<Intake.Handled>, inbox: Node, forward: Bridge, commands: Node, execute: Bridge, events: Node,
                     served: map<Lease, seq<Subscription>>)

  datatype SysAction =
    | InboxDo(a: Action)
    | CommandsDo(a: Action)
    | EventsDo(a: Action)
    | ForwardDo(m: Move)
    | ExecuteDo(m: Move)
    | Receive(turn: Intake.Turn)
    | CallNext(lease: Lease, ok: bool)
    | EndCalls(lease: Lease)

  const EMPTY := Node(State(map[], 0, {}), map[], map[])

  const START := Sys([], EMPTY, Bridge(map[], map[]), EMPTY, Bridge(map[], map[]), EMPTY, map[])

  /** A pass's work returns Ok only through the link; it may fail or panic at any moment. */
  predicate Direct(a: Action) {
    !(a.Work? && a.result.Ok?)
  }

  predicate IsRecord(a: Action) {
    a.Others? && a.e.Record?
  }

  /** The inbox after an intake worker's turn. */
  function AfterTurn(n: Node, turn: Intake.Turn): Node
    requires turn.Receive?
  {
    if turn.delivery.utf8 && !turn.fate.RolledBack? then Step(Inbox, n, Others(Intake.StoreEvent(turn))) else n
  }

  /** Who must answer a pass over an event, and who has. */
  function Audience(subscriptions: seq<Subscription>, s: Sys, lease: Lease): seq<Subscription>
    requires lease.id in s.events.queue.rows
  {
    SubscribersOf(subscriptions, s.events.queue.rows[lease.id].route)
  }

  function ServedBy(s: Sys, lease: Lease): seq<Subscription> {
    if lease in s.served then s.served[lease] else []
  }

  function CallFailed(lease: Lease): Result<seq<Output>, Text> {
    Err(ReasonFor(lease, "processing", Lit("subscriber failed")))
  }

  function ForwardPair(s: Sys): Pair {
    Pair(s.inbox, s.forward, s.commands)
  }

  function ExecutePair(s: Sys): Pair {
    Pair(s.commands, s.execute, s.events)
  }

  function SysNext(subscriptions: seq<Subscription>, s: Sys, action: SysAction): Sys {
    match action
    case InboxDo(a) => if Direct(a) then s.(inbox := Step(Inbox, s.inbox, a)) else s
    case CommandsDo(a) => if Direct(a) then s.(commands := Step(Commands, s.commands, a)) else s
    case EventsDo(a) => if Direct(a) && !IsRecord(a) then s.(events := Step(Events, s.events, a)) else s
    case ForwardDo(m) =>
      var p := Advance(Inbox, ForwardPair(s), m);
      s.(inbox := p.up, forward := p.bridge, commands := p.down)
    case ExecuteDo(m) =>
      var p := Advance(Commands, ExecutePair(s), m);
      s.(commands := p.up, execute := p.bridge, events := p.down)
    case Receive(turn) =>
      if !turn.Receive? || turn.others != [] then s
      else s.(log := Intake.TurnEffect(Intake.World(s.inbox.queue, s.log), turn).log, inbox := AfterTurn(s.inbox, turn))
    case CallNext(lease, ok) =>
      if !Working(s.events, lease) || |ServedBy(s, lease)| >= |Audience(subscriptions, s, lease)| then s
      else if ok then
        s.(served := s.served[lease := ServedBy(s, lease) + [Audience(subscriptions, s, lease)[|ServedBy(s, lease)|]]])
      else
        s.(events := Step(Events, s.events, Work(lease, CallFailed(lease))))
    case EndCalls(lease) =>
      if !Working(s.events, lease) || |ServedBy(s, lease)| != |Audience(subscriptions, s, lease)| then s
      else s.(events := Step(Events, s.events, Work(lease, Ok([]))), served := s.served[lease := ServedBy(s, lease)])
  }

  function Run(subscriptions: seq<Subscription>, s: Sys, actions: seq<SysAction>): Sys {
    if actions == [] then s
    else SysNext(subscriptions, Run(subscriptions, s, actions[..|actions| - 1]), actions[|actions| - 1])
  }

  // ---------- the invariant ----------

  ghost predicate NodesInv(s: Sys) {
    NodeInv(Inbox, s.inbox) && NodeInv(Commands, s.commands) && NodeInv(Events, s.events)
  }

  predicate LinksInv(s: Sys) {
    LinkInv(Inbox, ForwardPair(s)) && LinkInv(Commands, ExecutePair(s))
  }

  predicate NoOrphans(s: Sys) {
    s.events.queue.rows.Keys <= s.execute.origin.Keys
  }

  predicate IsServed(subscriptions: seq<Subscription>, s: Sys, lease: Lease) {
    && lease in s.served && lease.id in s.events.queue.rows
    && s.served[lease] == SubscribersOf(subscriptions, s.events.queue.rows[lease.id].route)
  }

  /** Subscribers answer in registration order, none left out. */
  predicate InOrder(subscriptions: seq<Subscription>, s: Sys, lease: Lease) {
    && lease.id in s.events.queue.rows && |ServedBy(s, lease)| <= |Audience(subscriptions, s, lease)|
    && ServedBy(s, lease) == Audience(subscriptions, s, lease)[..|ServedBy(s, lease)|]
  }

  predicate AllServed(subscriptions: seq<Subscription>, s: Sys) {
    && (forall lease | lease in s.served :: InOrder(subscriptions, s, lease))
    && (forall lease | lease in s.events.outputs :: IsServed(subscriptions, s, lease))
  }

  predicate NothingLost(s: Sys) {
    Intake.NothingLost(Intake.World(s.inbox.queue, s.log))
  }

  ghost predicate SysInv(subscriptions: seq<Subscription>, s: Sys) {
    NodesInv(s) && LinksInv(s) && NoOrphans(s) && AllServed(subscriptions, s) && NothingLost(s)
  }

  lemma StartInv(subscriptions: seq<Subscription>)
    ensures SysInv(subscriptions, START)
  {
    EmptyNodeInv(Inbox, 0);
    EmptyNodeInv(Commands, 0);
    EmptyNodeInv(Events, 0);
  }

  // ---------- what a move changes on either side ----------

  lemma StepAddsNoRows(kind: Kind, n: Node, a: Action, id: Uuid)
    requires NodeInv(kind, n) && !IsRecord(a) && id in Step(kind, n, a).queue.rows
    ensures id in n.queue.rows
  {
    hide Next, Started, RowBacked, Recorded;
    if id !in n.queue.rows {
      match a
      case Others(e) => RowsAppearOnlyByRecord(kind, n.queue, e, id);
      case Work(_, _) =>
      case Finish(lease, _) => RowsAppearOnlyByRecord(kind, n.queue, Complete(lease.id, lease.token), id);
      case GiveUp(lease, _, max) =>
        if At(n, lease, false) {
          RowsAppearOnlyByRecord(kind, n.queue, Fail(lease.id, lease.token, max, Some(n.items[lease].cause)), id);
        }
    }
  }

  predicate OriginGrows(before: Bridge, after: Bridge, earlier: set<Uuid>, rows: set<Uuid>) {
    before.origin.Keys <= after.origin.Keys && rows <= earlier + after.origin.Keys
  }

  lemma AdvanceGrows(kind: Kind, p: Pair, m: Move)
    requires NodeInv(kind, p.up) && NodeInv(Target(kind), p.down)
    ensures var after := Advance(kind, p, m);
            && Grows(p.up, after.up) && Grows(p.down, after.down) && after.down.outputs == p.down.outputs
            && OriginGrows(p.bridge, after.bridge, p.down.queue.rows.Keys, after.down.queue.rows.Keys)
  {
    hide NodeInv, Step, Produce, Grows;
    GrowsReflexive(p.up);
    GrowsReflexive(p.down);
    if Working(p.up, m.lease) {
      match m
      case Begin(lease, job) =>
        if lease !in p.bridge.progress && Produce(kind, p.up.queue.rows[lease.id], job).Err? {
          StepGrows(kind, p.up, Work(lease, Err(ReasonFor(lease, "processing", Produce(kind, p.up.queue.rows[lease.id], job).error))));
        }
      case StoreNext(lease, fate) =>
        if CanStore(p, lease) {
          StepGrows(kind, p.up, Work(lease, Err(ProcessingError(lease))));
          var output := p.bridge.progress[lease].outputs[p.bridge.progress[lease].stored];
          RecordGrows(Target(kind), p.down, output);
        }
      case End(lease) =>
        if lease in p.bridge.progress {
          StepGrows(kind, p.up, Work(lease, Ok(p.bridge.progress[lease].outputs)));
        }
    }
  }

  lemma RecordGrows(kind: Kind, n: Node, output: Output)
    requires NodeInv(kind, n)
    ensures var after := Step(kind, n, Others(Event.Record(output.id, output.row)));
            && Grows(n, after) && after.outputs == n.outputs
            && after.queue.rows.Keys <= n.queue.rows.Keys + {output.id}
  {
    var e := Event.Record(output.id, output.row);
    StepGrows(kind, n, Others(e));
    hide NodeInv, Grows;
    forall id | id in Step(kind, n, Others(e)).queue.rows ensures id in n.queue.rows || id == output.id {
    }
  }

  // ---------- every action keeps the invariant ----------

  lemma InboxStepKeepsInv(subscriptions: seq<Subscription>, s: Sys, a: Action)
    requires SysInv(subscriptions, s) && Direct(a)
    ensures SysInv(subscriptions, s.(inbox := Step(Inbox, s.inbox, a)))
  {
    hide NodeInv, LinkInv, Step, Grows, AllServed, NothingLost;
    StepKeepsInv(Inbox, s.inbox, a);
    StepGrows(Inbox, s.inbox, a);
    GrowsReflexive(s.commands);
    LinkSurvives(Inbox, ForwardPair(s), Step(Inbox, s.inbox, a), s.commands);
    LogSurvives(s, s.(inbox := Step(Inbox, s.inbox, a)));
    GrowsReflexive(s.events);
    ServedSurvives(subscriptions, s, s.(inbox := Step(Inbox, s.inbox, a)));
  }

  /** Deliveries stay stored, whatever happens to the inbox. */
  lemma LogSurvives(s: Sys, after: Sys)
    requires NothingLost(s) && NodeInv(Inbox, after.inbox) && Grows(s.inbox, after.inbox) && after.log == s.log
    ensures NothingLost(after)
  {
    forall i | 0 <= i < |s.log| ensures Intake.NotLost(s.log[i], after.inbox.queue.rows) {
      assert Intake.NotLost(s.log[i], s.inbox.queue.rows);
    }
  }

  lemma ReceivedIsTurn(n: Node, log: seq<Intake.Handled>, turn: Intake.Turn)
    requires turn.Receive? && turn.others == []
    ensures Intake.TurnEffect(Intake.World(n.queue, log), turn).queue == AfterTurn(n, turn).queue
  {
    ExecNothing(Inbox, n.queue);
    if turn.delivery.utf8 && !turn.fate.RolledBack? {
      assert Intake.StoreEvents(turn) == [] + [Intake.StoreEvent(turn)];
      ExecAppendOne(Inbox, n.queue, [], Intake.StoreEvent(turn));
    } else {
      assert Intake.StoreEvents(turn) == [];
    }
  }

  lemma ReceiveKeepsInv(subscriptions: seq<Subscription>, s: Sys, turn: Intake.Turn)
    requires SysInv(subscriptions, s)
    ensures SysInv(subscriptions, SysNext(subscriptions, s, Receive(turn)))
  {
    hide NodeInv, LinkInv, AllServed, AfterTurn;
    if turn.Receive? && turn.others == [] {
      var w := Intake.World(s.inbox.queue, s.log);
      Intake.TurnLosesNothing(w, turn);
      ReceivedIsTurn(s.inbox, s.log, turn);
      assert Intake.TurnEffect(w, turn).queue == AfterTurn(s.inbox, turn).queue;
      hide NothingLost;
      ReceivedKeepsRest(subscriptions, s, turn);
    }
  }

  /** All but the log. */
  lemma ReceivedKeepsRest(subscriptions: seq<Subscription>, s: Sys, turn: Intake.Turn)
    requires SysInv(subscriptions, s) && turn.Receive?
    ensures var after := s.(inbox := AfterTurn(s.inbox, turn));
            NodesInv(after) && LinksInv(after) && NoOrphans(after)
    ensures forall log :: AllServed(subscriptions, Sys(log, AfterTurn(s.inbox, turn), s.forward, s.commands, s.execute, s.events, s.served))
  {
    hide NodeInv, LinkInv, Step;
    if turn.delivery.utf8 && !turn.fate.RolledBack? {
      InboxStepKeepsInv(subscriptions, s, Others(Intake.StoreEvent(turn)));
    }
    forall log ensures AllServed(subscriptions, Sys(log, AfterTurn(s.inbox, turn), s.forward, s.commands, s.execute, s.events, s.served)) {
      GrowsReflexive(s.events);
      ServedSurvives(subscriptions, s, Sys(log, AfterTurn(s.inbox, turn), s.forward, s.commands, s.execute, s.events, s.served));
    }
  }

  lemma CommandsStepKeepsInv(subscriptions: seq<Subscription>, s: Sys, a: Action)
    requires SysInv(subscriptions, s) && Direct(a)
    ensures SysInv(subscriptions, s.(commands := Step(Commands, s.commands, a)))
  {
    hide NodeInv, LinkInv, Step, Grows, AllServed, NothingLost;
    var commands := Step(Commands, s.commands, a);
    GrowsReflexive(s.inbox);
    LogSurvives(s, s.(commands := commands));
    GrowsReflexive(s.events);
    ServedSurvives(subscriptions, s, s.(commands := commands));
    StepKeepsInv(Commands, s.commands, a);
    StepGrows(Commands, s.commands, a);
    LinkSurvives(Inbox, ForwardPair(s), s.inbox, commands);
    LinkSurvives(Commands, ExecutePair(s), commands, s.events);
  }

  lemma ServedSurvives(subscriptions: seq<Subscription>, s: Sys, after: Sys)
    requires AllServed(subscriptions, s) && Grows(s.events, after.events)
    requires after.events.outputs == s.events.outputs && after.served == s.served
    ensures AllServed(subscriptions, after)
  {
    forall lease | lease in after.served ensures InOrder(subscriptions, after, lease) {
      assert InOrder(subscriptions, s, lease);
    }
    forall lease | lease in after.events.outputs ensures IsServed(subscriptions, after, lease) {
      assert IsServed(subscriptions, s, lease);
    }
  }

  lemma EventsStepKeepsInv(subscriptions: seq<Subscription>, s: Sys, a: Action)
    requires SysInv(subscriptions, s) && Direct(a) && !IsRecord(a)
    ensures SysInv(subscriptions, s.(events := Step(Events, s.events, a)))
  {
    hide NodeInv, LinkInv, Step, Grows, AllServed, NothingLost;
    var events := Step(Events, s.events, a);
    GrowsReflexive(s.inbox);
    LogSurvives(s, s.(events := events));
    StepKeepsInv(Events, s.events, a);
    StepGrows(Events, s.events, a);
    GrowsReflexive(s.commands);
    LinkSurvives(Commands, ExecutePair(s), s.commands, events);
    forall id | id in events.queue.rows ensures id in s.execute.origin {
      StepAddsNoRows(Events, s.events, a, id);
    }
    ServedSurvives(subscriptions, s, s.(events := events));
  }

  lemma ForwardKeepsInv(subscriptions: seq<Subscription>, s: Sys, m: Move)
    requires SysInv(subscriptions, s)
    ensures SysInv(subscriptions, SysNext(subscriptions, s, ForwardDo(m)))
  {
    hide NodeInv, LinkInv, Advance, Grows, AllServed, NothingLost;
    AdvanceKeepsLink(Inbox, ForwardPair(s), m);
    AdvanceGrows(Inbox, ForwardPair(s), m);
    GrowsReflexive(s.events);
    LogSurvives(s, SysNext(subscriptions, s, ForwardDo(m)));
    ServedSurvives(subscriptions, s, SysNext(subscriptions, s, ForwardDo(m)));
    LinkSurvives(Commands, ExecutePair(s), Advance(Inbox, ForwardPair(s), m).down, s.events);
  }

  lemma ExecuteKeepsInv(subscriptions: seq<Subscription>, s: Sys, m: Move)
    requires SysInv(subscriptions, s)
    ensures SysInv(subscriptions, SysNext(subscriptions, s, ExecuteDo(m)))
  {
    hide NodeInv, LinkInv, Advance, Grows, AllServed, NothingLost;
    AdvanceKeepsLink(Commands, ExecutePair(s), m);
    AdvanceGrows(Commands, ExecutePair(s), m);
    GrowsReflexive(s.inbox);
    LinkSurvives(Inbox, ForwardPair(s), s.inbox, Advance(Commands, ExecutePair(s), m).up);
    LogSurvives(s, SysNext(subscriptions, s, ExecuteDo(m)));
    ServedSurvives(subscriptions, s, SysNext(subscriptions, s, ExecuteDo(m)));
  }

  /** The work of a pass over an event returns: Ok only after every subscriber answered Ok. */
  lemma ReportKeepsInv(subscriptions: seq<Subscription>, s: Sys, lease: Lease, result: Result<seq<Output>, Text>)
    requires SysInv(subscriptions, s) && Working(s.events, lease)
    requires result.Ok? ==> ServedBy(s, lease) == Audience(subscriptions, s, lease)
    ensures var after := s.(events := Step(Events, s.events, Work(lease, result)),
                            served := if result.Ok? then s.served[lease := ServedBy(s, lease)] else s.served);
            SysInv(subscriptions, after)
  {
    hide NodeInv, LinkInv, AllServed, NothingLost, SubscribersOf;
    var events := Step(Events, s.events, Work(lease, result));
    StepKeepsInv(Events, s.events, Work(lease, result));
    WorkGrows(s.events, lease, result);
    GrowsReflexive(s.commands);
    LinkSurvives(Commands, ExecutePair(s), s.commands, events);
    GrowsReflexive(s.inbox);
    var after := s.(events := events, served := if result.Ok? then s.served[lease := ServedBy(s, lease)] else s.served);
    LogSurvives(s, after);
    ReportServes(subscriptions, s, lease, result);
  }

  lemma ReportServes(subscriptions: seq<Subscription>, s: Sys, lease: Lease, result: Result<seq<Output>, Text>)
    requires AllServed(subscriptions, s) && Working(s.events, lease)
    requires result.Ok? ==> ServedBy(s, lease) == Audience(subscriptions, s, lease)
    ensures AllServed(subscriptions, s.(events := Step(Events, s.events, Work(lease, result)),
                                        served := if result.Ok? then s.served[lease := ServedBy(s, lease)] else s.served))
  {
    hide SubscribersOf;
    var after := s.(events := Step(Events, s.events, Work(lease, result)),
                    served := if result.Ok? then s.served[lease := ServedBy(s, lease)] else s.served);
    forall l | l in after.served ensures InOrder(subscriptions, after, l) {
      assert l in s.served ==> InOrder(subscriptions, s, l);
    }
    forall l | l in after.events.outputs ensures IsServed(subscriptions, after, l) {
      assert l in s.events.outputs ==> IsServed(subscriptions, s, l);
    }
  }

  lemma CallKeepsInv(subscriptions: seq<Subscription>, s: Sys, lease: Lease, ok: bool)
    requires SysInv(subscriptions, s)
    ensures SysInv(subscriptions, SysNext(subscriptions, s, CallNext(lease, ok)))
  {
    hide NodeInv, LinkInv, SubscribersOf, Step, AllServed, NothingLost;
    if Working(s.events, lease) && |ServedBy(s, lease)| < |Audience(subscriptions, s, lease)| {
      if ok {
        var after := SysNext(subscriptions, s, CallNext(lease, ok));
        WorkingIsUnreported(Events, s.events, lease);
        OneMoreServed(subscriptions, s, lease);
        GrowsReflexive(s.inbox);
        LogSurvives(s, after);
      } else {
        ReportKeepsInv(subscriptions, s, lease, CallFailed(lease));
      }
    }
  }

  lemma OneMoreServed(subscriptions: seq<Subscription>, s: Sys, lease: Lease)
    requires AllServed(subscriptions, s) && Working(s.events, lease) && lease !in s.events.outputs
    requires |ServedBy(s, lease)| < |Audience(subscriptions, s, lease)|
    ensures AllServed(subscriptions, s.(served := s.served[lease := ServedBy(s, lease) + [Audience(subscriptions, s, lease)[|ServedBy(s, lease)|]]]))
  {
    hide SubscribersOf;
    var after := s.(served := s.served[lease := ServedBy(s, lease) + [Audience(subscriptions, s, lease)[|ServedBy(s, lease)|]]]);
    forall l | l in after.served ensures InOrder(subscriptions, after, l) {
      assert l in s.served ==> InOrder(subscriptions, s, l);
    }
    forall l | l in after.events.outputs ensures IsServed(subscriptions, after, l) {
      assert IsServed(subscriptions, s, l);
    }
  }

  lemma EndKeepsInv(subscriptions: seq<Subscription>, s: Sys, lease: Lease)
    requires SysInv(subscriptions, s)
    ensures SysInv(subscriptions, SysNext(subscriptions, s, EndCalls(lease)))
  {
    hide NodesInv, LinksInv, NothingLost, Step, SubscribersOf;
    if Working(s.events, lease) && |ServedBy(s, lease)| == |Audience(subscriptions, s, lease)| {
      assert lease in s.served ==> InOrder(subscriptions, s, lease);
      ReportKeepsInv(subscriptions, s, lease, Ok([]));
    }
  }

  lemma WorkGrows(n: Node, lease: Lease, result: Result<seq<Output>, Text>)
    ensures Grows(n, Step(Events, n, Work(lease, result))) && Step(Events, n, Work(lease, result)).queue == n.queue
  {
  }

  lemma ActionKeepsInv(subscriptions: seq<Subscription>, s: Sys, action: SysAction)
    requires SysInv(subscriptions, s)
    ensures SysInv(subscriptions, SysNext(subscriptions, s, action))
  {
    hide SysInv, Advance, Step;
    match action
    case InboxDo(a) => if Direct(a) { InboxStepKeepsInv(subscriptions, s, a); }
    case CommandsDo(a) => if Direct(a) { CommandsStepKeepsInv(subscriptions, s, a); }
    case EventsDo(a) => if Direct(a) && !IsRecord(a) { EventsStepKeepsInv(subscriptions, s, a); }
    case ForwardDo(m) => ForwardKeepsInv(subscriptions, s, m);
    case ExecuteDo(m) => ExecuteKeepsInv(subscriptions, s, m);
    case Receive(turn) => ReceiveKeepsInv(subscriptions, s, turn);
    case CallNext(lease, ok) => CallKeepsInv(subscriptions, s, lease, ok);
    case EndCalls(lease) => EndKeepsInv(subscriptions, s, lease);
  }

  lemma {:induction false} RunKeepsSysInv(subscriptions: seq<Subscription>, actions: seq<SysAction>)
    ensures SysInv(subscriptions, Run(subscriptions, START, actions))
  {
    if actions == [] {
      StartInv(subscriptions);
    } else {
      RunKeepsSysInv(subscriptions, actions[..|actions| - 1]);
      ActionKeepsInv(subscriptions, Run(subscriptions, START, actions[..|actions| - 1]), actions[|actions| - 1]);
    }
  }

  // ---------- theorems over all runs ----------

  /** The states that some run of the assembled kernel reaches. */
  ghost predicate Reachable(subscriptions: seq<Subscription>, s: Sys) {
    exists actions :: s == Run(subscriptions, START, actions)
  }

  lemma ReachableIsInv(subscriptions: seq<Subscription>, s: Sys)
    requires Reachable(subscriptions, s)
    ensures SysInv(subscriptions, s)
  {
    var actions :| s == Run(subscriptions, START, actions);
    RunKeepsSysInv(subscriptions, actions);
  }

  /** At least once: a message never causes more commands than it has attempts, each carries its payload,
      type and correlation, and a Completed message caused at least one. */
  lemma InboxToCommands(subscriptions: seq<Subscription>, s: Sys, message: Uuid)
    requires Reachable(subscriptions, s) && message in s.inbox.queue.rows
    ensures var row := s.inbox.queue.rows[message];
            && |RowsFrom(s.forward, message)| <= row.attempts
            && (row.status.Completed? ==> RowsFrom(s.forward, message) != {})
            && forall id | id in RowsFrom(s.forward, message) :: id in s.commands.queue.rows && Caused(Inbox, message, row, id, s.commands.queue.rows[id])
  {
    ReachableIsInv(subscriptions, s);
    var row := s.inbox.queue.rows[message];
    hide NodeInv, LinkInv, Caused, Run, Produce, NothingLost;
    CommandsFitAttempts(ForwardPair(s), message);
    forall id | id in RowsFrom(s.forward, message) ensures id in s.commands.queue.rows && Caused(Inbox, message, row, id, s.commands.queue.rows[id]) {
      OriginIsCause(Inbox, ForwardPair(s), id);
    }
    if row.status.Completed? {
      var lease := CompletedIsStored(Inbox, ForwardPair(s), message);
      KnowNode(Inbox, s.inbox, message);
      ProducedIsCaused(Inbox, message, row, s.forward.progress[lease].job);
      var command := s.forward.progress[lease].outputs[0];
      assert IsStored(s.forward, s.commands, lease, command);
      assert command.id in RowsFrom(s.forward, message);
    }
  }

  /** No orphan events: every stored event names an existing command row as its cause, and carries that
      command's correlation, or the command's id if it has none. */
  lemma EventsHaveCauses(subscriptions: seq<Subscription>, s: Sys, event: Uuid)
    requires Reachable(subscriptions, s) && event in s.events.queue.rows
    ensures event in s.execute.origin
    ensures var cause := s.execute.origin[event].id;
               cause in s.commands.queue.rows && Caused(Commands, cause, s.commands.queue.rows[cause], event, s.events.queue.rows[event])
  {
    ReachableIsInv(subscriptions, s);
    hide NodeInv, LinkInv, Caused, Run;
    OriginIsCause(Commands, ExecutePair(s), event);
  }

  /** No event of an execution is stored if any of its sequences is invalid: whatever is stored comes from an
      execution all of whose sequences are valid. */
  lemma StoredEventsAreValid(subscriptions: seq<Subscription>, s: Sys, event: Uuid)
    requires Reachable(subscriptions, s) && event in s.events.queue.rows
    ensures event in s.execute.origin && s.execute.origin[event] in s.execute.progress
    ensures var job := s.execute.progress[s.execute.origin[event]].job;
            job.Execute? && forall i | 0 <= i < |job.events| :: ValidSequence(job.events[i].sequence)
  {
    hide NodesInv, AllServed, NothingLost, Run, Begun, StoredSoFar, IsStored, Reported;
    ReachableIsInv(subscriptions, s);
    assert Linked(s.execute, s.events, event);
    BegunIsValid(s.commands, s.execute, s.execute.origin[event]);
  }

  lemma BegunIsValid(up: Node, b: Bridge, lease: Lease)
    requires lease in b.progress && Begun(Commands, up, b, lease)
    ensures var job := b.progress[lease].job;
            job.Execute? && forall i | 0 <= i < |job.events| :: ValidSequence(job.events[i].sequence)
  {
  }

  /** An event of an execution is stored, as that execution's. */
  predicate StoresEvent(s: Sys, lease: Lease, id: Uuid, event: AppEvent) {
    && id in s.events.queue.rows && CarriesEvent(id, s.events.queue.rows[id], event)
    && id in s.execute.origin && s.execute.origin[id] == lease
  }

  /** An execution of a command of which every event that its handler returned is stored. */
  predicate FullyStored(s: Sys, command: Uuid, lease: Lease) {
    && lease.id == command && lease in s.execute.progress
    && var job := s.execute.progress[lease].job;
       && job.Execute? && |job.ids| == |job.events|
       && forall i | 0 <= i < |job.events| :: StoresEvent(s, lease, job.ids[i], job.events[i])
  }

  /** Whatever becomes of an execution, it has stored a prefix of its events: the acknowledged ones and at most
      the next, whose acknowledgement was lost. */
  lemma ExecutionStoresPrefix(subscriptions: seq<Subscription>, s: Sys, lease: Lease)
    requires Reachable(subscriptions, s) && lease in s.execute.progress
    ensures var progress := s.execute.progress[lease];
            && progress.stored <= |progress.outputs|
            && (forall i | 0 <= i < progress.stored :: IsStored(s.execute, s.events, lease, progress.outputs[i]))
            && (forall event | event in s.execute.origin && s.execute.origin[event] == lease ::
                  exists i | 0 <= i < |progress.outputs| && i <= progress.stored :: progress.outputs[i].id == event)
  {
    hide NodesInv, AllServed, NothingLost, Run, LinkInv, IsStored;
    ReachableIsInv(subscriptions, s);
    PassStoresPrefix(Commands, ExecutePair(s), lease);
  }

  /** A Completed command has all events of at least one execution of its handler stored. */
  lemma CompletedCommandsAreStored(subscriptions: seq<Subscription>, s: Sys, command: Uuid) returns (lease: Lease)
    requires Reachable(subscriptions, s) && command in s.commands.queue.rows
    requires s.commands.queue.rows[command].status.Completed?
    ensures FullyStored(s, command, lease)
  {
    ReachableIsInv(subscriptions, s);
    hide NodeInv, LinkInv, Run, EventsFor, CommandFor, CarriesEvent;
    lease := CompletedIsStored(Commands, ExecutePair(s), command);
    var progress := s.execute.progress[lease];
    forall i | 0 <= i < |progress.job.events| ensures StoresEvent(s, lease, progress.job.ids[i], progress.job.events[i]) {
      EventsAreCarried(s.commands.queue.rows[command], progress.job.events, progress.job.ids, progress.job.clock, i);
      assert IsStored(s.execute, s.events, lease, progress.outputs[i]);
      SameContentSameEvent(progress.job.ids[i], progress.outputs[i].row, s.events.queue.rows[progress.job.ids[i]], progress.job.events[i]);
    }
  }

  lemma SameContentSameEvent(id: Uuid, row: Row, after: Row, event: AppEvent)
    requires CarriesEvent(id, row, event) && SameContent(after, row)
    ensures CarriesEvent(id, after, event)
  {
  }

  /** A Completed event had one pass in which every subscriber of its type returned Ok, called in
      registration order. */
  lemma CompletedEventsAreServed(subscriptions: seq<Subscription>, s: Sys, event: Uuid) returns (lease: Lease)
    requires Reachable(subscriptions, s) && event in s.events.queue.rows
    requires s.events.queue.rows[event].status.Completed?
    ensures lease.id == event && IsServed(subscriptions, s, lease)
  {
    ReachableIsInv(subscriptions, s);
    hide Run;
    KnowNode(Events, s.events, event);
    var token :| Lease(event, token) in s.events.outputs;
    lease := Lease(event, token);
  }

  // ---------- commands that name a message as their cause ----------

  function Causation(row: Row): Option<Uuid> {
    if row.meta.Some? && Decode(Commands, row.meta.value).Ok? then Decode(Commands, row.meta.value).value.causationId else None
  }

  /** Nobody but the inbox consumer records commands in this message's name. */
  predicate Unforged(actions: seq<SysAction>, message: Uuid) {
    forall i | 0 <= i < |actions| && actions[i].CommandsDo? && IsRecord(actions[i].a) :: Causation(actions[i].a.e.row) != Some(message)
  }

  predicate OnlyFrom(s: Sys, message: Uuid) {
    forall id | id in s.commands.queue.rows && Causation(s.commands.queue.rows[id]) == Some(message) ::
      id in s.forward.origin && s.forward.origin[id].id == message
  }

  /** In such runs the commands whose causation is the message are exactly the ones its passes recorded. */
  lemma CausationIsOrigin(subscriptions: seq<Subscription>, actions: seq<SysAction>, message: Uuid)
    requires Unforged(actions, message)
    ensures var s := Run(subscriptions, START, actions);
            RowsFrom(s.forward, message) == set id | id in s.commands.queue.rows && Causation(s.commands.queue.rows[id]) == Some(message)
  {
    RunKeepsSysInv(subscriptions, actions);
    OnlyItsPasses(subscriptions, actions, message);
    var s := Run(subscriptions, START, actions);
    hide NodeInv, LinkInv, Run;
    forall id | id in RowsFrom(s.forward, message)
      ensures id in s.commands.queue.rows && Causation(s.commands.queue.rows[id]) == Some(message)
    {
      OriginIsCause(Inbox, ForwardPair(s), id);
    }
  }

  lemma {:induction false} OnlyItsPasses(subscriptions: seq<Subscription>, actions: seq<SysAction>, message: Uuid)
    requires Unforged(actions, message)
    ensures OnlyFrom(Run(subscriptions, START, actions), message)
  {
    if actions != [] {
      var init, action := actions[..|actions| - 1], actions[|actions| - 1];
      OnlyItsPasses(subscriptions, init, message);
      RunKeepsSysInv(subscriptions, init);
      RunKeepsSysInv(subscriptions, actions);
      ActionKeepsOnlyFrom(subscriptions, Run(subscriptions, START, init), action, message);
    }
  }

  lemma ActionKeepsOnlyFrom(subscriptions: seq<Subscription>, s: Sys, action: SysAction, message: Uuid)
    requires SysInv(subscriptions, s) && SysInv(subscriptions, SysNext(subscriptions, s, action)) && OnlyFrom(s, message)
    requires action.CommandsDo? && IsRecord(action.a) ==> Causation(action.a.e.row) != Some(message)
    ensures OnlyFrom(SysNext(subscriptions, s, action), message)
  {
    var after := SysNext(subscriptions, s, action);
    forall id | id in after.commands.queue.rows && Causation(after.commands.queue.rows[id]) == Some(message)
      ensures id in after.forward.origin && after.forward.origin[id].id == message
    {
      hide NodeInv, LinkInv, Step, Advance, Causation, Grows, Run;
      if id in after.forward.origin {
        CauseOfOrigin(after, id, message);
      } else {
        OldCommandOrRecorded(subscriptions, s, action, id);
      }
    }
  }

  lemma CauseOfOrigin(s: Sys, id: Uuid, message: Uuid)
    requires NodesInv(s) && LinksInv(s) && id in s.forward.origin && id in s.commands.queue.rows
    requires Causation(s.commands.queue.rows[id]) == Some(message)
    ensures s.forward.origin[id].id == message
  {
    hide NodeInv, LinkInv;
    OriginIsCause(Inbox, ForwardPair(s), id);
  }

  /** A command without an origin was there before, with the same content, or someone else just recorded it. */
  lemma OldCommandOrRecorded(subscriptions: seq<Subscription>, s: Sys, action: SysAction, id: Uuid)
    requires NodesInv(s)
    requires id in SysNext(subscriptions, s, action).commands.queue.rows && id !in SysNext(subscriptions, s, action).forward.origin
    ensures var after := SysNext(subscriptions, s, action);
            || (id in s.commands.queue.rows && id !in s.forward.origin
                && Causation(after.commands.queue.rows[id]) == Causation(s.commands.queue.rows[id]))
            || (action.CommandsDo? && IsRecord(action.a) && after.commands.queue.rows[id] == action.a.e.row)
  {
    hide NodeInv, Step, Advance;
    match action
    case CommandsDo(a) =>
      if Direct(a) {
        StepGrows(Commands, s.commands, a);
        if id !in s.commands.queue.rows {
          NewCommand(s.commands, a, id);
        }
      }
    case ForwardDo(m) => AdvanceGrows(Inbox, ForwardPair(s), m);
    case ExecuteDo(m) => AdvanceGrows(Commands, ExecutePair(s), m); AdvanceKeepsUpstream(Commands, ExecutePair(s), m);
    case _ =>
  }

  lemma NewCommand(n: Node, a: Action, id: Uuid)
    requires NodeInv(Commands, n) && id !in n.queue.rows && id in Step(Commands, n, a).queue.rows
    ensures IsRecord(a) && Step(Commands, n, a).queue.rows[id] == a.e.row
  {
    if !IsRecord(a) {
      StepAddsNoRows(Commands, n, a, id);
    } else {
      RowsAppearOnlyByRecord(Commands, n.queue, a.e, id);
    }
  }

  /** A pass's work leaves the rows it works on alone. */
  lemma AdvanceKeepsUpstream(kind: Kind, p: Pair, m: Move)
    ensures Advance(kind, p, m).up.queue == p.up.queue
  {
  }
}
