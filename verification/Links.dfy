/** Two queues in a row: each pass over an upstream row computes rows and records them downstream one by
    one, with every other step of either queue interleaved at will. */
module Links {
  import opened Base
  import opened Metadata
  import opened Queue
  import opened Leases
  import opened Ledger
  import opened Repository
  import opened Workers
  import opened Lineage

  /** What a pass draws and learns while it works: the forwarder a new id and the time, the command handler
      its events, their ids and the time. */
  datatype Job = Forward(newId: Uuid, clock: Time) | Execute(events: seq<AppEvent>, ids: seq<Uuid>, clock: Time)

  /** The rows a pass means to record, and how many of them were acknowledged. */
  datatype Progress = Progress(job: Job, outputs: seq<Output>, stored: nat)

  /** `origin` says which pass recorded which downstream row; rows that others recorded are not listed. */
  datatype Bridge = Bridge(progress: map<Lease, Progress>, origin: map<Uuid, Lease>)

  datatype Pair = Pair(up: Node, bridge: Bridge, down: Node)

  datatype Move = Begin(lease: Lease, job: Job) | StoreNext(lease: Lease, fate: Fate) | End(lease: Lease)

  /** The queue that a queue's work records rows in. */
  function Target(kind: Kind): Kind {
    match kind
    case Inbox => Commands
    case Commands => Events
    case _ => Outbox
  }

  /** What the work on a row computes. */
  function Produce(kind: Kind, row: Row, job: Job): Result<seq<Output>, Text> {
    match (kind, job)
    case (Inbox, Forward(newId, clock)) => CommandFor(row, newId, clock)
    case (Commands, Execute(events, ids, clock)) =>
      if |ids| == |events| then EventsFor(row, Ok(events), ids, clock) else Err(Lit("one id per event"))
    case _ => Err(Lit("no work of this queue"))
  }

  predicate Working(n: Node, lease: Lease) {
    lease in n.items && n.items[lease].Pending? && lease.id in n.queue.rows
  }

  function ProcessingError(lease: Lease): Text {
    ReasonFor(lease, "processing", Lit("storage error"))
  }

  /** One move of a pass's work. Generated ids are fresh: a pass cannot store under an id already in use. */
  function Advance(kind: Kind, p: Pair, m: Move): Pair {
    if !Working(p.up, m.lease) then p
    else
      match m
      case Begin(lease, job) =>
        if lease in p.bridge.progress then p
        else (match Produce(kind, p.up.queue.rows[lease.id], job)
              case Ok(outputs) => p.(bridge := p.bridge.(progress := p.bridge.progress[lease := Progress(job, outputs, 0)]))
              case Err(cause) => p.(up := Step(kind, p.up, Work(lease, Err(ReasonFor(lease, "processing", cause))))))
      case StoreNext(lease, fate) => if CanStore(p, lease) then StoreOne(kind, p, lease, fate) else p
      case End(lease) =>
        if lease !in p.bridge.progress || p.bridge.progress[lease].stored != |p.bridge.progress[lease].outputs| then p
        else p.(up := Step(kind, p.up, Work(lease, Ok(p.bridge.progress[lease].outputs))))
  }

  predicate CanStore(p: Pair, lease: Lease) {
    && Working(p.up, lease) && lease in p.bridge.progress
    && var progress := p.bridge.progress[lease];
       progress.stored < |progress.outputs| && progress.outputs[progress.stored].id !in p.down.queue.rows
  }

  /** Record the next output; an unacknowledged transaction, committed or not, ends the work with an error. */
  function StoreOne(kind: Kind, p: Pair, lease: Lease, fate: Fate): Pair
    requires CanStore(p, lease)
  {
    var progress := p.bridge.progress[lease];
    var output := progress.outputs[progress.stored];
    match fate
    case RolledBack => p.(up := Step(kind, p.up, Work(lease, Err(ProcessingError(lease)))))
    case Ambiguous =>
      Pair(Step(kind, p.up, Work(lease, Err(ProcessingError(lease)))),
           p.bridge.(origin := p.bridge.origin[output.id := lease]),
           RecordOutput(kind, p.down, output))
    case Committed =>
      Pair(p.up,
           Bridge(p.bridge.progress[lease := progress.(stored := progress.stored + 1)], p.bridge.origin[output.id := lease]),
           RecordOutput(kind, p.down, output))
  }

  function RecordOutput(kind: Kind, down: Node, output: Output): Node {
    Step(Target(kind), down, Others(Event.Record(output.id, output.row)))
  }

  // ---------- the invariant ----------

  /** A pass that began works on a row of its queue and means to store exactly what its job produces. */
  predicate Begun(kind: Kind, up: Node, b: Bridge, lease: Lease)
    requires lease in b.progress
  {
    var progress := b.progress[lease];
    && lease in up.items && lease.id in up.queue.rows && progress.stored <= |progress.outputs|
    && Produce(kind, up.queue.rows[lease.id], progress.job) == Ok(progress.outputs)
  }

  predicate IsStored(b: Bridge, down: Node, lease: Lease, output: Output) {
    && output.id in b.origin && b.origin[output.id] == lease
    && output.id in down.queue.rows && SameContent(down.queue.rows[output.id], output.row)
  }

  predicate StoredSoFar(b: Bridge, down: Node, lease: Lease)
    requires lease in b.progress
  {
    var progress := b.progress[lease];
    progress.stored <= |progress.outputs| && forall i | 0 <= i < progress.stored :: IsStored(b, down, lease, progress.outputs[i])
  }

  /** A row with an origin holds one of that pass's acknowledged outputs, or the one after them. */
  predicate Linked(b: Bridge, down: Node, id: Uuid)
    requires id in b.origin
  {
    && b.origin[id] in b.progress
    && exists i | 0 <= i < |b.progress[b.origin[id]].outputs| && i <= b.progress[b.origin[id]].stored ::
         b.progress[b.origin[id]].outputs[i].id == id && IsStored(b, down, b.origin[id], b.progress[b.origin[id]].outputs[i])
  }

  /** A pass whose work returned Ok had all its outputs acknowledged. */
  predicate Reported(up: Node, b: Bridge, lease: Lease)
    requires lease in up.outputs
  {
    && lease in b.progress && b.progress[lease].outputs == up.outputs[lease]
    && b.progress[lease].stored == |up.outputs[lease]|
  }

  predicate LinkInv(kind: Kind, p: Pair) {
    && (forall lease | lease in p.bridge.progress :: Begun(kind, p.up, p.bridge, lease) && StoredSoFar(p.bridge, p.down, lease))
    && (forall id | id in p.bridge.origin :: Linked(p.bridge, p.down, id))
    && (forall lease | lease in p.up.outputs :: Reported(p.up, p.bridge, lease))
  }

  // ---------- what a node's other steps leave alone ----------

  predicate Grows(before: Node, after: Node) {
    && (forall id | id in before.queue.rows :: id in after.queue.rows && SameContent(after.queue.rows[id], before.queue.rows[id]))
    && before.items.Keys <= after.items.Keys
  }

  lemma StepGrows(kind: Kind, n: Node, a: Action)
    requires NodeInv(kind, n)
    ensures Grows(n, Step(kind, n, a))
    ensures !a.Work? || a.result.Err? ==> Step(kind, n, a).outputs == n.outputs
  {
    var after := Step(kind, n, a);
    hide Next, Started, TouchOf, RowBacked;
    forall id | id in n.queue.rows ensures id in after.queue.rows && SameContent(after.queue.rows[id], n.queue.rows[id]) {
      RowContentKept(kind, n, a, id);
    }
  }

  lemma RowContentKept(kind: Kind, n: Node, a: Action, id: Uuid)
    requires NodeInv(kind, n) && id in n.queue.rows
    ensures id in Step(kind, n, a).queue.rows && SameContent(Step(kind, n, a).queue.rows[id], n.queue.rows[id])
  {
    hide Next, Started, NodeInv, Inv, RowBacked, Recorded;
    KnowNode(kind, n, id);
    assert Recorded(kind, id, n.queue.rows[id]) by {
      BackedIsRecorded(kind, n, id);
    }
    match a
    case Others(e) => EventKeepsRecorded(kind, n.queue, e, id);
    case Work(_, _) =>
    case Finish(lease, _) => EventKeepsRecorded(kind, n.queue, Complete(lease.id, lease.token), id);
    case GiveUp(lease, _, max) =>
      if At(n, lease, false) {
        EventKeepsRecorded(kind, n.queue, Fail(lease.id, lease.token, max, Some(n.items[lease].cause)), id);
      }
  }

  lemma BackedIsRecorded(kind: Kind, n: Node, id: Uuid)
    requires id in n.queue.rows && RowBacked(kind, n, id)
    ensures Recorded(kind, id, n.queue.rows[id])
  {
  }

  lemma ProduceReadsContent(kind: Kind, row: Row, after: Row, job: Job)
    requires SameContent(after, row)
    ensures Produce(kind, after, job) == Produce(kind, row, job)
  {
  }

  /** Neither side's other steps disturb the link. */
  lemma LinkSurvives(kind: Kind, p: Pair, up: Node, down: Node)
    requires LinkInv(kind, p) && Grows(p.up, up) && Grows(p.down, down) && up.outputs == p.up.outputs
    ensures LinkInv(kind, Pair(up, p.bridge, down))
  {
    hide Produce;
    var b := p.bridge;
    forall lease | lease in b.progress ensures Begun(kind, up, b, lease) && StoredSoFar(b, down, lease) {
      assert Begun(kind, p.up, b, lease) && StoredSoFar(b, p.down, lease);
      ProduceReadsContent(kind, p.up.queue.rows[lease.id], up.queue.rows[lease.id], b.progress[lease].job);
      forall i | 0 <= i < b.progress[lease].stored ensures IsStored(b, down, lease, b.progress[lease].outputs[i]) {
        assert IsStored(b, p.down, lease, b.progress[lease].outputs[i]);
      }
    }
    forall id | id in b.origin ensures Linked(b, down, id) {
      assert Linked(b, p.down, id);
      var i :| 0 <= i < |b.progress[b.origin[id]].outputs| && i <= b.progress[b.origin[id]].stored && b.progress[b.origin[id]].outputs[i].id == id
               && IsStored(b, p.down, b.origin[id], b.progress[b.origin[id]].outputs[i]);
      assert IsStored(b, down, b.origin[id], b.progress[b.origin[id]].outputs[i]);
    }
    forall lease | lease in up.outputs ensures Reported(up, b, lease) {
      assert Reported(p.up, b, lease);
    }
  }

  lemma GrowsReflexive(n: Node)
    ensures Grows(n, n)
  {
  }

  // ---------- moves keep the link ----------

  lemma RecordEffect(kind: Kind, n: Node, output: Output)
    requires NodeInv(kind, n) && output.id !in n.queue.rows && IsRecordable(kind, output.id, output.row)
    ensures var after := Step(kind, n, Others(Event.Record(output.id, output.row)));
            NodeInv(kind, after) && after == n.(queue := n.queue.(rows := n.queue.rows[output.id := output.row]))
  {
    hide NodeInv, Step, IsRecordable;
    StepKeepsInv(kind, n, Others(Event.Record(output.id, output.row)));
    RecordInserts(kind, n, output);
  }

  lemma RecordInserts(kind: Kind, n: Node, output: Output)
    requires output.id !in n.queue.rows && IsRecordable(kind, output.id, output.row)
    ensures Step(kind, n, Others(Event.Record(output.id, output.row)))
            == n.(queue := n.queue.(rows := n.queue.rows[output.id := output.row]))
  {
    hide IsRecordable;
    assert n.items + Started(kind, n.queue, Event.Record(output.id, output.row)) == n.items;
  }

  /** What is produced from a recorded row can be recorded, and names it as its cause. */
  lemma ProducedIsCaused(kind: Kind, id: Uuid, row: Row, job: Job)
    requires Recorded(kind, id, row) && Produce(kind, row, job).Ok?
    ensures AllCaused(kind, Target(kind), id, row, Produce(kind, row, job).value)
    ensures kind.Inbox? ==> |Produce(kind, row, job).value| == 1
  {
    if kind.Inbox? {
      CommandIsCaused(id, row, job.newId, job.clock);
    } else {
      EventsAreCaused(id, row, Ok(job.events), job.ids, job.clock);
    }
  }

  /** What a committed store changes, acknowledged or not. */
  predicate OneMore(p: Pair, lease: Lease, acknowledged: bool, b: Bridge, down: Node)
    requires CanStore(p, lease)
  {
    var progress := p.bridge.progress[lease];
    var output := progress.outputs[progress.stored];
    && b.origin == p.bridge.origin[output.id := lease]
    && b.progress == (if acknowledged then p.bridge.progress[lease := progress.(stored := progress.stored + 1)] else p.bridge.progress)
    && down == p.down.(queue := p.down.queue.(rows := p.down.queue.rows[output.id := output.row]))
  }

  /** A new row does not disturb the rows already linked. */
  lemma StoredStays(p: Pair, lease: Lease, acknowledged: bool, b: Bridge, down: Node, owner: Lease, output: Output)
    requires CanStore(p, lease) && OneMore(p, lease, acknowledged, b, down) && IsStored(p.bridge, p.down, owner, output)
    ensures IsStored(b, down, owner, output)
  {
  }

  lemma OneMoreKeepsProgress(kind: Kind, p: Pair, lease: Lease, acknowledged: bool, b: Bridge, down: Node, l: Lease)
    requires LinkInv(kind, p) && CanStore(p, lease) && OneMore(p, lease, acknowledged, b, down) && l in b.progress
    ensures Begun(kind, p.up, b, l) && StoredSoFar(b, down, l)
  {
    hide Produce;
    assert Begun(kind, p.up, p.bridge, l) && StoredSoFar(p.bridge, p.down, l);
    var outputs := b.progress[l].outputs;
    forall i | 0 <= i < b.progress[l].stored ensures IsStored(b, down, l, outputs[i]) {
      if i < p.bridge.progress[l].stored {
        StoredStays(p, lease, acknowledged, b, down, l, outputs[i]);
      }
    }
  }

  lemma OneMoreKeepsLinked(kind: Kind, p: Pair, lease: Lease, acknowledged: bool, b: Bridge, down: Node, id: Uuid)
    requires LinkInv(kind, p) && CanStore(p, lease) && OneMore(p, lease, acknowledged, b, down) && id in b.origin
    ensures Linked(b, down, id)
  {
    hide Produce;
    var progress := p.bridge.progress[lease];
    if id == progress.outputs[progress.stored].id {
      assert IsStored(b, down, lease, b.progress[lease].outputs[progress.stored]);
    } else {
      assert Linked(p.bridge, p.down, id);
      var owner := p.bridge.origin[id];
      var i :| 0 <= i < |p.bridge.progress[owner].outputs| && i <= p.bridge.progress[owner].stored && p.bridge.progress[owner].outputs[i].id == id
               && IsStored(p.bridge, p.down, owner, p.bridge.progress[owner].outputs[i]);
      StoredStays(p, lease, acknowledged, b, down, owner, p.bridge.progress[owner].outputs[i]);
      assert b.progress[owner].outputs[i].id == id;
    }
  }

  lemma OneMoreKeepsLink(kind: Kind, p: Pair, lease: Lease, acknowledged: bool, b: Bridge, down: Node)
    requires LinkInv(kind, p) && CanStore(p, lease) && OneMore(p, lease, acknowledged, b, down) && lease !in p.up.outputs
    ensures LinkInv(kind, Pair(p.up, b, down))
  {
    forall l | l in b.progress ensures Begun(kind, p.up, b, l) && StoredSoFar(b, down, l) {
      OneMoreKeepsProgress(kind, p, lease, acknowledged, b, down, l);
    }
    forall id | id in b.origin ensures Linked(b, down, id) {
      OneMoreKeepsLinked(kind, p, lease, acknowledged, b, down, id);
    }
    forall l | l in p.up.outputs ensures Reported(p.up, b, l) {
      assert Reported(p.up, p.bridge, l);
    }
  }

  /** Working passes have not reported yet. */
  lemma WorkingIsUnreported(kind: Kind, n: Node, lease: Lease)
    requires NodeInv(kind, n) && Working(n, lease)
    ensures lease !in n.outputs && Recorded(kind, lease.id, n.queue.rows[lease.id])
  {
    assert RowBacked(kind, n, lease.id);
  }

  lemma BreakKeepsLink(kind: Kind, p: Pair, lease: Lease, cause: Text)
    requires NodeInv(kind, p.up) && LinkInv(kind, p)
    ensures var up := Step(kind, p.up, Work(lease, Err(cause)));
            NodeInv(kind, up) && LinkInv(kind, p.(up := up))
  {
    hide NodeInv, LinkInv, Step;
    StepKeepsInv(kind, p.up, Work(lease, Err(cause)));
    StepGrows(kind, p.up, Work(lease, Err(cause)));
    GrowsReflexive(p.down);
    LinkSurvives(kind, p, Step(kind, p.up, Work(lease, Err(cause))), p.down);
  }

  lemma StoreKeepsLink(kind: Kind, p: Pair, lease: Lease, fate: Fate)
    requires NodeInv(kind, p.up) && NodeInv(Target(kind), p.down) && LinkInv(kind, p) && CanStore(p, lease)
    ensures var after := StoreOne(kind, p, lease, fate);
            NodeInv(kind, after.up) && NodeInv(Target(kind), after.down) && LinkInv(kind, after)
  {
    var progress := p.bridge.progress[lease];
    var output := progress.outputs[progress.stored];
    hide NodeInv, Step;
    WorkingIsUnreported(kind, p.up, lease);
    OutputIsRecordable(kind, p, lease);
    hide LinkInv;
    RecordEffect(Target(kind), p.down, output);
    match fate
    case RolledBack => BreakKeepsLink(kind, p, lease, ProcessingError(lease));
    case Committed =>
      var after := StoreOne(kind, p, lease, fate);
      OneMoreKeepsLink(kind, p, lease, true, after.bridge, after.down);
    case Ambiguous =>
      var after := StoreOne(kind, p, lease, fate);
      OneMoreKeepsLink(kind, p, lease, false, after.bridge, after.down);
      BreakKeepsLink(kind, Pair(p.up, after.bridge, after.down), lease, ProcessingError(lease));
  }

  lemma OutputIsRecordable(kind: Kind, p: Pair, lease: Lease)
    requires LinkInv(kind, p) && CanStore(p, lease) && Recorded(kind, lease.id, p.up.queue.rows[lease.id])
    ensures var progress := p.bridge.progress[lease];
            var output := progress.outputs[progress.stored];
            IsRecordable(Target(kind), output.id, output.row)
  {
    hide IsRecordable, Produce, Caused;
    assert Begun(kind, p.up, p.bridge, lease);
    ProducedIsCaused(kind, lease.id, p.up.queue.rows[lease.id], p.bridge.progress[lease].job);
  }

  lemma WorkReports(kind: Kind, n: Node, lease: Lease, outputs: seq<Output>)
    requires Working(n, lease)
    ensures Step(kind, n, Work(lease, Ok(outputs)))
            == n.(items := n.items[lease := Worked], outputs := n.outputs[lease := outputs])
  {
  }

  lemma EndKeepsLink(kind: Kind, p: Pair, lease: Lease)
    requires NodeInv(kind, p.up) && LinkInv(kind, p) && Working(p.up, lease)
    requires lease in p.bridge.progress && p.bridge.progress[lease].stored == |p.bridge.progress[lease].outputs|
    ensures var up := Step(kind, p.up, Work(lease, Ok(p.bridge.progress[lease].outputs)));
            NodeInv(kind, up) && LinkInv(kind, p.(up := up))
  {
    var outputs := p.bridge.progress[lease].outputs;
    var up := Step(kind, p.up, Work(lease, Ok(outputs)));
    hide NodeInv, Produce, Step, Linked, StoredSoFar, Inv;
    StepKeepsInv(kind, p.up, Work(lease, Ok(outputs)));
    WorkReports(kind, p.up, lease, outputs);
    forall l | l in p.bridge.progress ensures Begun(kind, up, p.bridge, l) && StoredSoFar(p.bridge, p.down, l) {
      assert Begun(kind, p.up, p.bridge, l);
    }
    forall l | l in up.outputs ensures Reported(up, p.bridge, l) {
      assert l != lease ==> Reported(p.up, p.bridge, l);
    }
  }

  lemma BeginKeepsLink(kind: Kind, p: Pair, lease: Lease, job: Job)
    requires LinkInv(kind, p) && Working(p.up, lease) && lease !in p.bridge.progress && Produce(kind, p.up.queue.rows[lease.id], job).Ok?
    ensures LinkInv(kind, p.(bridge := p.bridge.(progress := p.bridge.progress[lease := Progress(job, Produce(kind, p.up.queue.rows[lease.id], job).value, 0)])))
  {
    hide Produce;
    var outputs := Produce(kind, p.up.queue.rows[lease.id], job).value;
    var b := p.bridge.(progress := p.bridge.progress[lease := Progress(job, outputs, 0)]);
    forall l | l in b.progress ensures Begun(kind, p.up, b, l) && StoredSoFar(b, p.down, l) {
      if l != lease {
        assert Begun(kind, p.up, p.bridge, l) && StoredSoFar(p.bridge, p.down, l);
        forall i | 0 <= i < b.progress[l].stored ensures IsStored(b, p.down, l, b.progress[l].outputs[i]) {
          assert IsStored(p.bridge, p.down, l, b.progress[l].outputs[i]);
        }
      }
    }
    forall id | id in b.origin ensures Linked(b, p.down, id) {
      assert Linked(p.bridge, p.down, id);
      var owner := b.origin[id];
      var i :| 0 <= i < |p.bridge.progress[owner].outputs| && i <= p.bridge.progress[owner].stored && p.bridge.progress[owner].outputs[i].id == id
               && IsStored(p.bridge, p.down, owner, p.bridge.progress[owner].outputs[i]);
      assert IsStored(b, p.down, owner, b.progress[owner].outputs[i]);
    }
    forall l | l in p.up.outputs ensures Reported(p.up, b, l) {
      assert Reported(p.up, p.bridge, l);
    }
  }

  /** Every move of every pass keeps both queues' invariants and the link between them. */
  lemma AdvanceKeepsLink(kind: Kind, p: Pair, m: Move)
    requires NodeInv(kind, p.up) && NodeInv(Target(kind), p.down) && LinkInv(kind, p)
    ensures var after := Advance(kind, p, m);
            NodeInv(kind, after.up) && NodeInv(Target(kind), after.down) && LinkInv(kind, after)
  {
    hide NodeInv, LinkInv, Step, Produce, StoreOne;
    if Working(p.up, m.lease) {
      match m
      case Begin(lease, job) =>
        if lease !in p.bridge.progress {
          match Produce(kind, p.up.queue.rows[lease.id], job)
          case Ok(_) => BeginKeepsLink(kind, p, lease, job);
          case Err(cause) => BreakKeepsLink(kind, p, lease, ReasonFor(lease, "processing", cause));
        }
      case StoreNext(lease, fate) => if CanStore(p, lease) { StoreKeepsLink(kind, p, lease, fate); }
      case End(lease) =>
        if lease in p.bridge.progress && p.bridge.progress[lease].stored == |p.bridge.progress[lease].outputs| {
          EndKeepsLink(kind, p, lease);
        }
    }
  }

  // ---------- what the link says ----------

  /** No orphans: a row with an origin names that pass's row as its cause and carries its correlation. */
  lemma OriginIsCause(kind: Kind, p: Pair, id: Uuid)
    requires NodeInv(kind, p.up) && LinkInv(kind, p) && id in p.bridge.origin
    ensures var cause := p.bridge.origin[id].id;
            cause in p.up.queue.rows && id in p.down.queue.rows && Caused(kind, cause, p.up.queue.rows[cause], id, p.down.queue.rows[id])
  {
    var lease := p.bridge.origin[id];
    hide NodeInv, Produce, Caused, Recorded, LinkInv;
    var i := LinkedOutput(kind, p, id);
    KnowNode(kind, p.up, lease.id);
    ProducedIsCaused(kind, lease.id, p.up.queue.rows[lease.id], p.bridge.progress[lease].job);
    SameContentSameCause(kind, lease.id, p.up.queue.rows[lease.id], id, p.bridge.progress[lease].outputs[i].row, p.down.queue.rows[id]);
  }

  /** Which output of its pass a row holds. */
  lemma LinkedOutput(kind: Kind, p: Pair, id: Uuid) returns (i: nat)
    requires LinkInv(kind, p) && id in p.bridge.origin
    ensures var lease := p.bridge.origin[id];
            && lease in p.bridge.progress && Begun(kind, p.up, p.bridge, lease)
            && i < |p.bridge.progress[lease].outputs| && i <= p.bridge.progress[lease].stored
            && p.bridge.progress[lease].outputs[i].id == id && IsStored(p.bridge, p.down, lease, p.bridge.progress[lease].outputs[i])
  {
    var lease := p.bridge.origin[id];
    assert Linked(p.bridge, p.down, id) && Begun(kind, p.up, p.bridge, lease);
    hide LinkInv, Begun, IsStored;
    var k :| 0 <= k < |p.bridge.progress[lease].outputs| && k <= p.bridge.progress[lease].stored
             && p.bridge.progress[lease].outputs[k].id == id && IsStored(p.bridge, p.down, lease, p.bridge.progress[lease].outputs[k]);
    i := k;
  }

  lemma SameContentSameCause(kind: Kind, cause: Uuid, up: Row, id: Uuid, down: Row, after: Row)
    requires Caused(kind, cause, up, id, down) && SameContent(after, down)
    ensures Caused(kind, cause, up, id, after)
  {
  }

  /** A completed upstream row had one pass all of whose outputs are stored, with their content, under it. */
  lemma CompletedIsStored(kind: Kind, p: Pair, cause: Uuid) returns (lease: Lease)
    requires NodeInv(kind, p.up) && LinkInv(kind, p) && cause in p.up.queue.rows && p.up.queue.rows[cause].status.Completed?
    ensures lease.id == cause && lease in p.bridge.progress
    ensures var progress := p.bridge.progress[lease];
            && Produce(kind, p.up.queue.rows[cause], progress.job) == Ok(progress.outputs)
            && forall i | 0 <= i < |progress.outputs| :: IsStored(p.bridge, p.down, lease, progress.outputs[i])
  {
    assert RowBacked(kind, p.up, cause);
    var token :| Lease(cause, token) in p.up.outputs;
    lease := Lease(cause, token);
    assert Reported(p.up, p.bridge, lease) && Begun(kind, p.up, p.bridge, lease) && StoredSoFar(p.bridge, p.down, lease);
  }

  /** A pass stores a prefix of its outputs, whatever else happens meanwhile: the acknowledged ones and at most
      the next, whose acknowledgement was lost. */
  lemma PassStoresPrefix(kind: Kind, p: Pair, lease: Lease)
    requires LinkInv(kind, p) && lease in p.bridge.progress
    ensures p.bridge.progress[lease].stored <= |p.bridge.progress[lease].outputs|
    ensures forall i | 0 <= i < p.bridge.progress[lease].stored :: IsStored(p.bridge, p.down, lease, p.bridge.progress[lease].outputs[i])
    ensures forall id | id in p.bridge.origin && p.bridge.origin[id] == lease ::
              exists i | 0 <= i < |p.bridge.progress[lease].outputs| && i <= p.bridge.progress[lease].stored ::
                p.bridge.progress[lease].outputs[i].id == id
  {
    hide Begun, IsStored;
    assert StoredSoFar(p.bridge, p.down, lease);
    forall id | id in p.bridge.origin && p.bridge.origin[id] == lease
      ensures exists i | 0 <= i < |p.bridge.progress[lease].outputs| && i <= p.bridge.progress[lease].stored ::
                p.bridge.progress[lease].outputs[i].id == id
    {
      assert Linked(p.bridge, p.down, id);
    }
  }

  // ---------- counting ----------

  /** The downstream rows recorded for one upstream row. */
  function RowsFrom(b: Bridge, cause: Uuid): set<Uuid> {
    set id | id in b.origin && b.origin[id].id == cause
  }

  lemma {:induction false} InjectionFits(ids: set<Uuid>, origin: map<Uuid, Lease>, leases: set<Lease>)
    requires ids <= origin.Keys && forall id | id in ids :: origin[id] in leases
    requires forall a, b | a in ids && b in ids && a != b :: origin[a] != origin[b]
    ensures |ids| <= |leases|
  {
    if ids != {} {
      var id :| id in ids;
      InjectionFits(ids - {id}, origin, leases - {origin[id]});
    }
  }

  /** A pass of the inbox records at most one command. */
  lemma OneCommandPerPass(p: Pair, a: Uuid, b: Uuid)
    requires NodeInv(Inbox, p.up) && LinkInv(Inbox, p) && a in p.bridge.origin && b in p.bridge.origin
    requires p.bridge.origin[a] == p.bridge.origin[b]
    ensures a == b
  {
    hide NodeInv, LinkInv;
    OnlyOutput(p, a);
    OnlyOutput(p, b);
  }

  lemma OnlyOutput(p: Pair, id: Uuid)
    requires NodeInv(Inbox, p.up) && LinkInv(Inbox, p) && id in p.bridge.origin
    ensures var lease := p.bridge.origin[id];
            lease in p.bridge.progress && |p.bridge.progress[lease].outputs| == 1 && p.bridge.progress[lease].outputs[0].id == id
  {
    hide NodeInv, LinkInv, IsStored, Begun;
    var i := LinkedOutput(Inbox, p, id);
    OneOutput(p, p.bridge.origin[id]);
  }

  lemma OneOutput(p: Pair, lease: Lease)
    requires NodeInv(Inbox, p.up) && LinkInv(Inbox, p) && lease in p.bridge.progress
    ensures |p.bridge.progress[lease].outputs| == 1
  {
    assert Begun(Inbox, p.up, p.bridge, lease);
    hide NodeInv, LinkInv, Produce, AllCaused, Recorded, RowBacked, Inv;
    KnowNode(Inbox, p.up, lease.id);
    BackedIsRecorded(Inbox, p.up, lease.id);
    ProducedIsCaused(Inbox, lease.id, p.up.queue.rows[lease.id], p.bridge.progress[lease].job);
  }

  /** A message never causes more commands than it has attempts. */
  lemma CommandsFitAttempts(p: Pair, message: Uuid)
    requires NodeInv(Inbox, p.up) && LinkInv(Inbox, p) && message in p.up.queue.rows
    ensures |RowsFrom(p.bridge, message)| <= p.up.queue.rows[message].attempts
  {
    var ids, leases := RowsFrom(p.bridge, message), LeasesOf(p.up.items, message);
    assert RowBacked(Inbox, p.up, message);
    hide NodeInv, Produce;
    forall id | id in ids ensures p.bridge.origin[id] in leases {
      assert Linked(p.bridge, p.down, id) && Begun(Inbox, p.up, p.bridge, p.bridge.origin[id]);
    }
    forall a, b | a in ids && b in ids && a != b ensures p.bridge.origin[a] != p.bridge.origin[b] {
      if p.bridge.origin[a] == p.bridge.origin[b] {
        OneCommandPerPass(p, a, b);
      }
    }
    InjectionFits(ids, p.bridge.origin, leases);
  }
}
