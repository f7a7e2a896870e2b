/** A queue together with the workers on it: every claim of a row starts one pass through the item boundary,
    which works, completes, and on any error fails, and which may stop for good at any point. */
module Workers {
  import opened Base
  import opened Metadata
  import opened Queue
  import opened Leases
  import opened Ledger
  import opened Consumer

  /** Where a pass is: `Worked` after its work returned Ok, `Broken` with the reason it will
      give after its work or its completion failed. */
  datatype Phase = Pending | Worked | Broken(cause: Text) | Finished

  /** A row that an item's work records in the next store. */
  datatype Output = Output(id: Uuid, row: Row)

  /** `outputs` remembers, for each pass whose work returned Ok, what that work produced. */
  datatype Node = Node(queue: State, items: map<Lease, Phase>, outputs: map<Lease, seq<Output>>)

  datatype Action =
    | Others(e: Event)
    | Work(lease: Lease, result: Result<seq<Output>, Text>)
    | Finish(lease: Lease, call: DbCall)
    | GiveUp(lease: Lease, call: DbCall, max: I32)

  /** The passes that a committed reservation starts. */
  function Started(kind: Kind, s: State, e: Event): map<Lease, Phase> {
    if e.Reserve? then map id | id in s.rows && TouchOf(kind, s, e, id).Claimed? :: Lease(id, e.token) := Pending
    else map[]
  }

  predicate At(n: Node, lease: Lease, worked: bool) {
    lease in n.items && if worked then n.items[lease].Worked? else n.items[lease].Broken?
  }

  /** The reason a pass gives when it fails its row. */
  function ReasonFor(lease: Lease, stage: string, cause: Text): Text {
    ItemText(lease.id, lease.token, stage, cause)
  }

  /** An action that its item is not ready for changes nothing. */
  function Step(kind: Kind, n: Node, a: Action): Node {
    match a
    case Others(e) =>
      if e.Complete? || e.Fail? then n
      else n.(queue := Next(kind, n.queue, e), items := n.items + Started(kind, n.queue, e))
    case Work(lease, result) =>
      if lease !in n.items || !n.items[lease].Pending? then n
      else (match result
            case Ok(outputs) => n.(items := n.items[lease := Worked], outputs := n.outputs[lease := outputs])
            case Err(cause) => n.(items := n.items[lease := Broken(cause)]))
    case Finish(lease, call) =>
      if !At(n, lease, true) then n
      else
        n.(queue := if call.fate.RolledBack? then n.queue else Next(kind, n.queue, Complete(lease.id, lease.token)),
           items := n.items[lease := match FinalizeResult(n.queue, lease.id, lease.token, call, "completion")
                                     case Ok(_) => Finished
                                     case Err(cause) => Broken(ReasonFor(lease, "completion", cause))])
    case GiveUp(lease, call, max) =>
      if !At(n, lease, false) then n
      else
        var e := Fail(lease.id, lease.token, max, Some(n.items[lease].cause));
        n.(queue := if call.fate.RolledBack? then n.queue else Next(kind, n.queue, e), items := n.items[lease := Finished])
  }

  function LeasesOf(items: map<Lease, Phase>, id: Uuid): set<Lease> {
    set l | l in items && l.id == id
  }

  /** The row still says what was recorded under its id. */
  predicate Recorded(kind: Kind, id: Uuid, row: Row) {
    Healthy(kind, row) && StoredUnder(kind, id, Decode(kind, row.meta.value).value)
  }

  ghost predicate HasOutputs(n: Node, id: Uuid) {
    exists token :: Lease(id, token) in n.outputs
  }

  ghost predicate RowBacked(kind: Kind, n: Node, id: Uuid)
    requires id in n.queue.rows
  {
    var row := n.queue.rows[id];
    && Recorded(kind, id, row)
    && (row.status.Reserved? && row.token.Some? ==> Lease(id, row.token.value) in n.items)
    && (row.status.Completed? ==> HasOutputs(n, id))
    && |LeasesOf(n.items, id)| <= row.attempts
  }

  predicate ItemBacked(n: Node, l: Lease) {
    && l.id in n.queue.rows && l.token in n.queue.issued
    && (l in n.items && n.items[l].Worked? ==> l in n.outputs)
  }

  /** Every leased row has its pass, every Completed row has a pass whose work returned Ok, and a row never
      has more passes than attempts. */
  ghost predicate NodeInv(kind: Kind, n: Node) {
    && Inv(n.queue)
    && (forall id | id in n.queue.rows :: RowBacked(kind, n, id))
    && (forall l | l in n.items :: ItemBacked(n, l))
    && (forall l | l in n.outputs :: l in n.items && !n.items[l].Pending?)
  }

  lemma EmptyNodeInv(kind: Kind, now: Time)
    ensures NodeInv(kind, Node(State(map[], now, {}), map[], map[]))
  {
  }

  // ---------- the invariant is kept ----------

  /** An event keeps a recorded row recorded. */
  lemma EventKeepsRecorded(kind: Kind, s: State, e: Event, id: Uuid)
    requires Inv(s) && id in s.rows && Recorded(kind, id, s.rows[id])
    ensures id in Next(kind, s, e).rows && Recorded(kind, id, Next(kind, s, e).rows[id])
    ensures SameContent(Next(kind, s, e).rows[id], s.rows[id])
  {
    TouchEffect(kind, s, e, id);
    EventKeepsHealthy(kind, s, e, id);
  }

  lemma NewRowIsRecorded(kind: Kind, s: State, e: Event, id: Uuid)
    requires Inv(s) && id !in s.rows && id in Next(kind, s, e).rows
    ensures e.Record? && e.id == id && Recorded(kind, id, e.row) && Next(kind, s, e).rows[id] == e.row
    ensures e.row.status.Received? && e.row.attempts == 0
  {
    RowsAppearOnlyByRecord(kind, s, e, id);
  }

  lemma StartedIsClaimed(kind: Kind, s: State, e: Event, l: Lease)
    requires Inv(s)
    ensures l in Started(kind, s, e) <==> e.Reserve? && l.token == e.token && l.id in s.rows && TouchOf(kind, s, e, l.id).Claimed?
    ensures l in Started(kind, s, e) ==> Started(kind, s, e)[l] == Pending && Commits(kind, s, e) && e.token !in s.issued
    ensures l.id in s.rows && TouchOf(kind, s, e, l.id).Claimed? ==> e.Reserve? && TouchOf(kind, s, e, l.id).token == e.token
  {
  }

  /** What another's event can do to a row, as far as passes are concerned. */
  predicate RowMove(row: Row, t: Touch, after: Row) {
    && after.attempts == row.attempts + (if IsClaim(t) then 1 else 0)
    && (after.status.Reserved? ==> after == row || (t.Claimed? && after.token == Some(t.token)))
    && (after.status.Completed? ==> row.status.Completed? || t.Succeeded?)
  }

  lemma TouchedMoves(kind: Kind, row: Row, t: Touch, max: I32, now: Time, after: Row)
    requires Touched(kind, row, t, max, now, after)
    ensures RowMove(row, t, after)
  {
  }

  lemma OthersTouch(kind: Kind, s: State, e: Event, id: Uuid)
    requires Inv(s) && id in s.rows && Recorded(kind, id, s.rows[id]) && !e.Complete? && !e.Fail?
    ensures var t := TouchOf(kind, s, e, id);
            && id in Next(kind, s, e).rows && Recorded(kind, id, Next(kind, s, e).rows[id])
            && RowMove(s.rows[id], t, Next(kind, s, e).rows[id]) && !t.Succeeded? && !t.Quarantined?
  {
    hide Next, Recorded, Inv, Touched, RowMove;
    TouchEffect(kind, s, e, id);
    TouchedMoves(kind, s.rows[id], TouchOf(kind, s, e, id), MaxOf(e), s.now, Next(kind, s, e).rows[id]);
    EventKeepsRecorded(kind, s, e, id);
    RecordedIsNotQuarantined(kind, s, e, id);
  }

  lemma RecordedIsNotQuarantined(kind: Kind, s: State, e: Event, id: Uuid)
    requires Inv(s) && id in s.rows && Recorded(kind, id, s.rows[id])
    ensures !TouchOf(kind, s, e, id).Quarantined?
  {
    EventKeepsHealthy(kind, s, e, id);
  }

  lemma OthersKeepRow(kind: Kind, n: Node, e: Event, id: Uuid)
    requires NodeInv(kind, n) && !e.Complete? && !e.Fail? && id in Next(kind, n.queue, e).rows
    ensures RowBacked(kind, Step(kind, n, Others(e)), id)
  {
    hide Next, NodeInv, Inv, Recorded, TouchOf, Started;
    KnowNode(kind, n, id);
    OthersKeepLeases(kind, n, e, id);
    if id in n.queue.rows {
      OthersTouch(kind, n.queue, e, id);
      var t := TouchOf(kind, n.queue, e, id);
      StartedIsClaimed(kind, n.queue, e, Lease(id, if t.Claimed? then t.token else 0));
    } else {
      NewRowIsRecorded(kind, n.queue, e, id);
      NoPassesYet(kind, n, id);
    }
  }

  lemma NoPassesYet(kind: Kind, n: Node, id: Uuid)
    requires NodeInv(kind, n) && id !in n.queue.rows
    ensures LeasesOf(n.items, id) == {}
  {
    forall l | l in n.items ensures l.id != id {
      assert ItemBacked(n, l);
    }
  }

  lemma OthersAreNew(kind: Kind, n: Node, e: Event)
    requires NodeInv(kind, n)
    ensures forall l | l in Started(kind, n.queue, e) :: l !in n.items
  {
    hide Next, TouchOf, Started, Inv, RowBacked, HasOutputs;
    forall l | l in Started(kind, n.queue, e) ensures l !in n.items {
      StartedIsClaimed(kind, n.queue, e, l);
      assert l in n.items ==> ItemBacked(n, l);
    }
  }

  lemma StartedOf(kind: Kind, s: State, e: Event, id: Uuid)
    requires Inv(s)
    ensures LeasesOf(Started(kind, s, e), id)
            == if id in s.rows && TouchOf(kind, s, e, id).Claimed? then {Lease(id, TouchOf(kind, s, e, id).token)} else {}
  {
    hide Next, TouchOf, Started, Inv;
    forall l: Lease ensures l in LeasesOf(Started(kind, s, e), id)
                            <==> l.id == id && id in s.rows && TouchOf(kind, s, e, id).Claimed? && l.token == TouchOf(kind, s, e, id).token {
      StartedIsClaimed(kind, s, e, l);
    }
  }

  /** A claim adds one pass to its row; nothing else adds one. */
  lemma OthersKeepLeases(kind: Kind, n: Node, e: Event, id: Uuid)
    requires NodeInv(kind, n) && !e.Complete? && !e.Fail?
    ensures var items := Step(kind, n, Others(e)).items;
            |LeasesOf(items, id)| == |LeasesOf(n.items, id)| + if id in n.queue.rows && TouchOf(kind, n.queue, e, id).Claimed? then 1 else 0
  {
    hide Next, TouchOf, Started, NodeInv;
    OthersAreNew(kind, n, e);
    KnowNode(kind, n, id);
    StartedOf(kind, n.queue, e, id);
    assert LeasesOf(n.items + Started(kind, n.queue, e), id) == LeasesOf(n.items, id) + LeasesOf(Started(kind, n.queue, e), id);
  }

  lemma OthersKeepInv(kind: Kind, n: Node, e: Event)
    requires NodeInv(kind, n) && !e.Complete? && !e.Fail?
    ensures NodeInv(kind, Step(kind, n, Others(e)))
  {
    var after := Step(kind, n, Others(e));
    hide Next, Started, TouchOf, RowBacked;
    NextKeepsInv(kind, n.queue, e);
    forall id | id in after.queue.rows ensures RowBacked(kind, after, id) {
      OthersKeepRow(kind, n, e, id);
    }
    forall l | l in after.items
      ensures ItemBacked(after, l) && (l in n.items ==> l !in Started(kind, n.queue, e))
    {
      StartedIsClaimed(kind, n.queue, e, l);
      if l in n.items {
        assert ItemBacked(n, l);
      } else {
        IssuedWhenCommitted(kind, n.queue, e);
      }
    }
  }

  lemma IssuedWhenCommitted(kind: Kind, s: State, e: Event)
    ensures e.Reserve? && Commits(kind, s, e) ==> e.token in Next(kind, s, e).issued
  {
  }

  /** Completing and failing touch only the pass's own row. */
  lemma FinalizationEffect(kind: Kind, s: State, e: Event, id: Uuid)
    requires Inv(s) && (e.Complete? || e.Fail?) && id in s.rows
    ensures var after := Next(kind, s, e);
            && after.rows.Keys == s.rows.Keys && after.issued == s.issued && after.now == s.now
            && after.rows[id].attempts == s.rows[id].attempts
            && (after.rows[id].status.Reserved? ==> after.rows[id] == s.rows[id])
            && (after.rows[id].status.Completed? ==> s.rows[id].status.Completed? || (e == Complete(id, e.token) && s.rows[id].token == Some(e.token)))
  {
    TouchEffect(kind, s, e, id);
  }

  /** The pass's own finalization: its completion needs a work that returned Ok. */
  predicate Finalizes(n: Node, lease: Lease, e: Event) {
    && lease in n.items && !n.items[lease].Pending?
    && ((e == Complete(lease.id, lease.token) && lease in n.outputs) || (e.Fail? && e.id == lease.id && e.token == lease.token))
  }

  function Finalized(kind: Kind, n: Node, lease: Lease, e: Event, applied: bool, phase: Phase): Node {
    n.(queue := if applied then Next(kind, n.queue, e) else n.queue, items := n.items[lease := phase])
  }

  lemma FinalizeKeepsRow(kind: Kind, n: Node, lease: Lease, e: Event, applied: bool, phase: Phase, id: Uuid)
    requires NodeInv(kind, n) && Finalizes(n, lease, e) && id in n.queue.rows
    ensures id in Finalized(kind, n, lease, e, applied, phase).queue.rows
    ensures RowBacked(kind, Finalized(kind, n, lease, e, applied, phase), id)
  {
    var after := Finalized(kind, n, lease, e, applied, phase);
    hide Next, Recorded, Inv;
    assert Inv(n.queue) && RowBacked(kind, n, id) by {
      KnowNode(kind, n, id);
    }
    FinalizationEffect(kind, n.queue, e, id);
    EventKeepsRecorded(kind, n.queue, e, id);
    assert LeasesOf(after.items, id) == LeasesOf(n.items, id);
    if after.queue.rows[id].status.Completed? && !n.queue.rows[id].status.Completed? {
      assert Lease(id, lease.token) in after.outputs;
    }
  }

  lemma KnowNode(kind: Kind, n: Node, id: Uuid)
    requires NodeInv(kind, n)
    ensures Inv(n.queue) && (id in n.queue.rows ==> RowBacked(kind, n, id))
  {
  }

  lemma FinalizeKeepsInv(kind: Kind, n: Node, lease: Lease, e: Event, applied: bool, phase: Phase)
    requires NodeInv(kind, n) && Finalizes(n, lease, e) && !phase.Pending? && !phase.Worked?
    ensures NodeInv(kind, Finalized(kind, n, lease, e, applied, phase))
  {
    var after := Finalized(kind, n, lease, e, applied, phase);
    hide Next, RowBacked;
    assert ItemBacked(n, lease);
    NextKeepsInv(kind, n.queue, e);
    FinalizationEffect(kind, n.queue, e, lease.id);
    forall id | id in after.queue.rows ensures RowBacked(kind, after, id) {
      FinalizeKeepsRow(kind, n, lease, e, applied, phase, id);
    }
    forall l | l in after.items ensures ItemBacked(after, l) {
      assert ItemBacked(n, l);
    }
  }

  lemma WorkKeepsInv(kind: Kind, n: Node, lease: Lease, result: Result<seq<Output>, Text>)
    requires NodeInv(kind, n)
    ensures NodeInv(kind, Step(kind, n, Work(lease, result)))
  {
    var after := Step(kind, n, Work(lease, result));
    if after != n {
      hide RowBacked, Inv;
      forall id | id in after.queue.rows ensures RowBacked(kind, after, id) {
        WorkKeepsRow(kind, n, lease, result, id);
      }
      forall l | l in after.items ensures ItemBacked(after, l) {
        assert ItemBacked(n, l);
      }
    }
  }

  lemma WorkKeepsRow(kind: Kind, n: Node, lease: Lease, result: Result<seq<Output>, Text>, id: Uuid)
    requires id in n.queue.rows && RowBacked(kind, n, id) && lease in n.items && n.items[lease].Pending?
    ensures RowBacked(kind, Step(kind, n, Work(lease, result)), id)
  {
    hide Recorded;
    var after := Step(kind, n, Work(lease, result));
    assert LeasesOf(after.items, id) == LeasesOf(n.items, id);
    if HasOutputs(n, id) {
      var token :| Lease(id, token) in n.outputs;
      assert Lease(id, token) in after.outputs;
    }
  }

  lemma StepKeepsInv(kind: Kind, n: Node, a: Action)
    requires NodeInv(kind, n)
    ensures NodeInv(kind, Step(kind, n, a))
  {
    hide Next, Started, NodeInv;
    match a
    case Others(e) => if !e.Complete? && !e.Fail? { OthersKeepInv(kind, n, e); }
    case Work(lease, result) => WorkKeepsInv(kind, n, lease, result);
    case Finish(lease, call) =>
      if At(n, lease, true) {
        WorkedHasOutputs(kind, n, lease);
        FinalizeKeepsInv(kind, n, lease, Complete(lease.id, lease.token), !call.fate.RolledBack?, Step(kind, n, a).items[lease]);
      }
    case GiveUp(lease, call, max) =>
      if At(n, lease, false) {
        FinalizeKeepsInv(kind, n, lease, Fail(lease.id, lease.token, max, Some(n.items[lease].cause)), !call.fate.RolledBack?, Finished);
      }
  }

  lemma WorkedHasOutputs(kind: Kind, n: Node, lease: Lease)
    requires NodeInv(kind, n) && At(n, lease, true)
    ensures lease in n.outputs
  {
    assert ItemBacked(n, lease);
  }
}
