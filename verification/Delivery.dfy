/** The outbox against its broker: what was published under which claim, over every run. */
module Delivery {
  import opened Base
  import opened Counting
  import opened Metadata
  import opened Queue
  import opened Leases
  import opened Ledger
  import opened Workers
  import opened Links
  import opened Publisher

  /** One message that reached the broker, and what the publisher saw of the broker's answer. */
  datatype Publication = Publication(lease: Lease, message: Message, answer: Await<Confirmation>)

  /** `cached` is whether the publisher holds a connection. */
  datatype Outlet = Outlet(node: Node, cached: bool, log: seq<Publication>)

  datatype OutletAction = OutboxDo(a: Action) | Publish(lease: Lease, network: Network, panics: bool)

  /** White space in the sense of Unicode's White_Space property, which trimming removes. */
  predicate IsWhiteSpace(c: char) {
    var code := c as int;
    || 0x09 <= code <= 0x0D || code == 0x20 || code == 0x85 || code == 0xA0 || code == 0x1680
    || 0x2000 <= code <= 0x200A || code == 0x2028 || code == 0x2029 || code == 0x202F || code == 0x205F || code == 0x3000
  }

  predicate Blank(text: Text) {
    text.Lit? && forall i | 0 <= i < |text.chars| :: IsWhiteSpace(text.chars[i])
  }

  /** The outbound message of a row: its payload and metadata, unless the routing key is blank. */
  function MessageOf(row: Row): Result<Message, Text> {
    if row.meta.None? then Err(Lit("missing metadata"))
    else
      match Decode(Outbox, row.meta.value)
      case Err(error) => Err(Lit(error))
      case Ok(meta) =>
        if Blank(meta.routingKey) then Err(Lit("missing routing_key")) else Ok(Message(row.payload, meta))
  }

  function FailedWork(lease: Lease, cause: Text): Result<seq<Output>, Text> {
    Err(ReasonFor(lease, "processing", cause))
  }

  function PublicationFailed(lease: Lease): Result<seq<Output>, Text> {
    FailedWork(lease, Lit("publication failed"))
  }

  /** A pass publishes once, however many others do at the same time. */
  function OutletNext(o: Outlet, action: OutletAction): Outlet {
    match action
    case OutboxDo(a) => if a.Work? && a.result.Ok? then o else o.(node := Step(Outbox, o.node, a))
    case Publish(lease, network, panics) =>
      if !Working(o.node, lease) then o
      else
        match MessageOf(o.node.queue.rows[lease.id])
        case Err(error) => o.(node := Step(Outbox, o.node, Work(lease, FailedWork(lease, error))))
        case Ok(message) =>
          var confirmed := Confirmed(o.cached, network);
          Outlet(Step(Outbox, o.node, Work(lease, if confirmed && !panics then Ok([]) else PublicationFailed(lease))),
                 confirmed,
                 if Reached(o.cached, network) then o.log + [Publication(lease, message, Seen(o.cached, network))] else o.log)
  }

  function Run(o: Outlet, actions: seq<OutletAction>): Outlet {
    if actions == [] then o else OutletNext(Run(o, actions[..|actions| - 1]), actions[|actions| - 1])
  }

  const START := Outlet(Node(State(map[], 0, {}), map[], map[]), false, [])

  /** One pass's publish, from the network alone: it is logged with the broker's answer iff it reached the broker,
      its work returns Ok iff the answer was an acknowledgement without a return, and that is when the
      connection stays. */
  lemma PublishMeans(o: Outlet, lease: Lease, network: Network, panics: bool)
    requires Working(o.node, lease) && MessageOf(o.node.queue.rows[lease.id]).Ok?
    ensures var after := OutletNext(o, Publish(lease, network, panics));
            var sent := (o.cached || (network.connect.Done? && network.channel.Done? && network.select.Done?)) && network.send.Done?;
            var tried := o.cached || (network.connect.Done? && network.channel.Done? && network.select.Done?);
            && (lease in after.node.outputs <==> lease in o.node.outputs || (sent && network.confirm == Done(Ack(None)) && !panics))
            && (after.cached <==> sent && network.confirm == Done(Ack(None)))
            && after.log == o.log + if (sent && network.confirm.Done?) || (tried && network.reached)
                                    then [Publication(lease, MessageOf(o.node.queue.rows[lease.id]).value, if sent then network.confirm else Fails)]
                                    else []
  {
    hide MessageOf;
  }

  /** Without a message nothing is published, and the pass breaks with the reason. */
  lemma NoMessageBreaks(o: Outlet, lease: Lease, network: Network, panics: bool)
    requires Working(o.node, lease) && MessageOf(o.node.queue.rows[lease.id]).Err?
    ensures var after := OutletNext(o, Publish(lease, network, panics));
            && after.log == o.log && after.cached == o.cached && after.node.queue == o.node.queue && after.node.outputs == o.node.outputs
            && after.node.items == o.node.items[lease := Broken(ItemText(lease.id, lease.token, "processing", MessageOf(o.node.queue.rows[lease.id]).error))]
    ensures o.node.queue.rows[lease.id].meta.Some? && Decode(Outbox, o.node.queue.rows[lease.id].meta.value).Ok? ==>
              MessageOf(o.node.queue.rows[lease.id]) == Err(Lit("missing routing_key"))
  {
    hide Decode;
  }

  /** What is left of a text when leading white space is trimmed. */
  function TrimStart(chars: string): string {
    if chars != [] && IsWhiteSpace(chars[0]) then TrimStart(chars[1..]) else chars
  }

  /** Blank is what trimming leaves nothing of. */
  lemma {:induction false} BlankIff(chars: string)
    ensures Blank(Lit(chars)) <==> TrimStart(chars) == ""
  {
    if chars != [] && IsWhiteSpace(chars[0]) {
      BlankIff(chars[1..]);
      assert chars == [chars[0]] + chars[1..];
    }
  }

  /** A row has an outbound message exactly when its metadata reads and its routing key is not blank; the message
      is the row's payload under that metadata. */
  lemma MessageIff(row: Row)
    ensures MessageOf(row).Ok?
       <==> row.meta.Some? && Decode(Outbox, row.meta.value).Ok? && !Blank(Decode(Outbox, row.meta.value).value.routingKey)
    ensures MessageOf(row).Ok? ==> MessageOf(row).value.payload == row.payload && Decode(Outbox, row.meta.value) == Ok(MessageOf(row).value.meta)
  {
  }

  // ---------- the invariant ----------

  /** The publication is of the row its claim was for, as it was recorded. */
  predicate Backed(o: Outlet, i: nat)
    requires i < |o.log|
  {
    var lease := o.log[i].lease;
    && lease in o.node.items && !o.node.items[lease].Pending? && lease.id in o.node.queue.rows
    && MessageOf(o.node.queue.rows[lease.id]) == Ok(o.log[i].message)
  }

  predicate OncePerPass(log: seq<Publication>) {
    forall i, j | 0 <= i < j < |log| :: log[i].lease != log[j].lease
  }

  predicate HasConfirmed(log: seq<Publication>, lease: Lease) {
    exists i | 0 <= i < |log| :: log[i].lease == lease && log[i].answer == Done(Ack(None))
  }

  predicate LogInv(o: Outlet) {
    && (forall i | 0 <= i < |o.log| :: Backed(o, i))
    && OncePerPass(o.log)
    && (forall lease | lease in o.node.outputs :: HasConfirmed(o.log, lease))
  }

  predicate PhasesKept(before: Node, after: Node) {
    forall l | l in before.items :: l in after.items && (!before.items[l].Pending? ==> !after.items[l].Pending?)
  }

  lemma StepKeepsPhases(kind: Kind, n: Node, a: Action)
    requires NodeInv(kind, n)
    ensures PhasesKept(n, Step(kind, n, a))
  {
    hide Next, Started, TouchOf, RowBacked;
    if a.Others? {
      forall l | l in n.items ensures l !in Started(kind, n.queue, a.e) {
        assert ItemBacked(n, l);
        StartedIsClaimed(kind, n.queue, a.e, l);
      }
    }
  }

  lemma SameContentSameMessage(row: Row, after: Row)
    requires SameContent(after, row)
    ensures MessageOf(after) == MessageOf(row)
  {
  }

  /** Steps that publish nothing keep the log's invariant. */
  lemma LogSurvives(o: Outlet, node: Node, cached: bool)
    requires LogInv(o) && Grows(o.node, node) && PhasesKept(o.node, node) && node.outputs == o.node.outputs
    ensures LogInv(Outlet(node, cached, o.log))
  {
    hide MessageOf;
    forall i | 0 <= i < |o.log| ensures Backed(Outlet(node, cached, o.log), i) {
      assert Backed(o, i);
      SameContentSameMessage(o.node.queue.rows[o.log[i].lease.id], node.queue.rows[o.log[i].lease.id]);
    }
  }

  /** A publication of a pass that had not reported yet extends the log. */
  lemma LogExtends(o: Outlet, node: Node, cached: bool, publication: Publication)
    requires LogInv(o) && Working(o.node, publication.lease) && LogInv(Outlet(node, false, o.log))
    requires publication.lease in node.items && !node.items[publication.lease].Pending? && publication.lease.id in node.queue.rows
    requires MessageOf(node.queue.rows[publication.lease.id]) == Ok(publication.message)
    ensures LogInv(Outlet(node, cached, o.log + [publication]))
  {
    hide MessageOf;
    var log := o.log + [publication];
    var after := Outlet(node, cached, log);
    forall i | 0 <= i < |log| ensures Backed(after, i) {
      assert i < |o.log| ==> Backed(Outlet(node, false, o.log), i);
    }
    forall i, j | 0 <= i < j < |log| ensures log[i].lease != log[j].lease {
      assert Backed(o, i);
    }
    forall lease | lease in node.outputs ensures HasConfirmed(log, lease) {
      var i :| 0 <= i < |o.log| && o.log[i].lease == lease && o.log[i].answer == Done(Ack(None));
      assert log[i].lease == lease && log[i].answer == Done(Ack(None));
    }
  }

  lemma LogReports(o: Outlet, lease: Lease)
    requires LogInv(o) && HasConfirmed(o.log, lease) && lease in o.node.items
    ensures LogInv(o.(node := o.node.(outputs := o.node.outputs[lease := []])))
  {
    hide MessageOf;
    var after := o.(node := o.node.(outputs := o.node.outputs[lease := []]));
    forall i | 0 <= i < |o.log| ensures Backed(after, i) {
      assert Backed(o, i);
    }
  }

  lemma FailedWorkKeepsLog(o: Outlet, lease: Lease, cause: Text, cached: bool)
    requires NodeInv(Outbox, o.node) && LogInv(o)
    ensures LogInv(Outlet(Step(Outbox, o.node, Work(lease, Err(cause))), cached, o.log))
  {
    StepGrows(Outbox, o.node, Work(lease, Err(cause)));
    StepKeepsPhases(Outbox, o.node, Work(lease, Err(cause)));
    hide NodeInv, Step, LogInv, Grows, PhasesKept;
    LogSurvives(o, Step(Outbox, o.node, Work(lease, Err(cause))), cached);
  }

  /** What a pass's work does to its node, as far as the log can see. */
  lemma WorkShape(n: Node, lease: Lease, ok: bool)
    requires Working(n, lease)
    ensures var broken := Step(Outbox, n, Work(lease, PublicationFailed(lease)));
            var after := Step(Outbox, n, Work(lease, if ok then Ok([]) else PublicationFailed(lease)));
            && after.queue == n.queue && lease in broken.items && !broken.items[lease].Pending? && broken.queue == n.queue
            && after.items == (if ok then broken.items[lease := Worked] else broken.items)
            && after.outputs == if ok then broken.outputs[lease := []] else broken.outputs
  {
  }

  lemma WorkedSameLog(o: Outlet, lease: Lease)
    requires LogInv(o) && lease in o.node.items
    ensures LogInv(o.(node := o.node.(items := o.node.items[lease := Worked])))
  {
    hide MessageOf;
    var after := o.(node := o.node.(items := o.node.items[lease := Worked]));
    forall i | 0 <= i < |o.log| ensures Backed(after, i) {
      assert Backed(o, i);
    }
  }

  lemma PublishKeepsLog(o: Outlet, lease: Lease, network: Network, panics: bool)
    requires NodeInv(Outbox, o.node) && LogInv(o) && Working(o.node, lease) && MessageOf(o.node.queue.rows[lease.id]).Ok?
    ensures LogInv(OutletNext(o, Publish(lease, network, panics)))
  {
    hide NodeInv, Step, LogInv, MessageOf;
    var confirmed := Confirmed(o.cached, network);
    var broken := Step(Outbox, o.node, Work(lease, PublicationFailed(lease)));
    var message := MessageOf(o.node.queue.rows[lease.id]).value;
    WorkShape(o.node, lease, confirmed && !panics);
    FailedWorkKeepsLog(o, lease, PublicationFailed(lease).error, confirmed);
    FailedWorkKeepsLog(o, lease, PublicationFailed(lease).error, false);
    if Reached(o.cached, network) {
      var publication := Publication(lease, message, Seen(o.cached, network));
      LogExtends(o, broken, confirmed, publication);
      if confirmed && !panics {
        var extended := Outlet(broken, confirmed, o.log + [publication]);
        assert extended.log[|o.log|] == publication;
        WorkedSameLog(extended, lease);
        LogReports(extended.(node := broken.(items := broken.items[lease := Worked])), lease);
      }
    }
  }

  lemma ActionKeepsInv(o: Outlet, action: OutletAction)
    requires NodeInv(Outbox, o.node) && LogInv(o)
    ensures NodeInv(Outbox, OutletNext(o, action).node) && LogInv(OutletNext(o, action))
  {
    hide NodeInv, Step, LogInv, MessageOf, Grows, PhasesKept;
    match action
    case OutboxDo(a) =>
      StepKeepsInv(Outbox, o.node, a);
      StepGrows(Outbox, o.node, a);
      StepKeepsPhases(Outbox, o.node, a);
      if !(a.Work? && a.result.Ok?) {
        LogSurvives(o, Step(Outbox, o.node, a), o.cached);
      }
    case Publish(lease, network, panics) =>
      if Working(o.node, lease) {
        var message := MessageOf(o.node.queue.rows[lease.id]);
        if message.Err? {
          StepKeepsInv(Outbox, o.node, Work(lease, FailedWork(lease, message.error)));
          FailedWorkKeepsLog(o, lease, FailedWork(lease, message.error).error, o.cached);
        } else {
          var result := if Confirmed(o.cached, network) && !panics then Ok([]) else PublicationFailed(lease);
          StepKeepsInv(Outbox, o.node, Work(lease, result));
          PublishKeepsLog(o, lease, network, panics);
        }
      }
  }

  lemma {:induction false} RunKeepsOutletInv(actions: seq<OutletAction>)
    ensures NodeInv(Outbox, Run(START, actions).node) && LogInv(Run(START, actions))
  {
    if actions == [] {
      EmptyNodeInv(Outbox, 0);
    } else {
      RunKeepsOutletInv(actions[..|actions| - 1]);
      ActionKeepsInv(Run(START, actions[..|actions| - 1]), actions[|actions| - 1]);
    }
  }

  // ---------- theorems over all runs ----------

  ghost predicate Reachable(o: Outlet) {
    exists actions :: o == Run(START, actions)
  }

  lemma ReachableIsInv(o: Outlet)
    requires Reachable(o)
    ensures NodeInv(Outbox, o.node) && LogInv(o)
  {
    var actions :| o == Run(START, actions);
    RunKeepsOutletInv(actions);
  }

  /** The leases under which a row reached the broker. */
  function PublishedUnder(log: seq<Publication>, id: Uuid): set<Lease> {
    set i | 0 <= i < |log| && log[i].lease.id == id :: log[i].lease
  }

  function CountFor(log: seq<Publication>, id: Uuid): nat {
    if log == [] then 0
    else CountFor(log[..|log| - 1], id) + if log[|log| - 1].lease.id == id then 1 else 0
  }

  lemma {:induction false} CountIsLeases(log: seq<Publication>, id: Uuid)
    requires OncePerPass(log)
    ensures CountFor(log, id) == |PublishedUnder(log, id)|
  {
    if log != [] {
      var init, last := log[..|log| - 1], log[|log| - 1];
      CountIsLeases(init, id);
      assert last.lease !in PublishedUnder(init, id);
      PublishedUnderAppend(init, last, id);
      assert log == init + [last];
    }
  }

  lemma PublishedUnderAppend(log: seq<Publication>, last: Publication, id: Uuid)
    ensures PublishedUnder(log + [last], id) == PublishedUnder(log, id) + if last.lease.id == id then {last.lease} else {}
  {
    var longer := log + [last];
    forall l | l in PublishedUnder(log, id) ensures l in PublishedUnder(longer, id) {
      var i :| 0 <= i < |log| && log[i].lease == l;
      assert longer[i].lease == l;
    }
    assert longer[|log|] == last;
  }

  /** A row never reaches the broker more often than it was claimed, and always as it was recorded: same
      payload, same metadata, so the same message id. */
  lemma PublicationsFitAttempts(o: Outlet, id: Uuid)
    requires Reachable(o) && id in o.node.queue.rows
    ensures var row := o.node.queue.rows[id];
            && CountFor(o.log, id) <= row.attempts
            && forall i | 0 <= i < |o.log| && o.log[i].lease.id == id :: Ok(o.log[i].message) == MessageOf(row)
  {
    ReachableIsInv(o);
    hide Run, MessageOf;
    assert RowBacked(Outbox, o.node, id);
    CountIsLeases(o.log, id);
    forall l | l in PublishedUnder(o.log, id) ensures l in LeasesOf(o.node.items, id) {
      var i :| 0 <= i < |o.log| && o.log[i].lease == l;
      assert Backed(o, i);
    }
    assert PublishedUnder(o.log, id) <= LeasesOf(o.node.items, id);
    SubsetSize(PublishedUnder(o.log, id), LeasesOf(o.node.items, id));
    forall i | 0 <= i < |o.log| && o.log[i].lease.id == id ensures Ok(o.log[i].message) == MessageOf(o.node.queue.rows[id]) {
      assert Backed(o, i);
    }
  }

  /** A Completed row was published under one of its claims and acknowledged without a return, with the
      payload and metadata it was recorded with; in particular its routing key is not blank. */
  lemma CompletedIsPublished(o: Outlet, id: Uuid) returns (i: nat)
    requires Reachable(o) && id in o.node.queue.rows && o.node.queue.rows[id].status.Completed?
    ensures var row := o.node.queue.rows[id];
            && i < |o.log| && o.log[i].lease.id == id && o.log[i].answer == Done(Ack(None))
            && row.meta.Some? && Decode(Outbox, row.meta.value) == Ok(o.log[i].message.meta) && o.log[i].message.payload == row.payload
            && !Blank(o.log[i].message.meta.routingKey)
  {
    ReachableIsInv(o);
    hide Run;
    CompletedHasOutputs(o.node, id);
    var token :| Lease(id, token) in o.node.outputs;
    assert HasConfirmed(o.log, Lease(id, token));
    var k :| 0 <= k < |o.log| && o.log[k].lease == Lease(id, token) && o.log[k].answer == Done(Ack(None));
    i := k;
    assert Backed(o, i);
  }

  lemma CompletedHasOutputs(n: Node, id: Uuid)
    requires NodeInv(Outbox, n) && id in n.queue.rows && n.queue.rows[id].status.Completed?
    ensures HasOutputs(n, id)
  {
    assert RowBacked(Outbox, n, id);
  }
}
