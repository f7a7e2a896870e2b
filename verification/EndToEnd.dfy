/** From one end of the assembled kernel to the other: what an acknowledged broker delivery becomes, and that a
    pass over an event calls its subscribers just as the registry does. */
module EndToEnd {
  import opened Base
  import opened Metadata
  import opened Queue
  import opened Ledger
  import opened Workers
  import opened Lineage
  import opened Links
  import opened Kernel
  import opened Pipeline
  import Intake

  // ---------- deliveries ----------

  /** An acknowledged delivery is an inbox row; once that row is Completed, it has caused a command that carries
      the row's payload, type and correlation. */
  lemma DeliveryReachesCommand(subscriptions: seq<Subscription>, s: Sys, i: nat)
    requires Reachable(subscriptions, s) && i < |s.log| && s.log[i].settlement.Acked?
    ensures s.log[i].id in s.inbox.queue.rows
    ensures var id := s.log[i].id;
            var row := s.inbox.queue.rows[id];
            && (row.status.Completed? ==> RowsFrom(s.forward, id) != {})
            && forall command | command in RowsFrom(s.forward, id) ::
                 command in s.commands.queue.rows && Caused(Inbox, id, row, command, s.commands.queue.rows[command])
  {
    ReachableIsInv(subscriptions, s);
    hide NodesInv, LinksInv, AllServed, Caused, Run;
    assert Intake.NotLost(s.log[i], s.inbox.queue.rows);
    InboxToCommands(subscriptions, s, s.log[i].id);
  }

  /** Nobody but the intake stores a message under this id. */
  predicate OnlyReceived(actions: seq<SysAction>, id: Uuid) {
    forall i | 0 <= i < |actions| && actions[i].InboxDo? && IsRecord(actions[i].a) :: actions[i].a.e.id != id
  }

  predicate HoldsFirst(s: Sys, id: Uuid) {
    Intake.HoldsFirst(Intake.World(s.inbox.queue, s.log), id)
  }

  lemma InboxRowsRemain(s: Sys, after: Sys, id: Uuid)
    requires HoldsFirst(s, id) && after.log == s.log && Grows(s.inbox, after.inbox)
    requires id in after.inbox.queue.rows ==> id in s.inbox.queue.rows
    ensures HoldsFirst(after, id)
  {
  }

  lemma ActionKeepsFirst(subscriptions: seq<Subscription>, s: Sys, action: SysAction, id: Uuid)
    requires SysInv(subscriptions, s) && HoldsFirst(s, id)
    requires action.InboxDo? && IsRecord(action.a) ==> action.a.e.id != id
    ensures HoldsFirst(SysNext(subscriptions, s, action), id)
  {
    hide NodeInv, LinkInv, Step, Advance, Grows, AllServed, NothingLost, NoOrphans, HoldsFirst;
    var after := SysNext(subscriptions, s, action);
    match action
    case InboxDo(a) =>
      if Direct(a) {
        StepGrows(Inbox, s.inbox, a);
        if id in Step(Inbox, s.inbox, a).queue.rows {
          InboxRowIsOld(s.inbox, a, id);
        }
        InboxRowsRemain(s, after, id);
      }
    case ForwardDo(m) =>
      AdvanceGrows(Inbox, ForwardPair(s), m);
      AdvanceKeepsUpstream(Inbox, ForwardPair(s), m);
      InboxRowsRemain(s, after, id);
    case Receive(turn) => ReceiveKeepsFirst(subscriptions, s, turn, id);
    case _ =>
      GrowsReflexive(s.inbox);
      InboxRowsRemain(s, after, id);
  }

  lemma InboxRowIsOld(n: Node, a: Action, id: Uuid)
    requires NodeInv(Inbox, n) && (IsRecord(a) ==> a.e.id != id) && id in Step(Inbox, n, a).queue.rows
    ensures id in n.queue.rows
  {
    if !IsRecord(a) {
      StepAddsNoRows(Inbox, n, a, id);
    } else if id !in n.queue.rows {
      RowsAppearOnlyByRecord(Inbox, n.queue, a.e, id);
    }
  }

  lemma ReceiveKeepsFirst(subscriptions: seq<Subscription>, s: Sys, turn: Intake.Turn, id: Uuid)
    requires SysInv(subscriptions, s) && HoldsFirst(s, id)
    ensures HoldsFirst(SysNext(subscriptions, s, Receive(turn)), id)
  {
    hide NodeInv, LinksInv, AllServed, NothingLost, AfterTurn;
    if turn.Receive? && turn.others == [] {
      var w := Intake.World(s.inbox.queue, s.log);
      KnowNode(Inbox, s.inbox, id);
      ReceivedIsTurn(s.inbox, s.log, turn);
      Intake.TurnKeepsFirst(w, turn, id);
    }
  }

  lemma {:induction false} RunKeepsFirst(subscriptions: seq<Subscription>, actions: seq<SysAction>, id: Uuid)
    requires OnlyReceived(actions, id)
    ensures HoldsFirst(Run(subscriptions, START, actions), id)
  {
    if actions != [] {
      var init, action := actions[..|actions| - 1], actions[|actions| - 1];
      RunKeepsFirst(subscriptions, init, id);
      RunKeepsSysInv(subscriptions, init);
      ActionKeepsFirst(subscriptions, Run(subscriptions, START, init), action, id);
    }
  }

  /** Every command of the delivery carries its content: the payload, type, source and correlation of the first
      delivery stored under its id, however often and altered it was redelivered. */
  lemma FirstDeliveryReachesCommand(subscriptions: seq<Subscription>, actions: seq<SysAction>, i: nat, command: Uuid)
    requires var s := Run(subscriptions, START, actions);
             i < |s.log| && s.log[i].settlement.Acked? && OnlyReceived(actions, s.log[i].id) && command in RowsFrom(s.forward, s.log[i].id)
    ensures var s := Run(subscriptions, START, actions);
            var id := s.log[i].id;
            var first := Intake.FirstStored(s.log, id);
            && first.Some? && command in s.commands.queue.rows
            && Carries(id, first.value.delivery, command, s.commands.queue.rows[command])
  {
    var s := Run(subscriptions, START, actions);
    var id := s.log[i].id;
    RunKeepsFirst(subscriptions, actions, id);
    DeliveryReachesCommand(subscriptions, s, i);
    hide Run, Caused, OnlyReceived;
    var first := Intake.FirstStored(s.log, id);
    CommandOfDelivery(id, s.inbox.queue.rows[id], first.value, command, s.commands.queue.rows[command]);
  }

  /** The command row says what the delivery said, and names it as its cause. */
  predicate Carries(id: Uuid, delivery: Intake.Delivery, command: Uuid, row: Row) {
    && row.payload == delivery.payload
    && Some(row.route) == Intake.NonEmpty(delivery.routingKey)
    && row.meta.Some?
    && Decode(Commands, row.meta.value)
       == Ok(CommandMeta(command, Intake.ParseId(delivery.correlation), Some(id), Intake.NonEmpty(delivery.exchange)))
  }

  lemma CommandOfDelivery(id: Uuid, message: Row, first: Intake.Handled, command: Uuid, row: Row)
    requires SameContent(message, Intake.InboxRow(first.delivery, id, first.clock)) && Caused(Inbox, id, message, command, row)
    ensures Carries(id, first.delivery, command, row)
  {
    RoundTripIff(Intake.MetaOf(first.delivery, id));
  }

  // ---------- subscribers ----------

  function CallsOf(lease: Lease, answers: seq<bool>, n: nat): seq<SysAction>
    requires n <= |answers|
  {
    seq(n, i requires 0 <= i < n => CallNext(lease, answers[i]))
  }

  /** A pass over an event that calls its subscribers until one fails, and then reports. */
  function DeliverAll(lease: Lease, answers: seq<bool>): seq<SysAction> {
    CallsOf(lease, answers, Calls(answers)) + [EndCalls(lease)]
  }

  lemma RunAppend(subscriptions: seq<Subscription>, s: Sys, actions: seq<SysAction>, last: SysAction)
    ensures Run(subscriptions, s, actions + [last]) == SysNext(subscriptions, Run(subscriptions, s, actions), last)
  {
    assert (actions + [last])[..|actions|] == actions;
  }

  lemma {:induction false} OkCalls(subscriptions: seq<Subscription>, s: Sys, lease: Lease, answers: seq<bool>, n: nat)
    requires Working(s.events, lease) && lease !in s.served && |answers| == |Audience(subscriptions, s, lease)|
    requires n <= |answers| && forall i | 0 <= i < n :: answers[i]
    ensures var after := Run(subscriptions, s, CallsOf(lease, answers, n));
            after == s.(served := after.served) && ServedBy(after, lease) == Audience(subscriptions, s, lease)[..n]
  {
    hide SubscribersOf;
    if n > 0 {
      OkCalls(subscriptions, s, lease, answers, n - 1);
      assert CallsOf(lease, answers, n) == CallsOf(lease, answers, n - 1) + [CallNext(lease, true)];
      RunAppend(subscriptions, s, CallsOf(lease, answers, n - 1), CallNext(lease, true));
    }
  }

  /** The pass's calls are the registry's: the subscribers that answered Ok are those that `DispatchEvent` calls,
      less the one that failed, and the work returns Ok exactly when its loop does. */
  lemma CallsAreDispatch(subscriptions: seq<Subscription>, s: Sys, lease: Lease, answers: seq<bool>)
    requires Working(s.events, lease) && lease !in s.served && |answers| == |Audience(subscriptions, s, lease)|
    ensures var after := Run(subscriptions, s, DeliverAll(lease, answers));
            && lease in after.events.items && (after.events.items[lease].Worked? <==> AllOk(answers))
            && (!AllOk(answers) ==> after.events.items[lease].Broken?)
            && ServedBy(after, lease) == Audience(subscriptions, s, lease)[..Calls(answers) - if AllOk(answers) then 0 else 1]
  {
    hide SubscribersOf, SysNext, Run, Calls;
    var n := Calls(answers);
    RunAppend(subscriptions, s, CallsOf(lease, answers, n), EndCalls(lease));
    LastCallFails(answers);
    if AllOk(answers) {
      OkCalls(subscriptions, s, lease, answers, n);
      CallsEnd(subscriptions, Run(subscriptions, s, CallsOf(lease, answers, n)), lease);
    } else {
      var before := Run(subscriptions, s, CallsOf(lease, answers, n - 1));
      OkCalls(subscriptions, s, lease, answers, n - 1);
      assert CallsOf(lease, answers, n) == CallsOf(lease, answers, n - 1) + [CallNext(lease, false)];
      RunAppend(subscriptions, s, CallsOf(lease, answers, n - 1), CallNext(lease, false));
      CallBreaks(subscriptions, before, lease);
      BrokenStays(subscriptions, SysNext(subscriptions, before, CallNext(lease, false)), lease);
    }
  }

  lemma CallsEnd(subscriptions: seq<Subscription>, s: Sys, lease: Lease)
    requires Working(s.events, lease) && |ServedBy(s, lease)| == |Audience(subscriptions, s, lease)|
    ensures var after := SysNext(subscriptions, s, EndCalls(lease));
            lease in after.events.items && after.events.items[lease].Worked? && ServedBy(after, lease) == ServedBy(s, lease)
  {
    hide SubscribersOf;
  }

  lemma CallBreaks(subscriptions: seq<Subscription>, s: Sys, lease: Lease)
    requires Working(s.events, lease) && |ServedBy(s, lease)| < |Audience(subscriptions, s, lease)|
    ensures var after := SysNext(subscriptions, s, CallNext(lease, false));
            lease in after.events.items && after.events.items[lease].Broken? && after.served == s.served
  {
    hide SubscribersOf;
  }

  lemma BrokenStays(subscriptions: seq<Subscription>, s: Sys, lease: Lease)
    requires lease in s.events.items && s.events.items[lease].Broken?
    ensures SysNext(subscriptions, s, EndCalls(lease)) == s
  {
  }

  /** Without a failure everyone is called; otherwise the last one called is the one that failed. */
  lemma {:induction false} LastCallFails(answers: seq<bool>)
    ensures AllOk(answers) ==> Calls(answers) == |answers|
    ensures !AllOk(answers) ==> Calls(answers) > 0 && !answers[Calls(answers) - 1]
    ensures forall i | 0 <= i < Calls(answers) - 1 :: answers[i]
  {
    if answers != [] && answers[0] {
      assert AllOk(answers) <==> AllOk(answers[1..]) by {
        assert forall i | 0 < i < |answers| :: answers[1..][i - 1] == answers[i];
      }
      LastCallFails(answers[1..]);
    }
  }
}
