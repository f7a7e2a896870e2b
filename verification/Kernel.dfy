/** The kernel's registries: which registrations it accepts, which handler a command type reaches, and the
    order in which an event's subscribers are called. */
module Kernel {
  import opened Base

  /** A handler or subscriber object, by identity. */
  type Port = nat

  datatype Handler = Handler(commandType: Text, port: Port)

  datatype Subscription = Subscription(eventType: Text, name: string, port: Port)

  datatype KernelError =
    | DuplicateCommandHandler(commandType: Text)
    | ReservedSubscriberName(name: string)
    | DuplicateEventSubscriber(eventType: Text, name: string)
    | OutboxSubscriberUnsupported(eventType: Text)

  const OUTBOX_SUBSCRIBER := "_outbox"

  // ---------- validation ----------

  predicate DistinctTypes(handlers: seq<Handler>) {
    forall i, j | 0 <= i < j < |handlers| :: handlers[i].commandType != handlers[j].commandType
  }

  predicate DistinctSubscriptions(subscriptions: seq<Subscription>) {
    forall i, j | 0 <= i < j < |subscriptions| ::
      subscriptions[i].eventType != subscriptions[j].eventType || subscriptions[i].name != subscriptions[j].name
  }

  predicate Unreserved(subscriptions: seq<Subscription>) {
    forall i | 0 <= i < |subscriptions| :: subscriptions[i].name != OUTBOX_SUBSCRIBER
  }

  predicate DistinctNames(names: seq<Text>) {
    forall i, j | 0 <= i < j < |names| :: names[i] != names[j]
  }

  /** The shortest prefix that is not fine is the one ending at `n`. */
  predicate FirstBadHandler(handlers: seq<Handler>, n: nat) {
    n < |handlers| && DistinctTypes(handlers[..n]) && !DistinctTypes(handlers[..n + 1])
  }

  predicate FirstBadSubscription(subscriptions: seq<Subscription>, n: nat) {
    && n < |subscriptions|
    && DistinctSubscriptions(subscriptions[..n]) && Unreserved(subscriptions[..n])
    && (!DistinctSubscriptions(subscriptions[..n + 1]) || subscriptions[n].name == OUTBOX_SUBSCRIBER)
  }

  /** Accepts exactly the registrations without a repeated command type, a reserved or repeated subscriber
      or an outbox subscriber, and names the first offender, looking in that order. */
  method Validate(handlers: seq<Handler>, subscriptions: seq<Subscription>, outbox: seq<Text>) returns (r: Result<(), KernelError>)
    ensures r.Ok? <==> DistinctTypes(handlers) && Unreserved(subscriptions) && DistinctSubscriptions(subscriptions) && outbox == []
    ensures (exists i :: 0 <= i < |subscriptions| && subscriptions[i].name == "_outbox") ==> r.Err?
    ensures DistinctTypes(handlers) && subscriptions != [] && subscriptions[0].name == "_outbox" ==> r == Err(ReservedSubscriberName("_outbox"))
    ensures !DistinctTypes(handlers) ==> r.Err? && exists n: nat :: FirstBadHandler(handlers, n) && r.error == DuplicateCommandHandler(handlers[n].commandType)
    ensures DistinctTypes(handlers) && !(Unreserved(subscriptions) && DistinctSubscriptions(subscriptions)) ==>
              r.Err? && exists n: nat :: FirstBadSubscription(subscriptions, n)
                                    && r.error == if subscriptions[n].name == OUTBOX_SUBSCRIBER then ReservedSubscriberName(OUTBOX_SUBSCRIBER)
                                                  else DuplicateEventSubscriber(subscriptions[n].eventType, subscriptions[n].name)
    ensures DistinctTypes(handlers) && Unreserved(subscriptions) && DistinctSubscriptions(subscriptions) && outbox != [] ==>
              r == Err(if DistinctNames(outbox) then OutboxSubscriberUnsupported(outbox[0]) else ReservedSubscriberName(OUTBOX_SUBSCRIBER))
  {
    var commandTypes: set<Text> := {};
    for n := 0 to |handlers|
      invariant DistinctTypes(handlers[..n])
      invariant commandTypes == set i | 0 <= i < n :: handlers[i].commandType
    {
      if handlers[n].commandType in commandTypes {
        var i :| 0 <= i < n && handlers[i].commandType == handlers[n].commandType;
        assert handlers[..n + 1][i].commandType == handlers[..n + 1][n].commandType;
        assert FirstBadHandler(handlers, n);
        return Err(DuplicateCommandHandler(handlers[n].commandType));
      }
      commandTypes := commandTypes + {handlers[n].commandType};
    }
    assert handlers[..|handlers|] == handlers;

    var subscribers: set<(Text, string)> := {};
    for n := 0 to |subscriptions|
      invariant DistinctSubscriptions(subscriptions[..n]) && Unreserved(subscriptions[..n])
      invariant subscribers == set i | 0 <= i < n :: (subscriptions[i].eventType, subscriptions[i].name)
    {
      var s := subscriptions[n];
      if s.name == OUTBOX_SUBSCRIBER {
        assert FirstBadSubscription(subscriptions, n);
        return Err(ReservedSubscriberName(s.name));
      }
      if (s.eventType, s.name) in subscribers {
        var i :| 0 <= i < n && (subscriptions[i].eventType, subscriptions[i].name) == (s.eventType, s.name);
        assert subscriptions[..n + 1][i].name == subscriptions[..n + 1][n].name;
        assert FirstBadSubscription(subscriptions, n);
        return Err(DuplicateEventSubscriber(s.eventType, s.name));
      }
      subscribers := subscribers + {(s.eventType, s.name)};
    }
    assert subscriptions[..|subscriptions|] == subscriptions;

    var outboxTypes: set<Text> := {};
    for n := 0 to |outbox|
      invariant DistinctNames(outbox[..n])
      invariant outboxTypes == set i | 0 <= i < n :: outbox[i]
    {
      if outbox[n] in outboxTypes {
        return Err(ReservedSubscriberName(OUTBOX_SUBSCRIBER));
      }
      outboxTypes := outboxTypes + {outbox[n]};
    }
    assert outbox[..|outbox|] == outbox;

    if outbox != [] {
      return Err(OutboxSubscriberUnsupported(outbox[0]));
    }
    r := Ok(());
  }

  // ---------- command handlers ----------

  /** Collecting into a map: a later registration replaces an earlier one of the same type. */
  function FromHandlers(handlers: seq<Handler>): map<Text, Port> {
    if handlers == [] then map[]
    else
      var last := handlers[|handlers| - 1];
      FromHandlers(handlers[..|handlers| - 1])[last.commandType := last.port]
  }

  /** The registry answers with some registration of the type, and knows exactly the registered types. */
  lemma {:induction false} HandlersAreRegistered(handlers: seq<Handler>, commandType: Text)
    ensures commandType in FromHandlers(handlers) ==> Handler(commandType, FromHandlers(handlers)[commandType]) in handlers
    ensures commandType !in FromHandlers(handlers) ==> forall port :: Handler(commandType, port) !in handlers
  {
    if handlers != [] {
      HandlersAreRegistered(handlers[..|handlers| - 1], commandType);
      assert handlers == handlers[..|handlers| - 1] + [handlers[|handlers| - 1]];
    }
  }

  /** After validation the registry agrees with the registration list: no handler is dropped. */
  lemma NoHandlerIsDropped(handlers: seq<Handler>, h: Handler)
    requires DistinctTypes(handlers)
    ensures h in handlers <==> h.commandType in FromHandlers(handlers) && FromHandlers(handlers)[h.commandType] == h.port
  {
    HandlersAreRegistered(handlers, h.commandType);
  }

  /** Without it one is: a later registration of the same type takes over, whatever comes between and after. */
  lemma {:induction false} LastRegistrationWins(before: seq<Handler>, h: Handler, after: seq<Handler>)
    requires forall i | 0 <= i < |after| :: after[i].commandType != h.commandType
    ensures var registry := FromHandlers(before + [h] + after);
            h.commandType in registry && registry[h.commandType] == h.port
  {
    var all := before + [h] + after;
    if after == [] {
      assert all[..|all| - 1] == before;
    } else {
      assert all[..|all| - 1] == before + [h] + after[..|after| - 1];
      LastRegistrationWins(before, h, after[..|after| - 1]);
    }
  }

  // ---------- event subscribers ----------

  /** The subscribers of an event type, in registration order. */
  function SubscribersOf(subscriptions: seq<Subscription>, eventType: Text): seq<Subscription> {
    if subscriptions == [] then []
    else
      var last := subscriptions[|subscriptions| - 1];
      SubscribersOf(subscriptions[..|subscriptions| - 1], eventType) + if last.eventType == eventType then [last] else []
  }

  /** Nothing is lost, invented or reordered: the subscribers of a type are a registration-ordered choice of
      exactly the registrations of that type. */
  lemma {:induction false} SubscribersAreRegistered(subscriptions: seq<Subscription>, eventType: Text, s: Subscription)
    ensures s in SubscribersOf(subscriptions, eventType) <==> s in subscriptions && s.eventType == eventType
    ensures multiset(SubscribersOf(subscriptions, eventType))[s] == if s.eventType == eventType then multiset(subscriptions)[s] else 0
  {
    if subscriptions != [] {
      var init := subscriptions[..|subscriptions| - 1];
      SubscribersAreRegistered(init, eventType, s);
      assert subscriptions == init + [subscriptions[|subscriptions| - 1]];
    }
  }

  lemma {:induction false} SubscribersKeepOrder(before: seq<Subscription>, after: seq<Subscription>, eventType: Text)
    ensures SubscribersOf(before + after, eventType) == SubscribersOf(before, eventType) + SubscribersOf(after, eventType)
  {
    if after == [] {
      assert before + after == before;
    } else {
      assert (before + after)[..|before + after| - 1] == before + after[..|after| - 1];
      SubscribersKeepOrder(before, after[..|after| - 1], eventType);
    }
  }

  predicate IsRegistry(byEvent: map<Text, seq<Subscription>>, subscriptions: seq<Subscription>) {
    forall t | t in byEvent :: byEvent[t] == SubscribersOf(subscriptions, t)
  }

  ghost predicate Covers(byEvent: map<Text, seq<Subscription>>, subscriptions: seq<Subscription>) {
    forall t: Text :: t !in byEvent ==> SubscribersOf(subscriptions, t) == []
  }

  method FromSubscribers(subscriptions: seq<Subscription>) returns (byEvent: map<Text, seq<Subscription>>)
    ensures IsRegistry(byEvent, subscriptions) && Covers(byEvent, subscriptions)
  {
    byEvent := map[];
    for n := 0 to |subscriptions|
      invariant IsRegistry(byEvent, subscriptions[..n]) && Covers(byEvent, subscriptions[..n])
    {
      var s := subscriptions[n];
      assert subscriptions[..n + 1][..n] == subscriptions[..n];
      var present := if s.eventType in byEvent then byEvent[s.eventType] else [];
      byEvent := byEvent[s.eventType := present + [s]];
    }
    assert subscriptions[..|subscriptions|] == subscriptions;
  }

  /** How many subscribers are called: all up to and including the first that fails. */
  function Calls(answers: seq<bool>): (n: nat)
    ensures n <= |answers|
    ensures forall i | 0 <= i < n - 1 :: answers[i]
    ensures n < |answers| ==> n > 0 && !answers[n - 1]
  {
    if answers == [] then 0 else if !answers[0] then 1 else 1 + Calls(answers[1..])
  }

  predicate AllOk(answers: seq<bool>) {
    forall i | 0 <= i < |answers| :: answers[i]
  }

  /** Call the subscribers of the event's type in order until one fails; `answers` are what they would answer. */
  method Handle(byEvent: map<Text, seq<Subscription>>, eventType: Text, answers: seq<bool>) returns (ok: bool, called: seq<Subscription>)
    requires |answers| == if eventType in byEvent then |byEvent[eventType]| else 0
    ensures ok <==> AllOk(answers)
    ensures eventType in byEvent ==> called == byEvent[eventType][..Calls(answers)]
    ensures eventType !in byEvent ==> ok && called == []
    ensures ok ==> |called| == |answers|
  {
    called := [];
    var subscribers := if eventType in byEvent then byEvent[eventType] else [];
    var n := 0;
    while n < |subscribers|
      invariant 0 <= n <= |subscribers| && called == subscribers[..n]
      invariant forall i | 0 <= i < n :: answers[i]
      invariant Calls(answers) == n + Calls(answers[n..])
    {
      called := called + [subscribers[n]];
      if !answers[n] {
        return false, called;
      }
      assert answers[n..][1..] == answers[n + 1..];
      n := n + 1;
    }
    ok := true;
  }

  /** Registration and dispatch together: whatever the map looks like, an event reaches the subscribers
      registered for its type, in registration order, up to the first failure. */
  method DispatchEvent(subscriptions: seq<Subscription>, eventType: Text, answers: seq<bool>) returns (ok: bool, called: seq<Subscription>)
    requires |answers| == |SubscribersOf(subscriptions, eventType)|
    ensures ok <==> AllOk(answers)
    ensures called == SubscribersOf(subscriptions, eventType)[..Calls(answers)]
    ensures ok ==> called == SubscribersOf(subscriptions, eventType)
  {
    var byEvent := FromSubscribers(subscriptions);
    ok, called := Handle(byEvent, eventType, answers);
  }
}
