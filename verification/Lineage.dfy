/** What the work of one queue records in the next: inbox messages become commands, command handlers' events
    become event rows, each stamped with where it came from. */
module Lineage {
  import opened Base
  import opened Metadata
  import opened Queue
  import opened Workers
  import opened Repository

  /** An application event as a handler returns it. */
  datatype AppEvent = AppEvent(eventType: Text, payload: Text, sequence: Option<nat>)

  predicate ValidSequence(sequence: Option<nat>) {
    sequence.Some? ==> 1 <= sequence.value <= I64_MAX
  }

  /** The inbox consumer's conversion: a fresh command caused by the message, carrying its correlation. */
  function CommandFor(message: Row, newId: Uuid, clock: Time): Result<seq<Output>, Text> {
    if message.meta.None? then Err(Lit("missing metadata"))
    else
      match Decode(Inbox, message.meta.value)
      case Err(error) => Err(Lit(error))
      case Ok(meta) =>
        if meta.routing.None? then Err(Lit("missing routing_key"))
        else Ok([Output(newId, NewRow(CommandMeta(newId, meta.correlationId, meta.messageId, meta.source),
                                      message.payload, meta.routing.value, clock, clock, clock))])
  }

  function Correlation(command: Meta): Option<Uuid>
    requires command.CommandMeta?
  {
    if command.correlationId.Some? then command.correlationId else Some(command.commandId)
  }

  function EventRow(event: AppEvent, id: Uuid, causation: Option<Uuid>, correlation: Option<Uuid>, clock: Time): Row {
    NewRow(EventMeta(event.sequence, id, correlation, causation, None), event.payload, event.eventType, clock, clock, clock)
  }

  /** The handler wrapper: the handler's own error, an error if any sequence is invalid, or one stamped event
      per returned one, under fresh ids. */
  function EventsFor(command: Row, answer: Result<seq<AppEvent>, Text>, ids: seq<Uuid>, clock: Time): Result<seq<Output>, Text>
    requires answer.Ok? ==> |ids| == |answer.value|
  {
    if answer.Err? then Err(answer.error)
    else if exists i | 0 <= i < |answer.value| :: !ValidSequence(answer.value[i].sequence) then Err(Lit("sequence must be between 1 and i64::MAX"))
    else
      var meta := if command.meta.Some? && Decode(Commands, command.meta.value).Ok? then Some(Decode(Commands, command.meta.value).value) else None;
      var causation := if meta.Some? then Some(meta.value.commandId) else None;
      var correlation := if meta.Some? then Correlation(meta.value) else None;
      Ok(seq(|answer.value|, i requires 0 <= i < |answer.value| =>
             Output(ids[i], EventRow(answer.value[i], ids[i], causation, correlation, clock))))
  }

  /** How many of `n` outputs get stored when the transactions end as given: the loop stops at the first
      one that is not acknowledged, which may still have committed. */
  function StoredCount(n: nat, fates: seq<Fate>): (stored: nat)
    ensures stored <= n
  {
    if n == 0 || fates == [] then 0
    else
      match fates[0]
      case Committed => 1 + StoredCount(n - 1, fates[1..])
      case Ambiguous => 1
      case RolledBack => 0
  }

  predicate AllAcknowledged(n: nat, fates: seq<Fate>) {
    n <= |fates| && forall i | 0 <= i < n :: fates[i].Committed?
  }

  lemma {:induction false} AcknowledgedAreStored(n: nat, fates: seq<Fate>)
    requires AllAcknowledged(n, fates)
    ensures StoredCount(n, fates) == n && Tried(n, fates) == n
  {
    if n > 0 {
      AcknowledgedAreStored(n - 1, fates[1..]);
    }
  }

  /** The downstream row names its cause and carries its cause's correlation, or its cause's id if none. */
  predicate Caused(kind: Kind, cause: Uuid, up: Row, id: Uuid, down: Row) {
    up.meta.Some? && down.meta.Some? &&
    match kind
    case Inbox =>
      (match (Decode(Inbox, up.meta.value), Decode(Commands, down.meta.value))
       case (Ok(m), Ok(c)) =>
         && c == CommandMeta(id, m.correlationId, Some(cause), m.source)
         && down.payload == up.payload && m.routing == Some(down.route)
       case _ => false)
    case Commands =>
      (match (Decode(Commands, up.meta.value), Decode(Events, down.meta.value))
       case (Ok(c), Ok(e)) =>
         && e.eventId == id && e.causationId == Some(cause)
         && e.correlationId == if c.correlationId.Some? then c.correlationId else Some(cause)
       case _ => false)
    case _ => false
  }

  predicate AllCaused(kind: Kind, target: Kind, cause: Uuid, up: Row, outputs: seq<Output>) {
    forall i | 0 <= i < |outputs| :: IsRecordable(target, outputs[i].id, outputs[i].row) && Caused(kind, cause, up, outputs[i].id, outputs[i].row)
  }

  lemma CommandIsCaused(id: Uuid, message: Row, newId: Uuid, clock: Time)
    requires Recorded(Inbox, id, message) && CommandFor(message, newId, clock).Ok?
    ensures var outputs := CommandFor(message, newId, clock).value;
            |outputs| == 1 && AllCaused(Inbox, Commands, id, message, outputs)
  {
    var meta := Decode(Inbox, message.meta.value).value;
    RoundTripIff(CommandMeta(newId, meta.correlationId, meta.messageId, meta.source));
  }

  lemma EventsAreCaused(id: Uuid, command: Row, answer: Result<seq<AppEvent>, Text>, ids: seq<Uuid>, clock: Time)
    requires Recorded(Commands, id, command) && (answer.Ok? ==> |ids| == |answer.value|) && EventsFor(command, answer, ids, clock).Ok?
    ensures AllCaused(Commands, Events, id, command, EventsFor(command, answer, ids, clock).value)
    ensures |EventsFor(command, answer, ids, clock).value| == |answer.value|
  {
    var meta := Decode(Commands, command.meta.value).value;
    var outputs := EventsFor(command, answer, ids, clock).value;
    forall i | 0 <= i < |outputs|
      ensures IsRecordable(Events, outputs[i].id, outputs[i].row) && Caused(Commands, id, command, outputs[i].id, outputs[i].row)
    {
      var stamped := EventMeta(answer.value[i].sequence, ids[i], Correlation(meta), Some(meta.commandId), None);
      assert ValidSequence(answer.value[i].sequence);
      assert outputs[i].row.meta == Some(Encode(stamped));
      RoundTripIff(stamped);
    }
  }

  /** A row that has just been recorded and never claimed, due at once. */
  predicate IsNew(row: Row, clock: Time) {
    && row.status == Status.Received && row.attempts == 0 && row.token == None && row.reservedAt == None
    && row.scheduledAt == clock && row.receivedAt == clock && row.updatedAt == clock && row.processedAt == None
    && row.lastError == None && row.extra == None
  }

  /** A message is forwarded exactly when its metadata reads and names a routing key, as one new command. */
  lemma ForwardsIff(message: Row, newId: Uuid, clock: Time)
    ensures CommandFor(message, newId, clock).Ok?
       <==> message.meta.Some? && Decode(Inbox, message.meta.value).Ok? && Decode(Inbox, message.meta.value).value.routing.Some?
    ensures CommandFor(message, newId, clock).Ok? ==>
              var outputs := CommandFor(message, newId, clock).value;
              |outputs| == 1 && outputs[0].id == newId && IsNew(outputs[0].row, clock)
  {
  }

  /** An execution has events to store exactly when the handler returned Ok and every sequence is absent or fits
      in a positive signed 64-bit integer; they are one new row each, in order. */
  lemma ExecutesIff(command: Row, answer: Result<seq<AppEvent>, Text>, ids: seq<Uuid>, clock: Time)
    requires answer.Ok? ==> |ids| == |answer.value|
    ensures EventsFor(command, answer, ids, clock).Ok?
       <==> answer.Ok? && forall i | 0 <= i < |answer.value| ::
              answer.value[i].sequence.Some? ==> 1 <= answer.value[i].sequence.value <= 9_223_372_036_854_775_807
    ensures EventsFor(command, answer, ids, clock).Ok? ==>
              var outputs := EventsFor(command, answer, ids, clock).value;
              && |outputs| == |answer.value|
              && forall i | 0 <= i < |outputs| :: outputs[i].id == ids[i] && IsNew(outputs[i].row, clock)
    ensures answer.Err? ==> EventsFor(command, answer, ids, clock) == Err(answer.error)
  {
  }

  /** The row holds this event: its payload, its type, its sequence. */
  predicate CarriesEvent(id: Uuid, row: Row, event: AppEvent) {
    && row.payload == event.payload && row.route == event.eventType
    && row.meta.Some? && Decode(Events, row.meta.value).Ok?
    && var meta := Decode(Events, row.meta.value).value;
       meta.EventMeta? && meta.eventId == id && meta.sequence == event.sequence && meta.source == None
  }

  /** An execution is stored event by event: the i-th row carries the i-th event under the i-th id. */
  lemma EventsAreCarried(command: Row, events: seq<AppEvent>, ids: seq<Uuid>, clock: Time, i: nat)
    requires |ids| == |events| && EventsFor(command, Ok(events), ids, clock).Ok? && i < |events|
    ensures var outputs := EventsFor(command, Ok(events), ids, clock).value;
            |outputs| == |events| && outputs[i].id == ids[i] && CarriesEvent(ids[i], outputs[i].row, events[i])
  {
    var row := EventsFor(command, Ok(events), ids, clock).value[i].row;
    assert ValidSequence(events[i].sequence);
    var meta := if command.meta.Some? && Decode(Commands, command.meta.value).Ok? then Some(Decode(Commands, command.meta.value).value) else None;
    var stamped := EventMeta(events[i].sequence, ids[i], if meta.Some? then Correlation(meta.value) else None,
                             if meta.Some? then Some(meta.value.commandId) else None, None);
    assert row.meta == Some(Encode(stamped));
    RoundTripIff(stamped);
  }

  // ---------- the dispatch loop ----------

  predicate AllRecordable(kind: Kind, outputs: seq<Output>) {
    forall i | 0 <= i < |outputs| :: IsRecordable(kind, outputs[i].id, outputs[i].row)
  }

  /** How many outputs the loop tries to store: all up to and including the first that is not acknowledged. */
  function Tried(n: nat, fates: seq<Fate>): (tried: nat)
    ensures tried <= n
  {
    if n == 0 || fates == [] then 0 else if fates[0].Committed? then 1 + Tried(n - 1, fates[1..]) else 1
  }

  /** The first `n` blocks of others' events, each followed by the next own event while there is one. */
  function Interleaved(others: seq<seq<Event>>, own: seq<Event>, n: nat): seq<Event>
    requires n <= |others|
  {
    if n == 0 then []
    else Interleaved(others, own, n - 1) + others[n - 1] + if n <= |own| then [own[n - 1]] else []
  }

  /** The queue after `tried` rounds, when the first `stored` outputs were recorded in them. */
  function Dispatched(kind: Kind, s: State, outputs: seq<Output>, others: seq<seq<Event>>, stored: nat, tried: nat): State
    requires stored <= |outputs| && tried <= |others|
  {
    Exec(kind, s, Interleaved(others, Records(outputs[..stored]), tried))
  }

  /** Store the outputs one by one, with others at work before each; stop at the first error. */
  method Dispatch(store: Repository, outputs: seq<Output>, others: seq<seq<Event>>, fates: seq<Fate>) returns (r: Result<(), Error>)
    requires |outputs| <= |fates| && |outputs| <= |others| && AllRecordable(store.kind, outputs)
    modifies store
    ensures r.Ok? <==> AllAcknowledged(|outputs|, fates)
    ensures store.State() == Dispatched(store.kind, old(store.State()), outputs, others, StoredCount(|outputs|, fates), Tried(|outputs|, fates))
  {
    hide Next, Exec, IsRecordable, AllRecordable, StoredCount, Tried, Dispatched, AllAcknowledged;
    ghost var kind, s := store.kind, store.State();
    NothingDispatched(kind, s, outputs, others);
    var n := 0;
    while n < |outputs|
      invariant 0 <= n <= |outputs| && store.State() == Dispatched(kind, s, outputs, others, n, n)
      invariant forall i | 0 <= i < n :: fates[i].Committed?
    {
      OneMoreDispatched(kind, s, outputs, others, fates, n);
      store.Interfere(others[n]);
      r := StoreOutput(store, outputs[n], fates[n]);
      if r.Err? {
        return;
      }
      n := n + 1;
    }
    AllDispatched(fates, n);
    r := Ok(());
  }

  lemma NothingDispatched(kind: Kind, s: State, outputs: seq<Output>, others: seq<seq<Event>>)
    ensures Dispatched(kind, s, outputs, others, 0, 0) == s
  {
  }

  lemma {:induction false} InterleavedPrefix(others: seq<seq<Event>>, own: seq<Event>, e: Event, n: nat)
    requires n <= |others| && n <= |own|
    ensures Interleaved(others, own + [e], n) == Interleaved(others, own, n)
  {
    if n > 0 {
      InterleavedPrefix(others, own, e, n - 1);
    }
  }

  /** One more round: others' events, then this output's record if it commits. */
  lemma OneMoreRound(kind: Kind, s: State, outputs: seq<Output>, others: seq<seq<Event>>, n: nat)
    requires n < |outputs| <= |others|
    ensures var meanwhile := Exec(kind, Dispatched(kind, s, outputs, others, n, n), others[n]);
            && Dispatched(kind, s, outputs, others, n, n + 1) == meanwhile
            && Dispatched(kind, s, outputs, others, n + 1, n + 1) == Next(kind, meanwhile, Event.Record(outputs[n].id, outputs[n].row))
  {
    hide Next, Exec;
    var own, e := Records(outputs[..n]), Event.Record(outputs[n].id, outputs[n].row);
    assert Records(outputs[..n + 1]) == own + [e];
    var before := Interleaved(others, own, n);
    InterleavedPrefix(others, own, e, n);
    assert Interleaved(others, own, n + 1) == before + others[n];
    assert Interleaved(others, own + [e], n + 1) == before + others[n] + [e];
    ExecAppend(kind, s, before, others[n]);
    ExecAppendOne(kind, s, before + others[n], e);
  }

  lemma OneMoreDispatched(kind: Kind, s: State, outputs: seq<Output>, others: seq<seq<Event>>, fates: seq<Fate>, n: nat)
    requires n < |outputs| <= |fates| && |outputs| <= |others| && AllRecordable(kind, outputs)
    requires forall i | 0 <= i < n :: fates[i].Committed?
    ensures IsRecordable(kind, outputs[n].id, outputs[n].row)
    ensures var meanwhile := Exec(kind, Dispatched(kind, s, outputs, others, n, n), others[n]);
            && Dispatched(kind, s, outputs, others, n, n + 1) == meanwhile
            && Dispatched(kind, s, outputs, others, n + 1, n + 1) == Next(kind, meanwhile, Event.Record(outputs[n].id, outputs[n].row))
    ensures !fates[n].Committed? ==> !AllAcknowledged(|outputs|, fates) && Tried(|outputs|, fates) == n + 1
                                     && StoredCount(|outputs|, fates) == n + if fates[n].Ambiguous? then 1 else 0
  {
    hide Exec, Next, Dispatched, IsRecordable;
    StoredCountIs(|outputs|, fates, n);
    OneMoreRound(kind, s, outputs, others, n);
  }

  lemma AllDispatched(fates: seq<Fate>, n: nat)
    requires n <= |fates| && forall i | 0 <= i < n :: fates[i].Committed?
    ensures AllAcknowledged(n, fates) && StoredCount(n, fates) == n && Tried(n, fates) == n
  {
    AcknowledgedAreStored(n, fates);
  }

  /** The loop stops at the first output that is not acknowledged, which counts if it committed. */
  lemma {:induction false} StoredCountIs(n: nat, fates: seq<Fate>, k: nat)
    requires k < n <= |fates| && forall i | 0 <= i < k :: fates[i].Committed?
    ensures !fates[k].Committed? ==> StoredCount(n, fates) == k + (if fates[k].Ambiguous? then 1 else 0) && Tried(n, fates) == k + 1
    ensures !fates[k].Committed? ==> !AllAcknowledged(n, fates)
  {
    if k > 0 {
      StoredCountIs(n - 1, fates[1..], k - 1);
    }
  }

  method StoreOutput(store: Repository, output: Output, fate: Fate) returns (r: Result<(), Error>)
    requires IsRecordable(store.kind, output.id, output.row)
    modifies store
    ensures r.Ok? <==> fate.Committed?
    ensures store.State() == if fate.RolledBack? then old(store.State())
                             else Next(store.kind, old(store.State()), Event.Record(output.id, output.row))
  {
    var row := output.row;
    r := store.Record(output.id, Some(Decode(store.kind, row.meta.value).value), row.payload, row.route, row.scheduledAt, row.receivedAt, row.updatedAt, fate);
  }

  function Records(outputs: seq<Output>): seq<Event> {
    seq(|outputs|, i requires 0 <= i < |outputs| => Event.Record(outputs[i].id, outputs[i].row))
  }

  lemma ExecRecords(kind: Kind, s: State, outputs: seq<Output>, n: nat)
    requires n < |outputs|
    ensures Exec(kind, s, Records(outputs[..n + 1]))
            == Next(kind, Exec(kind, s, Records(outputs[..n])), Event.Record(outputs[n].id, outputs[n].row))
  {
    assert Records(outputs[..n + 1]) == Records(outputs[..n]) + [Event.Record(outputs[n].id, outputs[n].row)];
    ExecAppendOne(kind, s, Records(outputs[..n]), Event.Record(outputs[n].id, outputs[n].row));
  }
}
