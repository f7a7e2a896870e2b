/** The metadata each queue stores beside a row: what the write side serializes, what a reservation
    deserializes, and that the two sides accept the same values. */
module Metadata {
  import opened Base

  datatype Kind = Inbox | Commands | Events | Outbox

  datatype Meta =
    | InboxMeta(messageId: Option<Uuid>, correlationId: Option<Uuid>, source: Option<Text>, routing: Option<Text>)
    | CommandMeta(commandId: Uuid, correlationId: Option<Uuid>, causationId: Option<Uuid>, source: Option<Text>)
    | EventMeta(sequence: Option<nat>, eventId: Uuid, correlationId: Option<Uuid>, causationId: Option<Uuid>,
                source: Option<Text>)
    | OutboxMeta(sequence: Option<nat>, eventId: Uuid, outboundId: Uuid, correlationId: Option<Uuid>,
                 causationId: Option<Uuid>, eventType: Text, routingKey: Text, source: Option<Text>,
                 contentType: Option<Text>)
  {
    function Kind(): Kind {
      match this
      case InboxMeta(_, _, _, _) => Inbox
      case CommandMeta(_, _, _, _) => Commands
      case EventMeta(_, _, _, _, _) => Events
      case OutboxMeta(_, _, _, _, _, _, _, _, _) => Outbox
    }

    /** The entity's id as its metadata gives it. */
    function Id(): Option<Uuid> {
      match this
      case InboxMeta(id, _, _, _) => id
      case CommandMeta(id, _, _, _) => Some(id)
      case EventMeta(_, id, _, _, _) => Some(id)
      case OutboxMeta(_, id, _, _, _, _, _, _, _) => Some(id)
    }

    /** The write side's sequence check; queues without a sequence have nothing to check. */
    predicate Writable() {
      (EventMeta? || OutboxMeta?) && sequence.Some? ==> 1 <= sequence.value <= I64_MAX
    }
  }

  // ---------- the write side ----------

  function OptionalId(id: Option<Uuid>): Json {
    if id.Some? then Str(UuidText(id.value)) else Null
  }

  function OptionalText(text: Option<Text>): Json {
    if text.Some? then Str(text.value) else Null
  }

  function SequenceMember(sequence: Option<nat>): map<string, Json> {
    if sequence.Some? then map["sequence" := Num(sequence.value)] else map[]
  }

  function Encode(meta: Meta): Json {
    match meta
    case InboxMeta(id, correlation, source, routing) =>
      Obj(map["message_id" := OptionalId(id), "correlation_id" := OptionalId(correlation),
              "source" := OptionalText(source), "routing_key" := OptionalText(routing)])
    case CommandMeta(id, correlation, causation, source) =>
      Obj(map["command_id" := Str(UuidText(id)), "correlation_id" := OptionalId(correlation),
              "causation_id" := OptionalId(causation), "source" := OptionalText(source)])
    case EventMeta(sequence, id, correlation, causation, source) =>
      Obj(map["event_id" := Str(UuidText(id)), "correlation_id" := OptionalId(correlation),
              "causation_id" := OptionalId(causation), "source" := OptionalText(source)]
          + SequenceMember(sequence))
    case OutboxMeta(sequence, id, outbound, correlation, causation, eventType, routingKey, source, contentType) =>
      Obj(map["event_id" := Str(UuidText(id)), "message_id" := Str(UuidText(outbound)),
              "correlation_id" := OptionalId(correlation), "causation_id" := OptionalId(causation),
              "event_type" := Str(eventType), "routing_key" := Str(routingKey),
              "source" := OptionalText(source), "content_type" := OptionalText(contentType)]
          + SequenceMember(sequence))
  }

  // ---------- the read side ----------

  const INVALID := "invalid metadata"

  function ReadId(fields: map<string, Json>, name: string): Result<Uuid, string> {
    if name in fields && fields[name].Str? && fields[name].text.UuidText? then Ok(fields[name].text.id) else Err(INVALID)
  }

  function ReadOptionalId(fields: map<string, Json>, name: string): Result<Option<Uuid>, string> {
    if name !in fields || fields[name].Null? then Ok(None)
    else var id :- ReadId(fields, name); Ok(Some(id))
  }

  function ReadText(fields: map<string, Json>, name: string): Result<Text, string> {
    if name in fields && fields[name].Str? then Ok(fields[name].text) else Err(INVALID)
  }

  function ReadOptionalText(fields: map<string, Json>, name: string): Result<Option<Text>, string> {
    if name !in fields || fields[name].Null? then Ok(None)
    else var text :- ReadText(fields, name); Ok(Some(text))
  }

  function ReadSequence(fields: map<string, Json>): Result<Option<nat>, string> {
    if "sequence" !in fields || fields["sequence"].Null? then Ok(None)
    else if fields["sequence"].Num? && 1 <= fields["sequence"].n <= I64_MAX then Ok(Some(fields["sequence"].n))
    else Err(INVALID)
  }

  function Decode(kind: Kind, j: Json): Result<Meta, string> {
    if !j.Obj? then Err(INVALID)
    else
      var correlation :- ReadOptionalId(j.fields, "correlation_id");
      var source :- ReadOptionalText(j.fields, "source");
      match kind
      case Inbox =>
        var id :- ReadOptionalId(j.fields, "message_id");
        var routing :- ReadOptionalText(j.fields, "routing_key");
        Ok(InboxMeta(id, correlation, source, routing))
      case Commands =>
        var id :- ReadId(j.fields, "command_id");
        var causation :- ReadOptionalId(j.fields, "causation_id");
        Ok(CommandMeta(id, correlation, causation, source))
      case Events =>
        var sequence :- ReadSequence(j.fields);
        var id :- ReadId(j.fields, "event_id");
        var causation :- ReadOptionalId(j.fields, "causation_id");
        Ok(EventMeta(sequence, id, correlation, causation, source))
      case Outbox => ReadOutbox(j.fields, correlation, source)
  }

  function ReadOutbox(fields: map<string, Json>, correlation: Option<Uuid>, source: Option<Text>): Result<Meta, string> {
    var sequence :- ReadSequence(fields);
    var id :- ReadId(fields, "event_id");
    var outbound :- ReadId(fields, "message_id");
    var causation :- ReadOptionalId(fields, "causation_id");
    var eventType :- ReadText(fields, "event_type");
    var routingKey :- ReadText(fields, "routing_key");
    var contentType :- ReadOptionalText(fields, "content_type");
    Ok(OutboxMeta(sequence, id, outbound, correlation, causation, eventType, routingKey, source, contentType))
  }

  /** A queue reads back exactly the metadata its write side accepts, unchanged. */
  lemma RoundTripIff(meta: Meta)
    ensures Decode(meta.Kind(), Encode(meta)) == (if meta.Writable() then Ok(meta) else Err(INVALID))
  {
    match meta
    case OutboxMeta(_, _, _, _, _, _, _, _, _) => OutboxRoundTrip(meta);
    case EventMeta(_, _, _, _, _) => EventRoundTrip(meta);
    case _ =>
  }

  lemma EventRoundTrip(meta: Meta)
    requires meta.EventMeta?
    ensures Decode(Events, Encode(meta)) == (if meta.Writable() then Ok(meta) else Err(INVALID))
  {
    var fields := Encode(meta).fields;
    assert fields["event_id"] == Str(UuidText(meta.eventId));
    SequenceRoundTrip(fields, meta.sequence);
  }

  lemma SequenceRoundTrip(fields: map<string, Json>, sequence: Option<nat>)
    requires if sequence.Some? then "sequence" in fields && fields["sequence"] == Num(sequence.value) else "sequence" !in fields
    ensures ReadSequence(fields) == if sequence.Some? && !(1 <= sequence.value <= I64_MAX) then Err(INVALID) else Ok(sequence)
  {
  }

  lemma OutboxRoundTrip(meta: Meta)
    requires meta.OutboxMeta?
    ensures Decode(Outbox, Encode(meta)) == (if meta.Writable() then Ok(meta) else Err(INVALID))
  {
    hide ReadOutbox, Encode;
    OutboxMembers(meta);
    ReadOutboxBack(Encode(meta).fields, meta);
  }

  predicate HasOutboxMembers(fields: map<string, Json>, meta: Meta)
    requires meta.OutboxMeta?
  {
    && fields.Keys == {"event_id", "message_id", "correlation_id", "causation_id", "event_type", "routing_key", "source", "content_type"}
                      + (if meta.sequence.Some? then {"sequence"} else {})
    && fields["event_id"] == Str(UuidText(meta.eventId))
    && fields["message_id"] == Str(UuidText(meta.outboundId))
    && fields["correlation_id"] == OptionalId(meta.correlationId)
    && fields["causation_id"] == OptionalId(meta.causationId)
    && fields["event_type"] == Str(meta.eventType)
    && fields["routing_key"] == Str(meta.routingKey)
    && fields["source"] == OptionalText(meta.source)
    && fields["content_type"] == OptionalText(meta.contentType)
    && (meta.sequence.Some? ==> fields["sequence"] == Num(meta.sequence.value))
  }

  lemma OutboxMembers(meta: Meta)
    requires meta.OutboxMeta?
    ensures Encode(meta).Obj? && HasOutboxMembers(Encode(meta).fields, meta)
  {
  }

  lemma ReadOutboxBack(fields: map<string, Json>, meta: Meta)
    requires meta.OutboxMeta? && HasOutboxMembers(fields, meta)
    ensures ReadOutbox(fields, meta.correlationId, meta.source) == if meta.Writable() then Ok(meta) else Err(INVALID)
  {
    SequenceRoundTrip(fields, meta.sequence);
    hide ReadSequence;
  }

  // ---------- the stored format ----------

  /** A member that is an id, or null for none. */
  predicate IdMember(fields: map<string, Json>, name: string, id: Option<Uuid>) {
    name in fields && fields[name] == if id.Some? then Str(UuidText(id.value)) else Null
  }

  predicate TextMember(fields: map<string, Json>, name: string, text: Option<Text>) {
    name in fields && fields[name] == if text.Some? then Str(text.value) else Null
  }

  predicate SequenceFits(fields: map<string, Json>, sequence: Option<nat>) {
    if sequence.Some? then "sequence" in fields && fields["sequence"] == Num(sequence.value) else "sequence" !in fields
  }

  /** The members that inbox, command and event metadata is stored in, by name; `OutboxMembers` gives the rest. */
  lemma StoredMembers(meta: Meta)
    requires !meta.OutboxMeta?
    ensures Encode(meta).Obj?
    ensures var fields := Encode(meta).fields;
            match meta
            case InboxMeta(id, correlation, source, routing) =>
              && IdMember(fields, "message_id", id) && IdMember(fields, "correlation_id", correlation)
              && TextMember(fields, "source", source) && TextMember(fields, "routing_key", routing)
            case CommandMeta(id, correlation, causation, source) =>
              && IdMember(fields, "command_id", Some(id)) && IdMember(fields, "correlation_id", correlation)
              && IdMember(fields, "causation_id", causation) && TextMember(fields, "source", source)
            case EventMeta(sequence, id, correlation, causation, source) =>
              && IdMember(fields, "event_id", Some(id)) && IdMember(fields, "correlation_id", correlation)
              && IdMember(fields, "causation_id", causation) && TextMember(fields, "source", source) && SequenceFits(fields, sequence)
            case _ => true
  {
  }

  /** A member that reads as an optional id: absent, null or the text of one. */
  predicate MaybeId(fields: map<string, Json>, name: string) {
    name in fields && !fields[name].Null? ==> fields[name].Str? && fields[name].text.UuidText?
  }

  predicate IsId(fields: map<string, Json>, name: string) {
    name in fields && fields[name].Str? && fields[name].text.UuidText?
  }

  predicate MaybeText(fields: map<string, Json>, name: string) {
    name in fields && !fields[name].Null? ==> fields[name].Str?
  }

  predicate IsText(fields: map<string, Json>, name: string) {
    name in fields && fields[name].Str?
  }

  predicate MaybeSequence(fields: map<string, Json>) {
    "sequence" in fields && !fields["sequence"].Null? ==>
      fields["sequence"].Num? && 1 <= fields["sequence"].n <= 9_223_372_036_854_775_807
  }

  /** Exactly which stored values each queue reads; unknown members are ignored. */
  lemma ReadsIff(kind: Kind, j: Json)
    ensures Decode(kind, j).Ok?
       <==> j.Obj? && MaybeId(j.fields, "correlation_id") && MaybeText(j.fields, "source") &&
            match kind
            case Inbox => MaybeId(j.fields, "message_id") && MaybeText(j.fields, "routing_key")
            case Commands => IsId(j.fields, "command_id") && MaybeId(j.fields, "causation_id")
            case Events => MaybeSequence(j.fields) && IsId(j.fields, "event_id") && MaybeId(j.fields, "causation_id")
            case Outbox =>
              && MaybeSequence(j.fields) && IsId(j.fields, "event_id") && IsId(j.fields, "message_id") && MaybeId(j.fields, "causation_id")
              && IsText(j.fields, "event_type") && IsText(j.fields, "routing_key") && MaybeText(j.fields, "content_type")
  {
  }
}
