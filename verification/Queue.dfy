/** The leased work queue that the inbox, command, event and outbox tables share, as one step function
    over the table, the database clock and the reservation tokens drawn so far. An event is a committed
    transaction, or time passing. An event that cannot commit changes nothing, so every sequence of events
    is a run: any number of workers and sweepers, late workers, crashes (no further event) and commits
    whose acknowledgement was lost are all among them. */
module Queue {
  import opened Base
  import opened ErrorHistory
  import opened Metadata
  import opened Schedule

  datatype Status = Received | Reserved | Failed | Completed | Dead | Archive

  datatype Row = Row(
    status: Status,
    attempts: I32,
    token: Option<Uuid>,
    reservedAt: Option<Time>,
    scheduledAt: Time,
    receivedAt: Time,
    updatedAt: Time,
    processedAt: Option<Time>,
    lastError: Option<Text>,
    extra: Option<Json>,
    payload: Text,
    route: Text,
    meta: Option<Json>)

  type Rows = map<Uuid, Row>

  datatype State = State(rows: Rows, now: Time, issued: set<Uuid>)

  datatype Event =
    | Tick(elapsed: nat)
    | Record(id: Uuid, row: Row)
    | Reserve(token: Uuid, max: I32, limit: nat, locked: set<Uuid>, picked: set<Uuid>)
    | Complete(id: Uuid, token: Uuid)
    | Fail(id: Uuid, token: Uuid, max: I32, reason: Option<Text>)
    | Sweep(timeout: Time, max: I32)

  /** One claim of one row. */
  datatype Lease = Lease(id: Uuid, token: Uuid)

  // ---------- rows ----------

  /** What `record` and `store` insert; the command and event columns left out take these defaults. */
  function NewRow(meta: Meta, payload: Text, route: Text, scheduledAt: Time, receivedAt: Time, updatedAt: Time): Row {
    Row(Received, 0, None, None, scheduledAt, receivedAt, updatedAt, None, None, None, payload, route, Some(Encode(meta)))
  }

  /** A row as recorded, with metadata the write side accepts. */
  predicate IsRecordable(kind: Kind, id: Uuid, row: Row) {
    row.meta.Some? && Decode(kind, row.meta.value).Ok? && RecordedFrom(kind, id, row, Decode(kind, row.meta.value).value)
  }

  /** Every entity is stored under the id in its metadata, except an outbox entry, which has one of its own. */
  predicate StoredUnder(kind: Kind, id: Uuid, meta: Meta) {
    kind.Outbox? || meta.Id() == Some(id)
  }

  predicate RecordedFrom(kind: Kind, id: Uuid, row: Row, meta: Meta) {
    && meta.Kind() == kind && meta.Writable() && StoredUnder(kind, id, meta)
    && row == NewRow(meta, row.payload, row.route, row.scheduledAt, row.receivedAt, row.updatedAt)
  }

  datatype Envelope = Envelope(id: Uuid, token: Uuid, attempts: int, payload: Text, route: Text, meta: Option<Meta>,
                               errors: seq<Json>)

  function DecodeRow(kind: Kind, id: Uuid, row: Row): Result<Envelope, string> {
    if !Decodes(row.extra) then Err("invalid extra_info")
    else if row.token.None? then Err("missing reservation")
    else if row.meta.None? then
      if kind.Inbox? || kind.Outbox? then Err("missing metadata")
      else Ok(Envelope(id, row.token.value, row.attempts, row.payload, row.route, None, Errors(row.extra)))
    else
      var meta :- Decode(kind, row.meta.value);
      Ok(Envelope(id, row.token.value, row.attempts, row.payload, row.route, Some(meta), Errors(row.extra)))
  }

  predicate Owned(rows: Rows, id: Uuid, token: Uuid) {
    id in rows && rows[id].status.Reserved? && rows[id].token == Some(token)
  }

  predicate Eligible(row: Row, now: Time, max: I32) {
    (row.status.Received? || row.status.Failed?) && row.scheduledAt <= now && row.attempts < max
  }

  function EligibleIds(rows: Rows, now: Time, max: I32, locked: set<Uuid>): set<Uuid> {
    set id | id in rows && id !in locked && Eligible(rows[id], now, max)
  }

  /** `ORDER BY scheduled_at ASC LIMIT n FOR UPDATE SKIP LOCKED`: as many eligible unlocked rows as the limit
      allows, none of them scheduled after one that was left out. */
  predicate IsSelection(rows: Rows, now: Time, max: I32, limit: nat, locked: set<Uuid>, picked: set<Uuid>) {
    var candidates := EligibleIds(rows, now, max, locked);
    && picked <= candidates
    && |picked| == Min(limit, |candidates|)
    && forall p, q | p in picked && q in candidates - picked :: rows[p].scheduledAt <= rows[q].scheduledAt
  }

  function ClaimRow(row: Row, token: Uuid, now: Time): Row
    requires row.attempts < 0x7FFF_FFFF
  {
    row.(status := Reserved, token := Some(token), reservedAt := Some(now), attempts := row.attempts + 1, updatedAt := now)
  }

  function FailRow(kind: Kind, row: Row, max: I32, now: Time, reason: Option<Text>): Row {
    row.(status := Failed, token := None, reservedAt := None, updatedAt := now,
         extra := FailureColumn(row.extra, reason),
         scheduledAt := FailureSchedule(kind, row.attempts, max, now, row.scheduledAt),
         lastError := if kind.Outbox? then reason else row.lastError)
  }

  function CompleteRow(kind: Kind, row: Row, now: Time): Row {
    row.(status := Completed, token := None, reservedAt := None, updatedAt := now, processedAt := Some(now),
         lastError := if kind.Outbox? then None else row.lastError)
  }

  function QuarantineReason(id: Uuid, token: Uuid, cause: string): Text {
    ItemText(id, token, "reservation", Lit(cause))
  }

  /** A claimed row leaves the reserving transaction Reserved if it decodes and Failed otherwise. */
  function ReserveRow(kind: Kind, id: Uuid, row: Row, token: Uuid, max: I32, now: Time): Row
    requires row.attempts < 0x7FFF_FFFF
  {
    var claimed := ClaimRow(row, token, now);
    match DecodeRow(kind, id, claimed)
    case Ok(_) => claimed
    case Err(cause) => FailRow(kind, claimed, max, now, Some(QuarantineReason(id, token, cause)))
  }

  function TimeoutReason(kind: Kind): Text {
    match kind
    case Inbox => Lit("inbox reservation timed out")
    case Commands => Lit("command reservation timed out")
    case Events => Lit("event reservation timed out")
    case Outbox => Lit("publication reservation timed out")
  }

  predicate Stale(row: Row, now: Time, timeout: Time) {
    row.status.Reserved? && row.reservedAt.Some? && row.reservedAt.value < now - timeout
  }

  function StaleIds(rows: Rows, now: Time, timeout: Time): set<Uuid> {
    set id | id in rows && Stale(rows[id], now, timeout)
  }

  predicate Sweepable(kind: Kind, row: Row) {
    SweepColumn(row.extra, TimeoutReason(kind)).Some?
  }

  function SweepRow(kind: Kind, row: Row, max: I32, now: Time): Row {
    row.(status := Failed, token := None, reservedAt := None, updatedAt := now,
         extra := SweepColumn(row.extra, TimeoutReason(kind)),
         scheduledAt := SweepSchedule(kind, row.attempts, max, now, row.scheduledAt))
  }

  // ---------- steps and runs ----------

  predicate Commits(kind: Kind, s: State, e: Event) {
    match e
    case Tick(_) => true
    case Record(id, row) => id !in s.rows && IsRecordable(kind, id, row)
    case Reserve(token, max, limit, locked, picked) =>
      token !in s.issued && IsSelection(s.rows, s.now, max, limit, locked, picked)
    case Complete(id, token) => Owned(s.rows, id, token)
    case Fail(id, token, _, _) => Owned(s.rows, id, token)
    case Sweep(timeout, _) => forall id | id in StaleIds(s.rows, s.now, timeout) :: Sweepable(kind, s.rows[id])
  }

  function ReserveRows(kind: Kind, rows: Rows, token: Uuid, max: I32, now: Time, picked: set<Uuid>): Rows
    requires forall id | id in picked && id in rows :: rows[id].attempts < max
  {
    map id | id in rows :: if id in picked then ReserveRow(kind, id, rows[id], token, max, now) else rows[id]
  }

  function SweepRows(kind: Kind, rows: Rows, timeout: Time, max: I32, now: Time): Rows {
    map id | id in rows :: if Stale(rows[id], now, timeout) then SweepRow(kind, rows[id], max, now) else rows[id]
  }

  function Next(kind: Kind, s: State, e: Event): State {
    if !Commits(kind, s, e) then s
    else match e
      case Tick(elapsed) => s.(now := s.now + elapsed)
      case Record(id, row) => s.(rows := s.rows[id := row])
      case Reserve(token, max, _, _, picked) =>
        s.(rows := ReserveRows(kind, s.rows, token, max, s.now, picked), issued := s.issued + {token})
      case Complete(id, token) => s.(rows := s.rows[id := CompleteRow(kind, s.rows[id], s.now)])
      case Fail(id, token, max, reason) => s.(rows := s.rows[id := FailRow(kind, s.rows[id], max, s.now, reason)])
      case Sweep(timeout, max) => s.(rows := SweepRows(kind, s.rows, timeout, max, s.now))
  }

  /** The state a run ends in. */
  function Exec(kind: Kind, s: State, es: seq<Event>): State {
    if es == [] then s else Next(kind, Exec(kind, s, es[..|es| - 1]), es[|es| - 1])
  }

  lemma ExecNothing(kind: Kind, s: State)
    ensures Exec(kind, s, []) == s
  {
  }

  lemma {:induction false} ExecAppend(kind: Kind, s: State, es: seq<Event>, more: seq<Event>)
    ensures Exec(kind, s, es + more) == Exec(kind, Exec(kind, s, es), more)
  {
    if more == [] {
      assert es + more == es;
    } else {
      assert (es + more)[..|es + more| - 1] == es + more[..|more| - 1];
      ExecAppend(kind, s, es, more[..|more| - 1]);
    }
  }

  lemma ExecAppendOne(kind: Kind, s: State, es: seq<Event>, e: Event)
    ensures Exec(kind, s, es + [e]) == Next(kind, Exec(kind, s, es), e)
  {
    assert (es + [e])[..|es|] == es;
  }

  lemma ExecTwo(kind: Kind, s: State, first: Event, second: Event)
    ensures Exec(kind, s, [first, second]) == Next(kind, Next(kind, s, first), second)
  {
    assert [first, second][..1] == [first] && [first][..0] == [];
    assert Exec(kind, s, [first]) == Next(kind, s, first);
  }
}
