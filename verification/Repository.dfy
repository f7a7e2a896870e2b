/** The table repository: each method is the transaction of one repository method, with its loops and guards,
    proved to be exactly one step of the queue or no step at all. */
module Repository {
  import opened Base
  import opened Counting
  import opened ErrorHistory
  import opened Metadata
  import opened Schedule
  import opened Queue
  import opened Fields

  /** What becomes of a transaction: committed and acknowledged, not committed (no connection, statement
      error, crash), or committed although the caller is told it failed. */
  datatype Fate = Committed | RolledBack | Ambiguous

  datatype Error = Storage | Conversion | NotOwned(id: Uuid, token: Uuid)

  datatype DbError = NotFound | Database

  /** A row as `UPDATE .. RETURNING` hands it back. */
  datatype RawEntry = RawEntry(id: Uuid, row: Row)

  /** The entries are those of the given ids, one each. */
  ghost predicate Lists(entries: seq<RawEntry>, ids: set<Uuid>) {
    && (forall i, j | 0 <= i < j < |entries| :: entries[i].id != entries[j].id)
    && (forall i | 0 <= i < |entries| :: entries[i].id in ids)
    && (forall id | id in ids :: exists i :: 0 <= i < |entries| && entries[i].id == id)
  }

  lemma ListsAppend(entries: seq<RawEntry>, ids: set<Uuid>, entry: RawEntry)
    requires Lists(entries, ids) && entry.id !in ids
    ensures Lists(entries + [entry], ids + {entry.id})
  {
    var longer := entries + [entry];
    forall id | id in ids + {entry.id} ensures exists i :: 0 <= i < |longer| && longer[i].id == id {
      if id == entry.id {
        assert longer[|entries|].id == id;
      } else {
        var i :| 0 <= i < |entries| && entries[i].id == id;
        assert longer[i].id == id;
      }
    }
  }

  /** A claimed row after splitting: kept if it decodes, failed otherwise. */
  function SplitRow(kind: Kind, entry: RawEntry, token: Uuid, max: I32, now: Time): Row {
    match DecodeRow(kind, entry.id, entry.row)
    case Ok(_) => entry.row
    case Err(cause) => FailRow(kind, entry.row, max, now, Some(QuarantineReason(entry.id, token, cause)))
  }

  /** The table after the first `n` claimed rows have been split. */
  function SplitRows(kind: Kind, rows: Rows, claimed: seq<RawEntry>, n: nat, token: Uuid, max: I32, now: Time): Rows
    requires n <= |claimed|
  {
    if n == 0 then rows
    else SplitRows(kind, rows, claimed, n - 1, token, max, now)[claimed[n - 1].id := SplitRow(kind, claimed[n - 1], token, max, now)]
  }

  lemma {:induction false} SplitRowsElsewhere(kind: Kind, rows: Rows, claimed: seq<RawEntry>, n: nat, token: Uuid, max: I32, now: Time, id: Uuid)
    requires n <= |claimed| && forall i | 0 <= i < n :: claimed[i].id != id
    ensures var after := SplitRows(kind, rows, claimed, n, token, max, now);
            (id in after <==> id in rows) && (id in rows ==> after[id] == rows[id])
  {
    if n > 0 {
      SplitRowsElsewhere(kind, rows, claimed, n - 1, token, max, now, id);
    }
  }

  lemma {:induction false} SplitRowsAt(kind: Kind, rows: Rows, claimed: seq<RawEntry>, n: nat, token: Uuid, max: I32, now: Time, ids: set<Uuid>, i: nat)
    requires i < n <= |claimed| && Lists(claimed, ids)
    ensures var after := SplitRows(kind, rows, claimed, n, token, max, now);
            claimed[i].id in after && after[claimed[i].id] == SplitRow(kind, claimed[i], token, max, now)
  {
    if i < n - 1 {
      SplitRowsAt(kind, rows, claimed, n - 1, token, max, now, ids, i);
    }
  }

  /** The envelopes among the first `n` claimed rows, in order. */
  function HealthyAmong(kind: Kind, claimed: seq<RawEntry>, n: nat): seq<Envelope>
    requires n <= |claimed|
  {
    if n == 0 then []
    else
      match DecodeRow(kind, claimed[n - 1].id, claimed[n - 1].row)
      case Ok(envelope) => HealthyAmong(kind, claimed, n - 1) + [envelope]
      case Err(_) => HealthyAmong(kind, claimed, n - 1)
  }

  lemma {:induction false} EnvelopeSource(kind: Kind, claimed: seq<RawEntry>, n: nat, k: nat) returns (i: nat)
    requires n <= |claimed| && k < |HealthyAmong(kind, claimed, n)|
    ensures i < n && DecodeRow(kind, claimed[i].id, claimed[i].row) == Ok(HealthyAmong(kind, claimed, n)[k])
  {
    i := n - 1;
    if k < |HealthyAmong(kind, claimed, n - 1)| {
      i := EnvelopeSource(kind, claimed, n - 1, k);
    }
  }

  lemma {:induction false} EntryEnvelope(kind: Kind, claimed: seq<RawEntry>, n: nat, i: nat) returns (k: nat)
    requires i < n <= |claimed| && DecodeRow(kind, claimed[i].id, claimed[i].row).Ok?
    ensures k < |HealthyAmong(kind, claimed, n)| && DecodeRow(kind, claimed[i].id, claimed[i].row) == Ok(HealthyAmong(kind, claimed, n)[k])
  {
    if i < n - 1 {
      k := EntryEnvelope(kind, claimed, n - 1, i);
    } else {
      k := |HealthyAmong(kind, claimed, n - 1)|;
    }
  }

  lemma {:induction false} EnvelopesAreDistinct(kind: Kind, claimed: seq<RawEntry>, n: nat, ids: set<Uuid>, j: nat, k: nat)
    requires n <= |claimed| && Lists(claimed, ids) && j < k < |HealthyAmong(kind, claimed, n)|
    ensures HealthyAmong(kind, claimed, n)[j].id != HealthyAmong(kind, claimed, n)[k].id
  {
    if k < |HealthyAmong(kind, claimed, n - 1)| {
      EnvelopesAreDistinct(kind, claimed, n - 1, ids, j, k);
    } else {
      var i := EnvelopeSource(kind, claimed, n - 1, j);
      assert claimed[i].id != claimed[n - 1].id;
    }
  }

  class Repository {
    const kind: Kind
    var rows: Rows
    var now: Time
    var issued: set<Uuid>

    function State(): Queue.State
      reads this
    {
      Queue.State(rows, now, issued)
    }

    constructor (kind: Kind, now: Time)
      ensures this.kind == kind && State() == Queue.State(map[], now, {})
    {
      this.kind := kind;
      this.rows := map[];
      this.now := now;
      this.issued := {};
    }

    /** `record` and `store`: insert unless the id exists; reject missing metadata and bad sequences first. */
    method Record(id: Uuid, meta: Option<Meta>, payload: Text, route: Text, scheduledAt: Time, receivedAt: Time, updatedAt: Time, fate: Fate)
      returns (r: Result<(), Error>)
      requires meta.Some? ==> meta.value.Kind() == kind && StoredUnder(kind, id, meta.value)
      modifies this`rows
      ensures r.Ok? <==> meta.Some? && meta.value.Writable() && fate.Committed?
      ensures (meta.None? || !meta.value.Writable()) ==> r == Err(Conversion)
      ensures State() == if meta.None? || !meta.value.Writable() || fate.RolledBack? then old(State())
                         else Next(kind, old(State()), Event.Record(id, NewRow(meta.value, payload, route, scheduledAt, receivedAt, updatedAt)))
      ensures rows == if meta.Some? && meta.value.Writable() && !fate.RolledBack? && id !in old(rows)
                      then old(rows)[id := Row(Status.Received, 0, None, None, scheduledAt, receivedAt, updatedAt, None, None, None,
                                               payload, route, Some(Encode(meta.value)))]
                      else old(rows)
    {
      if meta.None? || !meta.value.Writable() {
        return Err(Conversion);
      }
      if fate.RolledBack? {
        return Err(Storage);
      }
      var row := NewRow(meta.value, payload, route, scheduledAt, receivedAt, updatedAt);
      RoundTripIff(meta.value);
      assert IsRecordable(kind, id, row);
      if id !in rows {
        rows := rows[id := row];
      }
      r := if fate.Committed? then Ok(()) else Err(Storage);
    }

    /** Other workers, sweepers, recorders and the clock, in any interleaving. */
    method Interfere(es: seq<Event>)
      modifies this
      ensures State() == Exec(kind, old(State()), es)
    {
      var s := Exec(kind, State(), es);
      rows, now, issued := s.rows, s.now, s.issued;
    }

    // ---------- reserve ----------

    /** The candidate query: repeatedly the earliest remaining eligible row, up to the limit. */
    method SelectCandidates(max: I32, limit: nat, locked: set<Uuid>) returns (picked: set<Uuid>)
      ensures IsSelection(rows, now, max, limit, locked, picked)
      ensures |picked| <= limit
      ensures forall p | p in picked :: p in rows && p !in locked && rows[p].status in {Status.Received, Status.Failed}
                                        && rows[p].scheduledAt <= now && rows[p].attempts < max
      ensures forall q | q in rows && q !in picked && q !in locked && rows[q].status in {Status.Received, Status.Failed}
                         && rows[q].scheduledAt <= now && rows[q].attempts < max ::
                |picked| == limit && forall p | p in picked :: rows[p].scheduledAt <= rows[q].scheduledAt
    {
      var table := rows;
      var rest := EligibleIds(table, now, max, locked);
      ghost var candidates := rest;
      picked := {};
      while |picked| < limit && rest != {}
        invariant picked <= candidates && rest == candidates - picked
        invariant |picked| + |rest| == |candidates| && |picked| <= limit
        invariant NoneEarlier(table, picked, rest)
        decreases rest
      {
        ghost var least := EarliestOf(table, rest);
        var earliest :| earliest in rest && forall q | q in rest :: table[earliest].scheduledAt <= table[q].scheduledAt;
        picked, rest := picked + {earliest}, rest - {earliest};
      }
      SelectionMeans(table, now, max, limit, locked, picked);
    }

    /** The claiming update; it returns the claimed rows in some order. */
    method Claim(picked: set<Uuid>, token: Uuid, max: I32) returns (claimed: seq<RawEntry>)
      requires forall id | id in picked :: id in rows && rows[id].attempts < max
      modifies this`rows
      ensures rows == map id | id in old(rows) :: if id in picked then ClaimRow(old(rows)[id], token, now) else old(rows)[id]
      ensures rows.Keys == old(rows).Keys
      ensures forall id | id in rows :: rows[id] == if id !in picked then old(rows)[id]
                                                    else old(rows)[id].(status := Status.Reserved, token := Some(token), reservedAt := Some(now),
                                                                        attempts := old(rows)[id].attempts + 1, updatedAt := now)
      ensures Lists(claimed, picked)
      ensures forall i | 0 <= i < |claimed| :: claimed[i].id in rows && claimed[i].row == rows[claimed[i].id]
    {
      var before := rows;
      var after := map id | id in before :: if id in picked then ClaimRow(before[id], token, now) else before[id];
      rows := after;
      claimed := [];
      var rest := picked;
      while rest != {}
        invariant rows == after && rest <= picked && Lists(claimed, picked - rest)
        invariant forall i | 0 <= i < |claimed| :: claimed[i].id in rows && claimed[i].row == rows[claimed[i].id]
        decreases rest
      {
        var id :| id in rest;
        ListsAppend(claimed, picked - rest, RawEntry(id, rows[id]));
        assert picked - (rest - {id}) == picked - rest + {id};
        claimed, rest := claimed + [RawEntry(id, rows[id])], rest - {id};
      }
      assert picked - rest == picked;
    }

    /** The guarded failure update; `reject` stands for a database error on this statement. */
    method WriteFailure(id: Uuid, token: Uuid, attempts: I32, original: Option<Json>, max: I32, reason: Option<Text>, reject: bool)
      returns (r: Result<(), DbError>)
      requires Owned(rows, id, token) ==> attempts == rows[id].attempts && original == rows[id].extra
      modifies this`rows
      ensures r == if reject then Err(Database) else if Owned(old(rows), id, token) then Ok(()) else Err(NotFound)
      ensures rows == if r.Ok? then old(rows)[id := FailRow(kind, old(rows)[id], max, now, reason)] else old(rows)
    {
      var extra := FailureColumn(original, reason);
      var delay := FailureDelay(kind, attempts);
      if reject {
        return Err(Database);
      }
      var updated := 0;
      if Owned(rows, id, token) {
        var row := rows[id];
        var scheduled := if kind.Outbox? && row.attempts >= max then row.scheduledAt else now + delay;
        rows := rows[id := row.(status := Status.Failed, token := None, reservedAt := None, updatedAt := now, extra := extra,
                                scheduledAt := scheduled, lastError := if kind.Outbox? then reason else row.lastError)];
        updated := 1;
      }
      if updated != 1 {
        return Err(NotFound);
      }
      r := Ok(());
    }

    /** Split the claimed rows into decoded envelopes and quarantined failures. On an error the caller rolls
        back. With rows that carry the token, which the claiming update returns, the only error is a failure
        write that the database rejects (`faults`). */
    method FinishReservation(claimed: seq<RawEntry>, token: Uuid, max: I32, faults: set<Uuid>, ghost ids: set<Uuid>)
      returns (r: Result<seq<Envelope>, DbError>)
      requires Lists(claimed, ids)
      requires forall i | 0 <= i < |claimed| :: claimed[i].id in rows && rows[claimed[i].id] == claimed[i].row
      modifies this`rows
      ensures r.Ok? <==> forall i | 0 <= i < |claimed| :: Splits(kind, claimed[i], token, faults)
      ensures r.Err? && r.error.NotFound? ==> exists i :: 0 <= i < |claimed| && !HoldsToken(claimed[i], token)
      ensures r.Ok? ==> rows == SplitRows(kind, old(rows), claimed, |claimed|, token, max, now)
      ensures r.Ok? ==> r.value == HealthyAmong(kind, claimed, |claimed|)
    {
      var healthy: seq<Envelope> := [];
      var n := 0;
      while n < |claimed|
        invariant 0 <= n <= |claimed|
        invariant forall i | 0 <= i < n :: Splits(kind, claimed[i], token, faults)
        invariant rows == SplitRows(kind, old(rows), claimed, n, token, max, now)
        invariant healthy == HealthyAmong(kind, claimed, n)
      {
        var entry := claimed[n];
        SplitRowsElsewhere(kind, old(rows), claimed, n, token, max, now, entry.id);
        if entry.row.token != Some(token) || !entry.row.status.Reserved? {
          return Err(NotFound);
        }
        match DecodeRow(kind, entry.id, entry.row) {
          case Ok(envelope) =>
            healthy := healthy + [envelope];
          case Err(cause) =>
            var reason := QuarantineReason(entry.id, token, cause);
            var written := WriteFailure(entry.id, token, entry.row.attempts, entry.row.extra, max, Some(reason), entry.id in faults);
            if written.Err? {
              return Err(written.error);
            }
        }
        n := n + 1;
      }
      r := Ok(healthy);
    }

    /** One reserving transaction: all or nothing. The guards against rows without the token never fire, so
        it fails only with the transaction or with a rejected failure write. */
    method Reserve(max: I32, limit: nat, locked: set<Uuid>, token: Uuid, fate: Fate, faults: set<Uuid>)
      returns (r: Result<seq<Envelope>, Error>, ghost picked: set<Uuid>)
      requires token !in issued
      modifies this`rows, this`issued
      ensures IsSelection(old(rows), now, max, limit, locked, picked)
      ensures State() == if fate.RolledBack? || RejectsWrite(kind, old(rows), picked, token, now, faults) then old(State())
                         else Next(kind, old(State()), Event.Reserve(token, max, limit, locked, picked))
      ensures r.Ok? <==> fate.Committed? && !RejectsWrite(kind, old(rows), picked, token, now, faults)
      ensures r.Ok? ==> IsHealthyBatch(kind, rows, picked, token, r.value)
      ensures picked <= old(rows).Keys
      ensures r.Ok? <==> fate.Committed? && forall id | id in picked && id in faults :: Readable(kind, old(rows)[id])
      ensures rows == old(rows) || (rows.Keys == old(rows).Keys
                                    && forall id | id in rows :: if id in picked then Taken(kind, id, old(rows)[id], token, now, rows[id])
                                                                 else rows[id] == old(rows)[id])
      ensures r.Ok? ==> forall id | id in picked :: Taken(kind, id, old(rows)[id], token, now, rows[id])
      ensures r.Ok? ==> forall id | id in picked && Readable(kind, old(rows)[id]) :: exists k :: 0 <= k < |r.value| && r.value[k].id == id
      ensures r.Ok? ==> forall k | 0 <= k < |r.value| ::
                          var e := r.value[k];
                          && e.id in picked && Readable(kind, old(rows)[e.id])
                          && e.token == token && e.attempts == old(rows)[e.id].attempts + 1
                          && e.payload == old(rows)[e.id].payload && e.route == old(rows)[e.id].route
                          && HoldsErrors(old(rows)[e.id].extra, e.errors) && HoldsMeta(kind, old(rows)[e.id].meta, e.meta)
    {
      hide Taken, Readable, HoldsErrors, HoldsMeta, IsHealthyBatch, RejectsWrite, IsSelection, Splits, HoldsToken, SplitRows, ReserveRows;
      var chosen := SelectCandidates(max, limit, locked);
      picked := chosen;
      var saved := rows;
      var claimed := Claim(chosen, token, max);
      ghost var claimedRows := rows;
      var finished := FinishReservation(claimed, token, max, faults, picked);
      SplitsIff(kind, saved, claimed, picked, token, now, faults);
      RejectsIff(kind, saved, picked, token, now, faults);
      if fate.RolledBack? || finished.Err? {
        rows := saved;
        return Err(Storage), picked;
      }
      issued := issued + {token};
      ReservationLeaves(kind, Queue.State(saved, now, issued - {token}), Event.Reserve(token, max, limit, locked, picked));
      SplitIsReserve(kind, saved, claimedRows, claimed, picked, token, max, now);
      if fate.Ambiguous? {
        return Err(Storage), picked;
      }
      SplitIsHealthyBatch(kind, rows, claimedRows, claimed, picked, token, max, now);
      r := Ok(finished.value);
      BatchHoldsRows(kind, saved, rows, picked, token, now, finished.value);
    }

    // ---------- finalization ----------

    method Completed(id: Uuid, token: Uuid, fate: Fate) returns (r: Result<(), Error>)
      modifies this`rows
      ensures State() == if fate.RolledBack? then old(State()) else Next(kind, old(State()), Complete(id, token))
      ensures r == if !fate.Committed? then Err(Storage) else if Owned(old(rows), id, token) then Ok(()) else Err(NotOwned(id, token))
      ensures rows == if !fate.RolledBack? && id in old(rows) && old(rows)[id].status == Status.Reserved && old(rows)[id].token == Some(token)
                      then old(rows)[id := old(rows)[id].(status := Status.Completed, processedAt := Some(now), updatedAt := now, token := None,
                                                          reservedAt := None, lastError := if kind.Outbox? then None else old(rows)[id].lastError)]
                      else old(rows)
    {
      if fate.RolledBack? {
        return Err(Storage);
      }
      var updated := 0;
      if Owned(rows, id, token) {
        var row := rows[id];
        rows := rows[id := row.(status := Status.Completed, processedAt := Some(now), updatedAt := now, token := None, reservedAt := None,
                                lastError := if kind.Outbox? then None else row.lastError)];
        updated := 1;
      }
      if fate.Ambiguous? {
        return Err(Storage);
      }
      if updated == 0 {
        return Err(NotOwned(id, token));
      }
      r := Ok(());
    }

    /** Read the leased row's attempts and history, then write the failure. */
    method RecordFailure(id: Uuid, token: Uuid, max: I32, reason: Option<Text>) returns (r: Result<(), DbError>)
      modifies this`rows
      ensures r == if Owned(old(rows), id, token) then Ok(()) else Err(NotFound)
      ensures rows == if Owned(old(rows), id, token) then old(rows)[id := FailRow(kind, old(rows)[id], max, now, reason)] else old(rows)
    {
      if !Owned(rows, id, token) {
        return Err(NotFound);
      }
      r := WriteFailure(id, token, rows[id].attempts, rows[id].extra, max, reason, false);
    }

    method Failed(id: Uuid, token: Uuid, max: I32, reason: Option<Text>, fate: Fate) returns (r: Result<(), Error>)
      modifies this`rows
      ensures State() == if fate.RolledBack? then old(State()) else Next(kind, old(State()), Fail(id, token, max, reason))
      ensures r == if !fate.Committed? then Err(Storage) else if Owned(old(rows), id, token) then Ok(()) else Err(NotOwned(id, token))
      ensures if !fate.RolledBack? && id in old(rows) && old(rows)[id].status == Status.Reserved && old(rows)[id].token == Some(token)
              then id in rows && rows == old(rows)[id := rows[id]] && Fails(kind, old(rows)[id], max, now, reason, rows[id])
              else rows == old(rows)
    {
      if fate.RolledBack? {
        return Err(Storage);
      }
      FailureLeaves(kind, State(), id, token, max, reason);
      var written := RecordFailure(id, token, max, reason);
      r := if fate.Ambiguous? then Err(Storage) else if written.Ok? then Ok(()) else Err(NotOwned(id, token));
    }

    // ---------- sweep ----------

    /** The stale rows in id order, as the sweep's first query loads them. */
    method StaleCandidates(timeout: Time) returns (ids: seq<Uuid>)
      ensures forall i, j | 0 <= i < j < |ids| :: ids[i] < ids[j]
      ensures forall id :: id in ids <==> id in StaleIds(rows, now, timeout)
      ensures forall id :: id in ids <==> id in rows && rows[id].status == Status.Reserved && rows[id].reservedAt.Some?
                                          && rows[id].reservedAt.value < now - timeout
      ensures |ids| == |StaleIds(rows, now, timeout)|
    {
      ids := [];
      var rest := StaleIds(rows, now, timeout);
      ghost var stale := rest;
      while rest != {}
        invariant rest <= stale && |ids| + |rest| == |stale|
        invariant forall id :: id in ids <==> id in stale - rest
        invariant forall i, j | 0 <= i < j < |ids| :: ids[i] < ids[j]
        invariant forall i, id | 0 <= i < |ids| && id in rest :: ids[i] < id
        decreases rest
      {
        ghost var least := LeastBy(rest, id => id);
        var id :| id in rest && forall other | other in rest :: id <= other;
        ids, rest := ids + [id], rest - {id};
      }
    }

    /** Release every reservation older than the timeout: compute each row's outcome into parallel vectors,
        then join them back to the table in one update. A row whose column the update cannot extend aborts
        the whole transaction. */
    method Sweep(timeout: Time, max: I32, fate: Fate) returns (r: Result<nat, Error>)
      modifies this`rows
      ensures State() == if fate.RolledBack? then old(State()) else Next(kind, old(State()), Event.Sweep(timeout, max))
      ensures r.Ok? <==> fate.Committed? && Commits(kind, old(State()), Event.Sweep(timeout, max))
      ensures r.Ok? ==> r.value == |StaleIds(old(rows), now, timeout)|
      ensures rows.Keys == old(rows).Keys
      ensures rows == old(rows) || forall id | id in rows ::
                if old(rows)[id].status == Status.Reserved && old(rows)[id].reservedAt.Some? && old(rows)[id].reservedAt.value < now - timeout
                then TimesOut(kind, old(rows)[id], max, now, rows[id])
                else rows[id] == old(rows)[id]
      ensures r.Ok? ==> forall id | id in rows && old(rows)[id].status == Status.Reserved && old(rows)[id].reservedAt.Some?
                                    && old(rows)[id].reservedAt.value < now - timeout :: TimesOut(kind, old(rows)[id], max, now, rows[id])
    {
      if fate.RolledBack? {
        return Err(Storage);
      }
      var saved := rows;
      var ids := StaleCandidates(timeout);
      assert forall i | 0 <= i < |ids| :: ids[i] in StaleIds(saved, now, timeout);
      var statuses, schedules := PlanOutcomes(ids, max);
      var joined := JoinOutcomes(ids, statuses, schedules, max);
      if joined.Err? {
        rows := saved;
        return Err(Storage);
      }
      assert rows == Queue.SweepRows(kind, saved, timeout, max, now);
      TimeoutsLeave(kind, Queue.State(saved, now, issued), timeout, max);
      r := if fate.Ambiguous? then Err(Storage) else joined;
    }

    /** The policy's outcome of each candidate, in the candidates' order. */
    method PlanOutcomes(ids: seq<Uuid>, max: I32) returns (statuses: seq<Status>, schedules: seq<Time>)
      requires forall i | 0 <= i < |ids| :: ids[i] in rows
      ensures |statuses| == |schedules| == |ids|
      ensures forall i | 0 <= i < |ids| :: statuses[i] == Status.Failed
                && schedules[i] == SweepSchedule(kind, rows[ids[i]].attempts, max, now, rows[ids[i]].scheduledAt)
      ensures forall i | 0 <= i < |ids| ::
                schedules[i] == if !kind.Outbox? then now + 30_000_000 * rows[ids[i]].attempts
                                else if rows[ids[i]].attempts >= max then rows[ids[i]].scheduledAt
                                else if rows[ids[i]].attempts <= 1 then now + 30_000_000
                                else if rows[ids[i]].attempts <= 4 then now + 30_000_000 * rows[ids[i]].attempts
                                else now + 120_000_000
    {
      statuses, schedules := [], [];
      var n := 0;
      while n < |ids|
        invariant 0 <= n <= |ids| && |statuses| == |schedules| == n
        invariant forall i | 0 <= i < n :: statuses[i] == Status.Failed
                    && schedules[i] == SweepSchedule(kind, rows[ids[i]].attempts, max, now, rows[ids[i]].scheduledAt)
      {
        var row := rows[ids[n]];
        statuses := statuses + [Status.Failed];
        schedules := schedules + [SweepSchedule(kind, row.attempts, max, now, row.scheduledAt)];
        n := n + 1;
      }
      forall i | 0 <= i < |ids| {
        ExactInstants(kind, rows[ids[i]].attempts, max, now, rows[ids[i]].scheduledAt);
      }
    }

    /** The update joined with the unnested vectors: the i-th id gets the i-th status and schedule. */
    method JoinOutcomes(ids: seq<Uuid>, statuses: seq<Status>, schedules: seq<Time>, max: I32) returns (r: Result<nat, Error>)
      requires |statuses| == |schedules| == |ids|
      requires forall i, j | 0 <= i < j < |ids| :: ids[i] != ids[j]
      requires forall i | 0 <= i < |ids| :: ids[i] in rows && statuses[i] == Status.Failed
                 && schedules[i] == SweepSchedule(kind, rows[ids[i]].attempts, max, now, rows[ids[i]].scheduledAt)
      modifies this`rows
      ensures r == if forall i | 0 <= i < |ids| :: Sweepable(kind, old(rows)[ids[i]]) then Ok(|ids|) else Err(Storage)
      ensures r.Ok? ==> rows == map id | id in old(rows) :: if id in ids then SweepRow(kind, old(rows)[id], max, now) else old(rows)[id]
    {
      var saved := rows;
      var affected := 0;
      while affected < |ids|
        invariant 0 <= affected <= |ids|
        invariant forall i | 0 <= i < affected :: Sweepable(kind, saved[ids[i]])
        invariant rows == map id | id in saved :: if id in ids[..affected] then SweepRow(kind, saved[id], max, now) else saved[id]
      {
        var id := ids[affected];
        assert id !in ids[..affected];
        var extra := SweepColumn(rows[id].extra, TimeoutReason(kind));
        if extra.None? {
          return Err(Storage);
        }
        rows := rows[id := rows[id].(status := statuses[affected], token := None, reservedAt := None, updatedAt := now,
                                     extra := extra, scheduledAt := schedules[affected])];
        assert ids[..affected + 1] == ids[..affected] + [id];
        affected := affected + 1;
      }
      assert ids[..affected] == ids;
      r := Ok(affected);
    }
  }

  /** Some picked row that does not decode has its failure write rejected by the database. */
  ghost predicate RejectsWrite(kind: Kind, rows: Rows, picked: set<Uuid>, token: Uuid, now: Time, faults: set<Uuid>)
    requires picked <= rows.Keys && forall id | id in picked :: rows[id].attempts < 0x7FFF_FFFF
  {
    exists id | id in picked :: id in faults && DecodeRow(kind, id, ClaimRow(rows[id], token, now)).Err?
  }

  /** The batch holds the envelope of each picked row left with the token, once, and nothing else. */
  ghost predicate IsHealthyBatch(kind: Kind, rows: Rows, picked: set<Uuid>, token: Uuid, batch: seq<Envelope>) {
    && (forall j, k | 0 <= j < k < |batch| :: batch[j].id != batch[k].id)
    && (forall k | 0 <= k < |batch| :: batch[k].id in picked && Owned(rows, batch[k].id, token)
                                       && DecodeRow(kind, batch[k].id, rows[batch[k].id]) == Ok(batch[k]))
    && (forall id | id in picked && Owned(rows, id, token) :: exists k :: 0 <= k < |batch| && batch[k].id == id)
  }

  lemma SplitIsReserve(kind: Kind, rows: Rows, claimedRows: Rows, claimed: seq<RawEntry>, picked: set<Uuid>, token: Uuid, max: I32, now: Time)
    requires picked <= rows.Keys && (forall id | id in picked :: rows[id].attempts < max) && Lists(claimed, picked)
    requires claimedRows == map id | id in rows :: if id in picked then ClaimRow(rows[id], token, now) else rows[id]
    requires forall i | 0 <= i < |claimed| :: claimed[i].row == claimedRows[claimed[i].id]
    ensures SplitRows(kind, claimedRows, claimed, |claimed|, token, max, now) == ReserveRows(kind, rows, token, max, now, picked)
  {
    var after, expected := SplitRows(kind, claimedRows, claimed, |claimed|, token, max, now), ReserveRows(kind, rows, token, max, now, picked);
    SplitRowsKeys(kind, claimedRows, claimed, |claimed|, token, max, now);
    forall id | id in rows ensures after[id] == expected[id] {
      if id in picked {
        var i :| 0 <= i < |claimed| && claimed[i].id == id;
        SplitRowsAt(kind, claimedRows, claimed, |claimed|, token, max, now, picked, i);
      } else {
        SplitRowsElsewhere(kind, claimedRows, claimed, |claimed|, token, max, now, id);
      }
    }
  }

  lemma {:induction false} SplitRowsKeys(kind: Kind, rows: Rows, claimed: seq<RawEntry>, n: nat, token: Uuid, max: I32, now: Time)
    requires n <= |claimed| && forall i | 0 <= i < |claimed| :: claimed[i].id in rows
    ensures SplitRows(kind, rows, claimed, n, token, max, now).Keys == rows.Keys
  {
    if n > 0 {
      SplitRowsKeys(kind, rows, claimed, n - 1, token, max, now);
    }
  }

  lemma SplitIsHealthyBatch(kind: Kind, after: Rows, claimedRows: Rows, claimed: seq<RawEntry>, picked: set<Uuid>, token: Uuid, max: I32, now: Time)
    requires picked <= claimedRows.Keys && Lists(claimed, picked)
    requires forall i | 0 <= i < |claimed| :: claimed[i].row == claimedRows[claimed[i].id] && HoldsToken(claimed[i], token)
    requires after == SplitRows(kind, claimedRows, claimed, |claimed|, token, max, now)
    ensures IsHealthyBatch(kind, after, picked, token, HealthyAmong(kind, claimed, |claimed|))
  {
    hide SplitRows, HealthyAmong;
    var n, batch := |claimed|, HealthyAmong(kind, claimed, |claimed|);
    forall j, k | 0 <= j < k < |batch| ensures batch[j].id != batch[k].id {
      EnvelopesAreDistinct(kind, claimed, n, picked, j, k);
    }
    forall k | 0 <= k < |batch|
      ensures batch[k].id in picked && Owned(after, batch[k].id, token) && DecodeRow(kind, batch[k].id, after[batch[k].id]) == Ok(batch[k])
    {
      var i := EnvelopeSource(kind, claimed, n, k);
      SplitRowsAt(kind, claimedRows, claimed, n, token, max, now, picked, i);
    }
    forall id | id in picked && Owned(after, id, token) ensures exists k :: 0 <= k < |batch| && batch[k].id == id {
      var i :| 0 <= i < |claimed| && claimed[i].id == id;
      SplitRowsAt(kind, claimedRows, claimed, n, token, max, now, picked, i);
      var k := EntryEnvelope(kind, claimed, n, i);
    }
  }

  predicate HoldsToken(entry: RawEntry, token: Uuid) {
    entry.row.token == Some(token) && entry.row.status.Reserved?
  }

  predicate Splits(kind: Kind, entry: RawEntry, token: Uuid, faults: set<Uuid>) {
    HoldsToken(entry, token) && (DecodeRow(kind, entry.id, entry.row).Err? ==> entry.id !in faults)
  }

  /** A write can be rejected only for a row that does not decode. */
  lemma RejectsIff(kind: Kind, rows: Rows, picked: set<Uuid>, token: Uuid, now: Time, faults: set<Uuid>)
    requires picked <= rows.Keys && forall id | id in picked :: rows[id].attempts < 0x7FFF_FFFF
    ensures RejectsWrite(kind, rows, picked, token, now, faults) <==> exists id | id in picked :: id in faults && !Readable(kind, rows[id])
  {
    forall id | id in picked ensures DecodeRow(kind, id, ClaimRow(rows[id], token, now)).Ok? <==> Readable(kind, rows[id]) {
      DecodesIff(kind, id, ClaimRow(rows[id], token, now));
    }
  }

  /** What a selection is, row by row. */
  lemma SelectionMeans(rows: Rows, now: Time, max: I32, limit: nat, locked: set<Uuid>, picked: set<Uuid>)
    requires IsSelection(rows, now, max, limit, locked, picked)
    ensures |picked| <= limit
    ensures forall p | p in picked :: p in rows && p !in locked && rows[p].status in {Status.Received, Status.Failed}
                                      && rows[p].scheduledAt <= now && rows[p].attempts < max
    ensures forall q | q in rows && q !in picked && q !in locked && rows[q].status in {Status.Received, Status.Failed}
                       && rows[q].scheduledAt <= now && rows[q].attempts < max ::
              |picked| == limit && forall p | p in picked :: rows[p].scheduledAt <= rows[q].scheduledAt
  {
    var candidates := EligibleIds(rows, now, max, locked);
    if |picked| < limit {
      SubsetSize(picked, candidates);
    }
  }

  /** The returned envelopes, in terms of the rows as they were. */
  lemma BatchHoldsRows(kind: Kind, before: Rows, after: Rows, picked: set<Uuid>, token: Uuid, now: Time, batch: seq<Envelope>)
    requires picked <= before.Keys && before.Keys == after.Keys && IsHealthyBatch(kind, after, picked, token, batch)
    requires forall id | id in picked :: Taken(kind, id, before[id], token, now, after[id])
    ensures forall k | 0 <= k < |batch| ::
              var e := batch[k];
              && e.id in picked && Readable(kind, before[e.id])
              && e.token == token && e.attempts == before[e.id].attempts + 1
              && e.payload == before[e.id].payload && e.route == before[e.id].route
              && HoldsErrors(before[e.id].extra, e.errors) && HoldsMeta(kind, before[e.id].meta, e.meta)
    ensures forall id | id in picked && Readable(kind, before[id]) :: exists k :: 0 <= k < |batch| && batch[k].id == id
  {
    hide DecodeRow, Readable, HoldsErrors, HoldsMeta;
    forall k | 0 <= k < |batch|
      ensures var e := batch[k];
              && e.id in picked && Readable(kind, before[e.id])
              && e.token == token && e.attempts == before[e.id].attempts + 1
              && e.payload == before[e.id].payload && e.route == before[e.id].route
              && HoldsErrors(before[e.id].extra, e.errors) && HoldsMeta(kind, before[e.id].meta, e.meta)
    {
      EnvelopeOfRow(kind, batch[k].id, after[batch[k].id]);
    }
  }

  /** Freshly claimed rows all hold the token, so splitting them fails only on a rejected write. */
  lemma SplitsIff(kind: Kind, rows: Rows, claimed: seq<RawEntry>, picked: set<Uuid>, token: Uuid, now: Time, faults: set<Uuid>)
    requires picked <= rows.Keys && (forall id | id in picked :: rows[id].attempts < 0x7FFF_FFFF) && Lists(claimed, picked)
    requires forall i | 0 <= i < |claimed| :: claimed[i].row == ClaimRow(rows[claimed[i].id], token, now)
    ensures (forall i | 0 <= i < |claimed| :: Splits(kind, claimed[i], token, faults)) <==> !RejectsWrite(kind, rows, picked, token, now, faults)
    ensures forall i | 0 <= i < |claimed| :: HoldsToken(claimed[i], token)
  {
    forall id | id in picked ensures exists i :: 0 <= i < |claimed| && claimed[i] == RawEntry(id, ClaimRow(rows[id], token, now)) {
      var i :| 0 <= i < |claimed| && claimed[i].id == id;
    }
  }

  predicate NoneEarlier(rows: Rows, picked: set<Uuid>, rest: set<Uuid>)
    requires picked <= rows.Keys && rest <= rows.Keys
  {
    forall p, q | p in picked && q in rest :: rows[p].scheduledAt <= rows[q].scheduledAt
  }

  lemma EarliestOf(rows: Rows, ids: set<Uuid>) returns (earliest: Uuid)
    requires ids != {} && ids <= rows.Keys
    ensures earliest in ids && forall q | q in ids :: rows[earliest].scheduledAt <= rows[q].scheduledAt
  {
    var key := (id: Uuid) => if id in rows then rows[id].scheduledAt else 0;
    earliest := LeastBy(ids, key);
    forall q | q in ids ensures rows[earliest].scheduledAt <= rows[q].scheduledAt {
      assert key(earliest) <= key(q);
    }
  }
}
