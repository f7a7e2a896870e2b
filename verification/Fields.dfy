/** What a reservation reads from a row and what each way of ending a lease leaves in it, field by field and in
    plain values. */
module Fields {
  import opened Base
  import opened ErrorHistory
  import opened Metadata
  import opened Schedule
  import opened Queue

  /** A column is readable when it is absent, or an object whose errors, if any, are an array of strings. */
  lemma ReadableIff(column: Option<Json>)
    ensures Decodes(column)
       <==> || column.None?
            || (&& column.value.Obj?
                && ("errors" in column.value.fields ==>
                      && column.value.fields["errors"].Arr?
                      && forall i | 0 <= i < |column.value.fields["errors"].items| :: column.value.fields["errors"].items[i].Str?))
  {
  }

  /** Which rows a reservation can decode, and the error of the first thing wrong with one it cannot. */
  lemma DecodesIff(kind: Kind, id: Uuid, row: Row)
    ensures DecodeRow(kind, id, row).Ok?
       <==> Decodes(row.extra) && row.token.Some?
            && (if row.meta.Some? then Decode(kind, row.meta.value).Ok? else kind.Commands? || kind.Events?)
    ensures DecodeRow(kind, id, row).Err? ==>
              DecodeRow(kind, id, row).error
              == if !Decodes(row.extra) then "invalid extra_info"
                 else if row.token.None? then "missing reservation"
                 else if row.meta.None? then "missing metadata"
                 else "invalid metadata"
  {
    if row.meta.Some? {
      DecodeErrors(kind, row.meta.value);
    }
  }

  lemma DecodeErrors(kind: Kind, j: Json)
    ensures Decode(kind, j).Err? ==> Decode(kind, j).error == "invalid metadata"
  {
  }

  /** A readable error list as the column stores it. */
  predicate HoldsErrors(column: Option<Json>, errors: seq<Json>) {
    match column
    case Some(Obj(fields)) => if "errors" in fields then fields["errors"] == Arr(errors) else errors == []
    case _ => errors == []
  }

  /** The metadata that a stored value stands for. */
  ghost predicate HoldsMeta(kind: Kind, stored: Option<Json>, meta: Option<Meta>) {
    && (stored.None? ==> meta == None)
    && (stored.Some? ==> meta.Some? && Decode(kind, stored.value) == Ok(meta.value))
    && (forall m: Meta | m.Kind() == kind && m.Writable() && stored == Some(Encode(m)) :: meta == Some(m))
  }

  /** The envelope carries the row's own fields, the errors of its column and the metadata it stores. */
  lemma EnvelopeOfRow(kind: Kind, id: Uuid, row: Row)
    requires DecodeRow(kind, id, row).Ok?
    ensures var e := DecodeRow(kind, id, row).value;
            && e.id == id && Some(e.token) == row.token && e.attempts == row.attempts
            && e.payload == row.payload && e.route == row.route
            && HoldsErrors(row.extra, e.errors) && HoldsMeta(kind, row.meta, e.meta)
  {
    forall meta: Meta | meta.Kind() == kind && meta.Writable() && row.meta == Some(Encode(meta))
      ensures DecodeRow(kind, id, row).value.meta == Some(meta)
    {
      RoundTripIff(meta);
    }
  }

  predicate LastOf(items: seq<Json>, item: Json) {
    items != [] && items[|items| - 1] == item
  }

  /** The column after one more error: extended in place, or restarted around what could not be read. */
  predicate OneMoreError(before: Option<Json>, reason: Text, after: Option<Json>) {
    && after.Some? && after.value.Obj? && "errors" in after.value.fields && after.value.fields["errors"].Arr?
    && if Keeps(before)
       then && LastOf(after.value.fields["errors"].items, Str(reason))
            && HoldsErrors(before, after.value.fields["errors"].items[..|after.value.fields["errors"].items| - 1])
            && after.value.fields - {"errors"} == (if before.Some? then before.value.fields - {"errors"} else map[])
       else after.value.fields == map["errors" := Arr([Str(reason)]),
                                      "quarantined_extra_info" := if Parses(before.value) then before.value else Str(Rendered(before.value))]
  }

  lemma FailureIsOneMore(before: Option<Json>, reason: Text)
    ensures OneMoreError(before, reason, FailureColumn(before, Some(reason)))
  {
    if Keeps(before) {
      KeptIsExtended(before, reason);
    } else {
      OtherIsRestarted(before.value, reason);
    }
  }

  lemma KeptIsExtended(before: Option<Json>, reason: Text)
    requires Keeps(before)
    ensures OneMoreError(before, reason, FailureColumn(before, Some(reason)))
  {
    assert RawExtraInfo(before) == before;
    hide Parses, RawExtraInfo;
    var items := FailureColumn(before, Some(reason)).value.fields["errors"].items;
    assert items == Errors(before) + [Str(reason)] && items[..|items| - 1] == Errors(before);
  }

  lemma OtherIsRestarted(before: Json, reason: Text)
    requires !Keeps(Some(before))
    ensures OneMoreError(Some(before), reason, FailureColumn(Some(before), Some(reason)))
  {
    var raw := if Parses(before) then before else Str(Rendered(before));
    assert RawExtraInfo(Some(before)) == Some(raw) && !HasHistory(raw);
    hide Parses, RawExtraInfo, HasHistory;
    assert FailureColumn(Some(before), Some(reason)) == Some(Obj(map["errors" := Arr([Str(reason)]), "quarantined_extra_info" := raw]));
  }

  /** No recording, claiming or ending of a lease touches these. */
  predicate SameOtherwise(before: Row, after: Row) {
    && after.receivedAt == before.receivedAt && after.processedAt == before.processedAt
    && after.payload == before.payload && after.route == before.route && after.meta == before.meta
  }

  /** A failed row: the lease is gone, the error is recorded, and the row is due again after its delay. */
  predicate Fails(kind: Kind, before: Row, max: int, now: Time, reason: Option<Text>, after: Row) {
    && SameOtherwise(before, after) && after.attempts == before.attempts
    && after.status == Status.Failed && after.token == None && after.reservedAt == None && after.updatedAt == now
    && after.lastError == (if kind.Outbox? then reason else before.lastError)
    && (if reason.Some? then OneMoreError(before.extra, reason.value, after.extra) else after.extra == before.extra)
    && after.scheduledAt == (if kind.Outbox? && before.attempts >= max then before.scheduledAt
                             else if before.attempts <= 1 then now + 30_000_000
                             else if kind.Inbox? || before.attempts <= 4 then now + 30_000_000 * before.attempts
                             else now + 120_000_000)
  }

  lemma FailLeaves(kind: Kind, row: Row, max: I32, now: Time, reason: Option<Text>)
    ensures Fails(kind, row, max, now, reason, FailRow(kind, row, max, now, reason))
  {
    ExactInstants(kind, row.attempts, max, now, row.scheduledAt);
    if reason.Some? {
      FailureIsOneMore(row.extra, reason.value);
    }
  }

  /** A timed-out row, its column being one that a failure would extend in place. */
  predicate TimesOut(kind: Kind, before: Row, max: int, now: Time, after: Row) {
    && SameOtherwise(before, after) && after.attempts == before.attempts && after.lastError == before.lastError
    && after.status == Status.Failed && after.token == None && after.reservedAt == None && after.updatedAt == now
    && (Keeps(before.extra) ==>
          OneMoreError(before.extra, match kind
                                     case Inbox => Lit("inbox reservation timed out")
                                     case Commands => Lit("command reservation timed out")
                                     case Events => Lit("event reservation timed out")
                                     case Outbox => Lit("publication reservation timed out"), after.extra))
    && after.scheduledAt == (if !kind.Outbox? then now + 30_000_000 * before.attempts
                             else if before.attempts >= max then before.scheduledAt
                             else if before.attempts <= 1 then now + 30_000_000
                             else if before.attempts <= 4 then now + 30_000_000 * before.attempts
                             else now + 120_000_000)
  }

  lemma SweepLeaves(kind: Kind, row: Row, max: I32, now: Time)
    ensures TimesOut(kind, row, max, now, SweepRow(kind, row, max, now))
  {
    ExactInstants(kind, row.attempts, max, now, row.scheduledAt);
    if Keeps(row.extra) {
      SweepAgreesIff(row.extra, TimeoutReason(kind));
      FailureIsOneMore(row.extra, TimeoutReason(kind));
    }
  }

  /** Whether a claimed row decodes. */
  predicate Readable(kind: Kind, row: Row) {
    Decodes(row.extra) && if row.meta.Some? then Decode(kind, row.meta.value).Ok? else kind.Commands? || kind.Events?
  }

  /** A row that a reservation took: one attempt more, and either leased under the token from now on or, if it
      does not decode, failed at once with the reason. */
  predicate Taken(kind: Kind, id: Uuid, before: Row, token: Uuid, now: Time, after: Row) {
    && SameOtherwise(before, after) && after.attempts == before.attempts + 1 && after.updatedAt == now
    && if Readable(kind, before) then
         && after.status == Status.Reserved && after.token == Some(token) && after.reservedAt == Some(now)
         && after.scheduledAt == before.scheduledAt && after.lastError == before.lastError && after.extra == before.extra
       else
         var reason := ItemText(id, token, "reservation", Lit(if !Decodes(before.extra) then "invalid extra_info"
                                                              else if before.meta.None? then "missing metadata"
                                                              else "invalid metadata"));
         && after.status == Status.Failed && after.token == None && after.reservedAt == None
         && after.lastError == (if kind.Outbox? then Some(reason) else before.lastError)
         && OneMoreError(before.extra, reason, after.extra)
  }

  lemma ReserveLeaves(kind: Kind, id: Uuid, row: Row, token: Uuid, max: I32, now: Time)
    requires row.attempts < 0x7FFF_FFFF
    ensures Taken(kind, id, row, token, now, ReserveRow(kind, id, row, token, max, now))
    ensures DecodeRow(kind, id, ClaimRow(row, token, now)).Ok? <==> Readable(kind, row)
  {
    var claimed := ClaimRow(row, token, now);
    DecodesIff(kind, id, claimed);
    match DecodeRow(kind, id, claimed)
    case Ok(_) =>
    case Err(cause) => FailLeaves(kind, claimed, max, now, Some(QuarantineReason(id, token, cause)));
  }

  // ---------- whole transactions ----------

  lemma CompletionLeaves(kind: Kind, s: State, id: Uuid, token: Uuid)
    ensures Next(kind, s, Complete(id, token)).rows
            == if id in s.rows && s.rows[id].status == Status.Reserved && s.rows[id].token == Some(token)
               then s.rows[id := s.rows[id].(status := Status.Completed, token := None, reservedAt := None, updatedAt := s.now,
                                             processedAt := Some(s.now), lastError := if kind.Outbox? then None else s.rows[id].lastError)]
               else s.rows
  {
  }

  lemma FailureLeaves(kind: Kind, s: State, id: Uuid, token: Uuid, max: I32, reason: Option<Text>)
    ensures var after := Next(kind, s, Fail(id, token, max, reason)).rows;
            if id in s.rows && s.rows[id].status == Status.Reserved && s.rows[id].token == Some(token)
            then after.Keys == s.rows.Keys && after == s.rows[id := after[id]] && Fails(kind, s.rows[id], max, s.now, reason, after[id])
            else after == s.rows
  {
    if Owned(s.rows, id, token) {
      FailLeaves(kind, s.rows[id], max, s.now, reason);
    }
  }

  /** A committed sweep times out exactly the rows leased before the cutoff. */
  lemma TimeoutsLeave(kind: Kind, s: State, timeout: Time, max: I32)
    requires Commits(kind, s, Sweep(timeout, max))
    ensures var after := Next(kind, s, Sweep(timeout, max)).rows;
            && after.Keys == s.rows.Keys
            && forall id | id in s.rows ::
                 if s.rows[id].status == Status.Reserved && s.rows[id].reservedAt.Some? && s.rows[id].reservedAt.value < s.now - timeout
                 then TimesOut(kind, s.rows[id], max, s.now, after[id])
                 else after[id] == s.rows[id]
  {
    hide TimesOut, SweepRow;
    forall id | id in s.rows ensures TimesOut(kind, s.rows[id], max, s.now, SweepRow(kind, s.rows[id], max, s.now)) {
      SweepLeaves(kind, s.rows[id], max, s.now);
    }
  }

  /** A committed reservation takes exactly the picked rows. */
  lemma ReservationLeaves(kind: Kind, s: State, e: Event)
    requires e.Reserve? && Commits(kind, s, e)
    ensures var after := Next(kind, s, e).rows;
            && after.Keys == s.rows.Keys
            && forall id | id in s.rows ::
                 if id in e.picked then Taken(kind, id, s.rows[id], e.token, s.now, after[id]) else after[id] == s.rows[id]
  {
    hide Taken, ReserveRow;
    forall id | id in s.rows && id in e.picked
      ensures s.rows[id].attempts < e.max && Taken(kind, id, s.rows[id], e.token, s.now, ReserveRow(kind, id, s.rows[id], e.token, e.max, s.now))
    {
      ReserveLeaves(kind, id, s.rows[id], e.token, e.max, s.now);
    }
  }
}
