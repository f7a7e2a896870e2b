/** Lease safety over every run of a queue: who may change a row, and for how long a token counts. */
module Leases {
  import opened Base
  import opened ErrorHistory
  import opened Metadata
  import opened Queue

  // ---------- what one event does to one row ----------

  datatype Touch =
    | Untouched
    | Claimed(token: Uuid)
    | Quarantined(token: Uuid, reason: Text)
    | Succeeded(token: Uuid)
    | Failure(token: Uuid, cause: Option<Text>)
    | TimedOut(token: Uuid)

  function TouchOf(kind: Kind, s: State, e: Event, id: Uuid): Touch {
    if id !in s.rows || !Commits(kind, s, e) then Untouched
    else match e
      case Reserve(token, _, _, _, picked) =>
        if id !in picked then Untouched
        else (match DecodeRow(kind, id, ClaimRow(s.rows[id], token, s.now))
              case Ok(_) => Claimed(token)
              case Err(cause) => Quarantined(token, QuarantineReason(id, token, cause)))
      case Complete(i, token) => if i == id then Succeeded(token) else Untouched
      case Fail(i, token, _, reason) => if i == id then Failure(token, reason) else Untouched
      case Sweep(timeout, _) =>
        if Stale(s.rows[id], s.now, timeout) && s.rows[id].token.Some? then TimedOut(s.rows[id].token.value) else Untouched
      case _ => Untouched
  }

  predicate IsClaim(t: Touch) {
    t.Claimed? || t.Quarantined?
  }

  function MaxOf(e: Event): I32 {
    if e.Reserve? || e.Fail? || e.Sweep? then e.max else 0
  }

  /** The row an event leaves behind, by the way it touches it. */
  ghost predicate Touched(kind: Kind, row: Row, t: Touch, max: I32, now: Time, after: Row) {
    match t
    case Untouched => after == row
    case Claimed(token) => Eligible(row, now, max) && after == ClaimRow(row, token, now) && Decodes(row.extra)
    case Quarantined(token, reason) =>
      Eligible(row, now, max) && after == FailRow(kind, ClaimRow(row, token, now), max, now, Some(reason))
    case Succeeded(token) => row.status.Reserved? && row.token == Some(token) && after == CompleteRow(kind, row, now)
    case Failure(token, cause) =>
      row.status.Reserved? && row.token == Some(token) && after == FailRow(kind, row, max, now, cause)
    case TimedOut(token) =>
      row.status.Reserved? && row.token == Some(token) && Sweepable(kind, row) && after == SweepRow(kind, row, max, now)
  }

  lemma TouchEffect(kind: Kind, s: State, e: Event, id: Uuid)
    requires Inv(s) && id in s.rows
    ensures id in Next(kind, s, e).rows
    ensures Touched(kind, s.rows[id], TouchOf(kind, s, e, id), MaxOf(e), s.now, Next(kind, s, e).rows[id])
  {
    assert RowOk(s.rows[id], s.now);
    if e.Sweep? && Commits(kind, s, e) && Stale(s.rows[id], s.now, e.timeout) {
      assert id in StaleIds(s.rows, s.now, e.timeout);
    }
  }

  // ---------- the invariant ----------

  predicate RowOk(row: Row, now: Time) {
    && (row.status.Reserved? <==> row.token.Some?)
    && (row.token.Some? <==> row.reservedAt.Some?)
    && row.attempts >= 0
    && (row.status.Reserved? ==> row.attempts >= 1 && row.reservedAt.value <= now && Decodes(row.extra))
  }

  /** A row is Reserved iff it has a token and a reservation time, and every live token was drawn. */
  predicate Inv(s: State) {
    forall id | id in s.rows :: RowOk(s.rows[id], s.now) && (s.rows[id].token.Some? ==> s.rows[id].token.value in s.issued)
  }

  lemma NextKeepsInv(kind: Kind, s: State, e: Event)
    requires Inv(s)
    ensures Inv(Next(kind, s, e))
    ensures s.rows.Keys <= Next(kind, s, e).rows.Keys
    ensures s.now <= Next(kind, s, e).now && s.issued <= Next(kind, s, e).issued
  {
    var after := Next(kind, s, e);
    forall id | id in after.rows
      ensures RowOk(after.rows[id], after.now) && (after.rows[id].token.Some? ==> after.rows[id].token.value in after.issued)
    {
      if id in s.rows {
        TouchEffect(kind, s, e, id);
        assert RowOk(s.rows[id], s.now);
      } else {
        assert e.Record? && e.id == id;
      }
    }
    forall id | id in s.rows ensures id in after.rows {
      TouchEffect(kind, s, e, id);
    }
  }

  lemma {:induction false} RunKeepsInv(kind: Kind, s: State, es: seq<Event>)
    requires Inv(s)
    ensures Inv(Exec(kind, s, es))
    ensures s.rows.Keys <= Exec(kind, s, es).rows.Keys
    ensures s.now <= Exec(kind, s, es).now && s.issued <= Exec(kind, s, es).issued
  {
    if es != [] {
      RunKeepsInv(kind, s, es[..|es| - 1]);
      NextKeepsInv(kind, Exec(kind, s, es[..|es| - 1]), es[|es| - 1]);
    }
  }

  /** No claim ever overflows the attempt counter. */
  lemma AttemptsNeverOverflow(kind: Kind, s: State, es: seq<Event>, e: Event, id: Uuid)
    requires Inv(s) && id in Exec(kind, s, es).rows && IsClaim(TouchOf(kind, Exec(kind, s, es), e, id))
    ensures Exec(kind, s, es).rows[id].attempts + 1 <= MaxOf(e) <= 0x7FFF_FFFF
    ensures Next(kind, Exec(kind, s, es), e).rows[id].attempts == Exec(kind, s, es).rows[id].attempts + 1
  {
    RunKeepsInv(kind, s, es);
    TouchEffect(kind, Exec(kind, s, es), e, id);
  }

  // ---------- lease safety ----------

  /** While a row is leased, only the holder's own two finalizations and a sweep past the timeout change it. */
  lemma LeaseIsExclusive(kind: Kind, s: State, e: Event, id: Uuid, token: Uuid)
    requires Inv(s) && Owned(s.rows, id, token)
    ensures var after := Next(kind, s, e);
            || after.rows[id] == s.rows[id]
            || e == Complete(id, token)
            || (e.Fail? && e.id == id && e.token == token)
            || (e.Sweep? && s.rows[id].reservedAt.value < s.now - e.timeout)
  {
    TouchEffect(kind, s, e, id);
  }

  /** A lease that is over is over in every continuation: its token never becomes live on that row again. */
  lemma {:induction false} LeaseNeverReturns(kind: Kind, s: State, es: seq<Event>, id: Uuid, token: Uuid)
    requires Inv(s) && token in s.issued && !Owned(s.rows, id, token)
    ensures !Owned(Exec(kind, s, es).rows, id, token)
  {
    if es != [] {
      var before := Exec(kind, s, es[..|es| - 1]);
      LeaseNeverReturns(kind, s, es[..|es| - 1], id, token);
      RunKeepsInv(kind, s, es[..|es| - 1]);
      if id in before.rows {
        TouchEffect(kind, before, es[|es| - 1], id);
        assert RowOk(before.rows[id], before.now);
      }
    }
  }

  /** A worker holding a lease that is over changes nothing, whatever happened in between. */
  lemma LateWorkerIsPowerless(kind: Kind, s: State, es: seq<Event>, id: Uuid, token: Uuid, max: I32, reason: Option<Text>)
    requires Inv(s) && token in s.issued && !Owned(s.rows, id, token)
    ensures Next(kind, Exec(kind, s, es), Complete(id, token)) == Exec(kind, s, es)
    ensures Next(kind, Exec(kind, s, es), Fail(id, token, max, reason)) == Exec(kind, s, es)
  {
    LeaseNeverReturns(kind, s, es, id, token);
  }

  predicate Terminal(row: Row) {
    row.status.Completed? || row.status.Dead? || row.status.Archive?
  }

  /** A terminal row, in particular a Completed one, is never changed again. */
  lemma {:induction false} TerminalIsAbsorbing(kind: Kind, s: State, es: seq<Event>, id: Uuid)
    requires Inv(s) && id in s.rows && Terminal(s.rows[id])
    ensures id in Exec(kind, s, es).rows && Exec(kind, s, es).rows[id] == s.rows[id]
  {
    if es != [] {
      TerminalIsAbsorbing(kind, s, es[..|es| - 1], id);
      RunKeepsInv(kind, s, es[..|es| - 1]);
      TouchEffect(kind, Exec(kind, s, es[..|es| - 1]), es[|es| - 1], id);
    }
  }

  /** A completion that committed although its caller saw an error stands: the caller's later `failed`
      leaves the Completed row as it is, after any interleaving. */
  lemma AmbiguousCompletionStands(kind: Kind, s: State, es: seq<Event>, id: Uuid, token: Uuid, max: I32, reason: Option<Text>)
    requires Inv(s) && Owned(s.rows, id, token)
    ensures var run := [Complete(id, token)] + es + [Fail(id, token, max, reason)];
            id in Exec(kind, s, run).rows && Exec(kind, s, run).rows[id] == CompleteRow(kind, s.rows[id], s.now)
  {
    var done := Next(kind, s, Complete(id, token));
    var tail := es + [Fail(id, token, max, reason)];
    assert [Complete(id, token)][..0] == [];
    assert Exec(kind, s, [Complete(id, token)]) == done;
    assert [Complete(id, token)] + es + [Fail(id, token, max, reason)] == [Complete(id, token)] + tail;
    ExecAppend(kind, s, [Complete(id, token)], tail);
    NextKeepsInv(kind, s, Complete(id, token));
    TerminalIsAbsorbing(kind, done, tail, id);
  }

  /** The tokens under which a run claims a row, in order. */
  ghost function Tokens(kind: Kind, s: State, es: seq<Event>, id: Uuid): seq<Uuid> {
    if es == [] then []
    else
      var init := es[..|es| - 1];
      var t := TouchOf(kind, Exec(kind, s, init), es[|es| - 1], id);
      Tokens(kind, s, init, id) + if IsClaim(t) then [t.token] else []
  }

  /** Pairwise distinct tokens, all drawn after the ones in `before` and recorded in `after`. */
  predicate FreshlyDrawn(tokens: seq<Uuid>, before: set<Uuid>, after: set<Uuid>) {
    && (forall i, j | 0 <= i < j < |tokens| :: tokens[i] != tokens[j])
    && (forall i | 0 <= i < |tokens| :: tokens[i] !in before && tokens[i] in after)
  }

  /** Every claim of a row has a token of its own, drawn during the run. */
  lemma {:induction false} ClaimsHaveDistinctTokens(kind: Kind, s: State, es: seq<Event>, id: Uuid)
    requires Inv(s)
    ensures FreshlyDrawn(Tokens(kind, s, es, id), s.issued, Exec(kind, s, es).issued)
  {
    if es != [] {
      var init, e := es[..|es| - 1], es[|es| - 1];
      var before := Exec(kind, s, init);
      ClaimsHaveDistinctTokens(kind, s, init, id);
      RunKeepsInv(kind, s, init);
      NextKeepsInv(kind, before, e);
      var t := TouchOf(kind, before, e, id);
      assert IsClaim(t) ==> t.token !in before.issued && t.token in Next(kind, before, e).issued;
      assert Tokens(kind, s, es, id) == Tokens(kind, s, init, id) + if IsClaim(t) then [t.token] else [];
    }
  }
}
