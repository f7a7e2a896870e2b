/** The error history kept in a row's `extra_info` column: how a recorded failure and a sweep append to
    it, which columns a reservation can decode, and when the two ways of appending agree. */
module ErrorHistory {
  import opened Base

  const ERRORS := "errors"
  const QUARANTINED := "quarantined_extra_info"

  /** Whether serde_json can represent the value, that is, no number in it is out of range. */
  predicate Parses(j: Json) {
    match j
    case BigNum(_) => false
    case Arr(items) => forall i | 0 <= i < |items| :: Parses(items[i])
    case Obj(fields) => forall k | k in fields :: Parses(fields[k])
    case _ => true
  }

  predicate IsErrorList(j: Json) {
    j.Arr? && forall i | 0 <= i < |j.items| :: j.items[i].Str?
  }

  /** An object whose `errors` member is absent or an array of strings. */
  predicate HasHistory(j: Json) {
    j.Obj? && (ERRORS in j.fields ==> IsErrorList(j.fields[ERRORS]))
  }

  /** Whether the column deserializes as the typed error list; other members are ignored. */
  predicate Decodes(column: Option<Json>) {
    column.Some? ==> HasHistory(column.value)
  }

  /** The errors a column holds, in order; none when the column holds no readable list. */
  function Errors(column: Option<Json>): seq<Json> {
    if column.Some? && HasHistory(column.value) && ERRORS in column.value.fields
    then column.value.fields[ERRORS].items
    else []
  }

  /** The members of a column other than `errors`. */
  function Others(column: Option<Json>): map<string, Json> {
    if column.Some? && column.value.Obj? then column.value.fields - {ERRORS} else map[]
  }

  function RawExtraInfo(column: Option<Json>): Option<Json> {
    match column
    case None => None
    case Some(j) => Some(if Parses(j) then j else Str(Rendered(j)))
  }

  function AppendFailure(original: Option<Json>, reason: Text): Json {
    match original
    case None => Obj(map[ERRORS := Arr([Str(reason)])])
    case Some(j) =>
      if HasHistory(j) then
        var errors := if ERRORS in j.fields then j.fields[ERRORS].items else [];
        Obj(j.fields[ERRORS := Arr(errors + [Str(reason)])])
      else
        Obj(map[ERRORS := Arr([Str(reason)]), QUARANTINED := j])
  }

  /** The column `write_failure` stores: unchanged without a reason. */
  function FailureColumn(column: Option<Json>, reason: Option<Text>): Option<Json> {
    match reason
    case None => column
    case Some(text) => Some(AppendFailure(RawExtraInfo(column), text))
  }

  /** The sweep's `jsonb_set(coalesce(extra, {}), '{errors}', coalesce(extra->'errors', []) || [text])`.
      `None` is the SQL error PostgreSQL raises when the target is an array or a scalar. */
  function SweepColumn(column: Option<Json>, reason: Text): Option<Json> {
    match column
    case None => Some(Obj(map[ERRORS := Arr([Str(reason)])]))
    case Some(Obj(fields)) =>
      var before := if ERRORS !in fields then [] else if fields[ERRORS].Arr? then fields[ERRORS].items else [fields[ERRORS]];
      Some(Obj(fields[ERRORS := Arr(before + [Str(reason)])]))
    case Some(_) => None
  }

  function FailureColumns(column: Option<Json>, reasons: seq<Text>): Option<Json> {
    if reasons == [] then column
    else FailureColumn(FailureColumns(column, reasons[..|reasons| - 1]), Some(reasons[|reasons| - 1]))
  }

  function Strings(reasons: seq<Text>): (r: seq<Json>)
    ensures |r| == |reasons|
  {
    seq(|reasons|, i requires 0 <= i < |reasons| => Str(reasons[i]))
  }

  /** A column whose history a failure extends instead of replacing it by a quarantine object. */
  predicate Keeps(column: Option<Json>) {
    column.Some? ==> Parses(column.value) && HasHistory(column.value)
  }

  /** Whatever the column held, after any number of recorded failures it decodes, its errors are the
      readable original errors followed by the reasons, and its other members are the original ones, or
      just the quarantined original: quarantining happens on the first failure and never again. */
  lemma {:induction false} RepeatedFailures(column: Option<Json>, reasons: seq<Text>)
    requires reasons != []
    ensures var last := FailureColumns(column, reasons);
            && last.Some? && Keeps(last)
            && Errors(last) == (if Keeps(column) then Errors(column) else []) + Strings(reasons)
            && Others(last) == (if Keeps(column) then Others(column)
                                else map["quarantined_extra_info" := if Parses(column.value) then column.value else Str(Rendered(column.value))])
  {
    hide FailureColumn, RawExtraInfo, Keeps, Errors, Others;
    var init, reason := reasons[..|reasons| - 1], reasons[|reasons| - 1];
    OneFailure(FailureColumns(column, init), reason);
    assert Strings(reasons) == Strings(init) + [Str(reason)];
    if init != [] {
      RepeatedFailures(column, init);
    }
  }

  /** One failure: extend in place, or start over around the quarantined original. */
  lemma OneFailure(column: Option<Json>, reason: Text)
    ensures var last := FailureColumn(column, Some(reason));
            && last.Some? && Keeps(last)
            && Errors(last) == (if Keeps(column) then Errors(column) else []) + [Str(reason)]
            && Others(last) == (if Keeps(column) then Others(column)
                                else map["quarantined_extra_info" := if Parses(column.value) then column.value else Str(Rendered(column.value))])
            && (column.None? ==> Keeps(column))
  {
    var last := FailureColumn(column, Some(reason));
    assert Others(last) == if Keeps(column) then Others(column) else map[QUARANTINED := RawExtraInfo(column).value];
  }

  /** One recorded failure extends the readable history by exactly its reason if and only if the column
      is extended in place or had no readable error to lose. */
  lemma FailureExtendsHistoryIff(column: Option<Json>, reason: Text)
    ensures Errors(FailureColumn(column, Some(reason))) == Errors(column) + [Str(reason)]
       <==> Keeps(column) || Errors(column) == []
  {
  }

  /** A decodable column that also holds an out-of-range number elsewhere loses its readable errors to
      the quarantine object. */
  lemma QuarantineCanHideReadableErrors() returns (column: Option<Json>)
    ensures column == Some(Obj(map[ERRORS := Arr([Str(Lit("old"))]), "other" := BigNum("1e1000")]))
    ensures Decodes(column) && Errors(column) == [Str(Lit("old"))]
    ensures Errors(FailureColumn(column, Some(Lit("new")))) == [Str(Lit("new"))]
  {
    column := Some(Obj(map[ERRORS := Arr([Str(Lit("old"))]), "other" := BigNum("1e1000")]));
    assert !Parses(column.value.fields["other"]);
    assert !Keeps(column) && Errors(column) != [];
  }

  /** The sweep's SQL expression computes the same column as a recorded failure exactly on the columns a
      failure does not quarantine; on every other one it errors or stores something else. */
  lemma SweepAgreesIff(column: Option<Json>, reason: Text)
    ensures SweepColumn(column, reason) == FailureColumn(column, Some(reason)) <==> Keeps(column)
  {
    if column.Some? && column.value.Obj? && !Keeps(column) {
      var fields := column.value.fields;
      var failed := FailureColumn(column, Some(reason)).value.fields;
      assert failed[QUARANTINED] == RawExtraInfo(column).value;
      if QUARANTINED in fields {
        assert fields[QUARANTINED] != Obj(fields) && fields[QUARANTINED] != Str(Rendered(Obj(fields)));
        assert SweepColumn(column, reason).value.fields[QUARANTINED] == fields[QUARANTINED];
      }
    }
  }

  /** On a decodable column the sweep always succeeds, appends exactly its reason and keeps the other
      members. On an undecodable one it fails, or leaves the column undecodable unless `errors` was a
      bare string, which it wraps into a list. */
  lemma SweepKeepsDecodable(column: Option<Json>, reason: Text)
    ensures var swept := SweepColumn(column, reason);
            if Decodes(column)
            then && swept.Some? && Decodes(swept) && Others(swept) == Others(column)
                 && Errors(swept) == Errors(column) + [Str(reason)]
                 && (Keeps(column) ==> Keeps(swept))
            else swept.None? || (Decodes(swept) <==> column.value.fields[ERRORS].Str?)
  {
    var swept := SweepColumn(column, reason);
    if Decodes(column) {
      assert Others(swept) == Others(column);
    } else if column.value.Obj? && column.value.fields[ERRORS].Arr? {
      var items := column.value.fields[ERRORS].items;
      var i :| 0 <= i < |items| && !items[i].Str?;
      assert swept.value.fields[ERRORS].items[i] == items[i];
    } else if column.value.Obj? {
      var items := swept.value.fields[ERRORS].items;
      assert items[0] == column.value.fields[ERRORS] && items[1] == Str(reason) && |items| == 2;
    }
  }
}
