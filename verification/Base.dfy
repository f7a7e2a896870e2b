/** Values shared by every queue: identifiers, instants, machine integers, and the text and JSON
    values that rows carry. */
module Base {

  /** A UUID. Only equality and freshness of generated ids are used. */
  type Uuid = nat

  /** An instant or a duration, in microseconds. */
  type Time = int

  const SECOND: Time := 1_000_000

  type I32 = x: int | -0x8000_0000 <= x < 0x8000_0000

  const I64_MAX: nat := 0x7FFF_FFFF_FFFF_FFFF

  datatype Option<+T> = None | Some(value: T)

  datatype Result<+T, +E> = Ok(value: T) | Err(error: E) {
    predicate IsFailure() {
      Err?
    }

    function PropagateFailure<U>(): Result<U, E>
      requires Err?
    {
      Err(error)
    }

    function Extract(): T
      requires Ok?
    {
      value
    }
  }

  /** A string. Formatting is kept symbolic: `UuidText` is the canonical text of an id, `ItemText` the
      context message around a cause, `Rendered` the text of a JSON value, `Lit` any other string. */
  datatype Text =
    | Lit(chars: string)
    | UuidText(id: Uuid)
    | ItemText(item: Uuid, reservation: Uuid, stage: string, cause: Text)
    | Rendered(json: Json)

  /** A `jsonb` value. `BigNum` is a number PostgreSQL stores but serde_json cannot represent. */
  datatype Json =
    | Null
    | Bool(b: bool)
    | Num(n: int)
    | BigNum(digits: string)
    | Str(text: Text)
    | Arr(items: seq<Json>)
    | Obj(fields: map<string, Json>)

  function Min(a: int, b: int): int {
    if a <= b then a else b
  }

  function Max(a: int, b: int): int {
    if a <= b then b else a
  }
}
