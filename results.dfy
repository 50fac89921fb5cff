/**
 * The result shapes of the health-checks base library as the plugin fills
 * them: a check's `ResultData`, a metric's `MetricData`, and the outcome of
 * running a check, which may end in an exception that the check does not catch.
 */
module Results {
  import opened Wrappers

  datatype Status = Healthy | Warning | Unhealthy

  /** A value in a result's `data` or a metric's `meta` map. */
  datatype Datum = IntDatum(i: int) | StrDatum(s: string)

  datatype Field = Field(name: string, value: Datum)

  datatype ResultData = ResultData(
    typeName: string,
    key: Option<string>,
    status: Status,
    message: string,
    data: Option<seq<Field>>)

  /** `value` is the measurement in the base unit the model keeps (bytes for sizes). */
  datatype MetricData = MetricData(
    typeName: string,
    value: int,
    unit: string,
    meta: Option<seq<Field>>)

  datatype CheckRun = Completed(result: ResultData) | Threw(exception: string)

  /** Stands for the message of a `TypeError` raised under `strict_types`, whose exact text is not modelled. */
  const TypeErrorThrown: string := "TypeError"

  function FieldNames(fields: seq<Field>): seq<string> {
    seq(|fields|, i requires 0 <= i < |fields| => fields[i].name)
  }

  /** The value stored under `name` in a data map, if any. */
  function FieldValue(fields: seq<Field>, name: string): Option<Datum> {
    if fields == [] then None
    else if fields[0].name == name then Some(fields[0].value)
    else FieldValue(fields[1..], name)
  }

  /** Looking a name up in two maps laid end to end finds it in the first one that has it. */
  lemma {:induction false} FieldValueAppend(a: seq<Field>, b: seq<Field>, name: string)
    ensures FieldValue(a + b, name) == if name in FieldNames(a) then FieldValue(a, name) else FieldValue(b, name)
  {
    if a != [] {
      assert (a + b)[1..] == a[1..] + b;
      assert FieldNames(a) == [a[0].name] + FieldNames(a[1..]);
      FieldValueAppend(a[1..], b, name);
    } else {
      assert a + b == b;
      assert FieldNames(a) == [];
    }
  }

  /** `$data ?: null`: an empty PHP array is falsy, so an empty map becomes null. */
  function NullIfEmpty(fields: seq<Field>): Option<seq<Field>> {
    if fields == [] then None else Some(fields)
  }
}
