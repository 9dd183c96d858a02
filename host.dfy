/**
 * The host platform's dataset, as the control sees it.
 *
 * A dataset is an ordered list of record ids plus a dictionary from id to
 * record. A record answers `getValue(column)`, `getFormattedValue(column)`,
 * `getNamedReference()` and `getRecordId()`; here it is a value holding the
 * answers. JavaScript numbers are modelled as exact reals; the few places
 * where the source produces NaN or an infinity use `JsNumber`.
 */
module Host {

  datatype Option<T> = None | Some(value: T)

  /** A JavaScript number, with the IEEE special values the source can produce. */
  datatype JsNumber = Finite(v: real) | PosInfinity | NegInfinity | NaN

  /** The `id` of a lookup object: a plain string or a `{ guid }` object. */
  datatype Id = Plain(s: string) | Guid(guid: string)

  /**
   * A field value as `getValue` returns it: null/undefined, a number, a
   * string, a lookup object `{ id, name, entityType }` (any part may be
   * missing), an option-set object `{ value }`, or a date object.
   */
  datatype Value =
    | Null
    | Num(n: real)
    | Str(s: string)
    | Lookup(id: Option<Id>, name: Option<string>, entityType: Option<string>)
    | OptionSet(code: int)
    | DateTime(epochMillis: int)

  /** JavaScript truthiness of a field value. */
  predicate Truthy(v: Value) {
    match v
    case Null => false
    case Num(n) => n != 0.0
    case Str(s) => s != ""
    case _ => true
  }

  /** `value as number || d`: a non-zero number, else the default. */
  function AsNumberOr(v: Value, d: real): (r: real)
    ensures Truthy(v) && v.Num? ==> r == v.n
    ensures !Truthy(v) ==> r == d
  {
    if v.Num? && v.n != 0.0 then v.n else d
  }

  /** `value as string || d`: a non-empty string, else the default. */
  function AsTextOr(v: Value, d: string): (r: string)
    ensures Truthy(v) && v.Str? ==> r == v.s
    ensures !Truthy(v) ==> r == d
  {
    if v.Str? && v.s != "" then v.s else d
  }

  /** The name of a lookup object that has one. */
  function LookupName(v: Value): Option<string> {
    if v.Lookup? then v.name else None
  }

  datatype Record = Record(
    recordId: string,
    values: map<string, Value>,
    fallback: Value,              // what getValue answers for any other column
    formatted: map<string, string>,
    namedReference: Value)

  function GetValue(r: Record, column: string): Value {
    if column in r.values then r.values[column] else r.fallback
  }

  function GetFormattedValue(r: Record, column: string): string {
    if column in r.formatted then r.formatted[column] else ""
  }

  datatype Column = Column(name: string, alias: string, isPrimary: bool)

  datatype DataSet = DataSet(
    loading: bool,
    error: bool,
    sortedRecordIds: seq<string>,
    records: map<string, Record>,
    columns: seq<Column>,
    targetEntityType: string)

  /** The host promises a record for every listed id. */
  ghost predicate WellFormed(ds: DataSet) {
    forall i :: 0 <= i < |ds.sortedRecordIds| ==> ds.sortedRecordIds[i] in ds.records
  }

  /** Math.round: rounds half-way cases toward +Infinity. */
  function Round(x: real): (r: int)
    ensures x - 1.0 / 2.0 < r as real <= x + 1.0 / 2.0
  {
    (x + 1.0 / 2.0).Floor
  }

  /** k hundredths. */
  function Hundredths(k: int): real { k as real / 100.0 }

  /** A number with at most two decimals: a whole number of hundredths. */
  ghost predicate TwoDecimals(r: real) {
    exists k: int :: r == Hundredths(k)
  }

  /** parseFloat(x.toFixed(2)) on exact reals: half-way cases round away from zero. */
  function RoundTo2(x: real): (r: real)
    ensures -1.0 / 200.0 <= r - x <= 1.0 / 200.0
    ensures x >= 0.0 ==> r >= 0.0
    ensures TwoDecimals(r)
  {
    if x < 0.0 then
      var k := (-x * 100.0 + 1.0 / 2.0).Floor;
      assert -Hundredths(k) == Hundredths(-k);
      -Hundredths(k)
    else
      var k := (x * 100.0 + 1.0 / 2.0).Floor;
      Hundredths(k)
  }

  function Max(a: real, b: real): real { if a >= b then a else b }
  function Min(a: real, b: real): real { if a <= b then a else b }
}
