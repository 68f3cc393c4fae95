/** The per-robot binding of a door, as a dictionary of untyped values. */
module GarageBinding {
  import opened Common

  datatype Direction = Open | Close

  const DIRECTIONS := [Open, Close]

  function Opposite(d: Direction): Direction
  {
    if d == Open then Close else Open
  }

  /** A stored or reported value. `Other` is anything that is neither a finite number, a text nor a flag. */
  datatype Value = Null | Number(n: real) | Text(s: string) | Flag(b: bool) | Other

  datatype Key =
    | Enabled | AllowEstimated | HandoverConfirmed | ControlledExitEnabled
    | TaskDoorMode | CoverEntity | ClosePermission
    | Source(d: Direction) | Contact(d: Direction) | ContactState(d: Direction)
    | PositionKind | Position(d: Direction)
    | Travel(d: Direction) | TravelMargin | ContactSettle | PositionSettle | OperationTimeout | DockSettle
    | ExitX | ExitY | ExitTimeout
    | Unrelated(name: string)

  type Binding = map<Key, Value>

  /** Reading a missing key gives the same as a stored null. */
  function Get(b: Binding, k: Key): Value
  {
    if k in b then b[k] else Null
  }

  predicate Is(b: Binding, k: Key, word: string)
  {
    Get(b, k) == Text(word)
  }

  predicate IsTrue(b: Binding, k: Key)
  {
    Get(b, k) == Flag(true)
  }

  function NumberWithin(v: Value, low: real, high: real): Option<real>
  {
    if v.Number? && low <= v.n <= high then Some(v.n) else None
  }

  predicate UsesEstimate(b: Binding, d: Direction)
  {
    Is(b, Source(d), "timed") || (Is(b, Source(d), "position") && Is(b, PositionKind, "estimated"))
  }

  predicate UsesPosition(b: Binding)
  {
    Is(b, Source(Open), "position") || Is(b, Source(Close), "position")
  }

  predicate HasSource(b: Binding, d: Direction)
  {
    Is(b, Source(d), "contact") || Is(b, Source(d), "position") || Is(b, Source(d), "timed")
  }

  predicate OnOrOff(v: Value)
  {
    v == Text("on") || v == Text("off")
  }

  const BINARY_SENSOR := "binary_sensor"

  /** `domain.name` with a non-empty name in lower-case letters, digits and underscores. */
  predicate IsEntity(v: Value, domain: string)
  {
    && v.Text?
    && domain + "." < v.s
    && forall k :: |domain| < k < |v.s| ==> 'a' <= v.s[k] <= 'z' || '0' <= v.s[k] <= '9' || v.s[k] == '_'
  }
}
