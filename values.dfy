/**
 * The object graph the API serializes: talks, users, presentations, slots and
 * rooms as seen through Python attribute access, plus the exceptions that
 * attribute reads and the field post-processors can raise.
 */
module Values {

  datatype Option<T> = None | Some(value: T)

  type Year = y: int | 1 <= y <= 9999 witness 1
  type Month = m: int | 1 <= m <= 12 witness 1
  type Day = d: int | 1 <= d <= 31 witness 1
  type Hour = h: int | 0 <= h <= 23
  type Minute = m: int | 0 <= m <= 59
  type Second = s: int | 0 <= s <= 59

  /** A `datetime.date`; its components are in range by construction. */
  datatype Date = Date(year: Year, month: Month, day: Day)

  /** A `datetime.time`, to the second. */
  datatype Time = Time(hour: Hour, minute: Minute, second: Second)

  /**
   * A Python value reachable from a serialized record. `Obj` is an object
   * whose attributes are its map; `List` is any sequence (a relationship's
   * list of rows, a list literal).
   */
  datatype Value =
    | Null
    | Bool(b: bool)
    | Int(i: int)
    | Str(s: string)
    | DateVal(date: Date)
    | TimeVal(time: Time)
    | Obj(attrs: map<string, Value>)
    | List(items: seq<Value>)

  /** The Python exception a read or a post-processor raises. */
  datatype Error =
    | AttributeError(name: string)
    | KeyError(key: Value)
    | TypeError
    | ValueError

  /** A value, or the exception raised instead of producing it. */
  datatype Result<T> = Ok(value: T) | Err(error: Error)

  /**
   * `getattr(v, name)`: an object's attribute, or AttributeError when the
   * object has no such attribute or `v` is not an object of the graph
   * (None included).
   */
  function GetAttr(v: Value, name: string): (r: Result<Value>)
    ensures r.Ok? <==> v.Obj? && name in v.attrs
    ensures r.Ok? ==> r.value == v.attrs[name]
    ensures r.Err? ==> r.error == AttributeError(name)
  {
    if v.Obj? && name in v.attrs then Ok(v.attrs[name]) else Err(AttributeError(name))
  }

  /**
   * Reading `names` one after another off `v` with no check for None in
   * between: the reference against which the guarded walk of an attribute
   * path is stated.
   */
  function Chain(v: Value, names: seq<string>): Result<Value>
    decreases |names|
  {
    if names == [] then Ok(v)
    else match GetAttr(v, names[0])
      case Err(e) => Err(e)
      case Ok(next) => Chain(next, names[1..])
  }

  /** Reading one more name extends the chain by one attribute read. */
  lemma {:induction false} ChainAppend(v: Value, names: seq<string>, last: string)
    ensures Chain(v, names + [last]) ==
      match Chain(v, names)
      case Err(e) => Err(e)
      case Ok(w) => GetAttr(w, last)
    decreases |names|
  {
    if names != [] {
      assert (names + [last])[1..] == names[1..] + [last];
      match GetAttr(v, names[0])
      case Err(_) =>
      case Ok(next) => ChainAppend(next, names[1..], last);
    }
  }
}
