/**
 * The three post-processors the talk fieldset attaches to attribute paths:
 * the recording-priority table, the " & " join of room names and the
 * `YYYY-MM-DDTHH:MM:SS` rendering of a slot's start.
 */
module PostProcessors {
  import opened Values
  import opened Strings

  /** The post-processor an attribute field may carry. */
  datatype PostProcessor = PriorityTable | JoinRooms | FormatSlotStart

  /** Calling the post-processor `p` on the value the path resolved to. */
  function Apply(p: PostProcessor, v: Value): Result<Value>
  {
    match p
    case PriorityTable => Priority(v)
    case JoinRooms => JoinRoomNames(v)
    case FormatSlotStart => SlotStart(v)
  }

  // ---------------------------------------------------------------------
  // Recording priority

  /**
   * `{True: 9, False: 0, None: 5}[released]`. Python's dictionary lookup
   * finds a key equal to the argument, and `1 == True`, `0 == False`, so the
   * integers 1 and 0 are found too; every other hashable value raises
   * KeyError, and a list (unhashable) raises TypeError.
   */
  function Priority(released: Value): (r: Result<Value>)
    ensures r.Ok? <==> released in {Bool(true), Bool(false), Null, Int(1), Int(0)}
    ensures r.Ok? ==> r.value in {Int(9), Int(0), Int(5)}
    ensures released in {Bool(true), Int(1)} ==> r == Ok(Int(9))
    ensures released in {Bool(false), Int(0)} ==> r == Ok(Int(0))
    ensures released == Null ==> r == Ok(Int(5))
    ensures r.Err? ==> r.error == (if released.List? then TypeError else KeyError(released))
  {
    match released
    case Bool(b) => Ok(Int(if b then 9 else 0))
    case Null => Ok(Int(5))
    case Int(i) =>
      if i == 1 then Ok(Int(9)) else if i == 0 then Ok(Int(0)) else Err(KeyError(released))
    case List(_) => Err(TypeError)
    case _ => Err(KeyError(released))
  }

  /** The three entries of the table, one per state of a recording release. */
  lemma PriorityEntries()
    ensures Priority(Bool(true)) == Ok(Int(9))
    ensures Priority(Bool(false)) == Ok(Int(0))
    ensures Priority(Null) == Ok(Int(5))
    ensures Priority(Int(1)) == Ok(Int(9))
    ensures Priority(Int(0)) == Ok(Int(0))
  {
  }

  // ---------------------------------------------------------------------
  // Rooms

  /**
   * `room.name for room in rooms`, drained by `str.join` before it looks at
   * any name: the first room without a name attribute raises.
   */
  function RoomNames(rooms: seq<Value>): (r: Result<seq<Value>>)
    ensures r.Ok? <==> forall k :: 0 <= k < |rooms| ==> GetAttr(rooms[k], "name").Ok?
    ensures r.Ok? ==> |r.value| == |rooms|
    ensures r.Ok? ==> forall k :: 0 <= k < |rooms| ==> GetAttr(rooms[k], "name") == Ok(r.value[k])
    ensures r.Err? ==> r.error == AttributeError("name")
    decreases |rooms|
  {
    if rooms == [] then Ok([])
    else match GetAttr(rooms[0], "name")
      case Err(e) => Err(e)
      case Ok(n) =>
        match RoomNames(rooms[1..])
        case Err(e) => Err(e)
        case Ok(ns) => Ok([n] + ns)
  }

  /** `str.join` accepts only strings: the first other item raises TypeError. */
  function Strs(vs: seq<Value>): (r: Result<seq<string>>)
    ensures r.Ok? <==> forall k :: 0 <= k < |vs| ==> vs[k].Str?
    ensures r.Ok? ==> |r.value| == |vs|
    ensures r.Ok? ==> forall k :: 0 <= k < |vs| ==> vs[k] == Str(r.value[k])
    ensures r.Err? ==> r.error == TypeError
    decreases |vs|
  {
    if vs == [] then Ok([])
    else if !vs[0].Str? then Err(TypeError)
    else match Strs(vs[1..])
      case Err(e) => Err(e)
      case Ok(ss) => Ok([vs[0].s] + ss)
  }

  /**
   * `' & '.join(room.name for room in rooms)`. A list is iterated; a string
   * is iterated too, so a non-empty one fails on its first character's
   * `name`; anything else is not iterable.
   */
  function JoinRoomNames(rooms: Value): Result<Value>
  {
    match rooms
    case List(items) =>
      (match RoomNames(items)
       case Err(e) => Err(e)
       case Ok(names) =>
         match Strs(names)
         case Err(e) => Err(e)
         case Ok(ss) => Ok(Str(Join(ss, " & "))))
    case Str(s) => if s == "" then Ok(Str("")) else Err(AttributeError("name"))
    case _ => Err(TypeError)
  }

  /** Rooms whose names are the strings `names` join to those names separated by " & ". */
  lemma JoinRoomNamesOfNamedRooms(items: seq<Value>, names: seq<string>)
    requires |items| == |names|
    requires forall k :: 0 <= k < |items| ==> GetAttr(items[k], "name") == Ok(Str(names[k]))
    ensures JoinRoomNames(List(items)) == Ok(Str(Join(names, " & ")))
  {
    var ns := RoomNames(items).value;
    assert forall k :: 0 <= k < |items| ==> ns[k] == Str(names[k]);
    var ss := Strs(ns).value;
    assert ss == names;
  }

  /** The join fails exactly when some room lacks a name or has a name that is not a string. */
  lemma JoinRoomNamesFails(items: seq<Value>)
    ensures JoinRoomNames(List(items)).Err? <==>
      exists k :: 0 <= k < |items| && !(GetAttr(items[k], "name").Ok? && GetAttr(items[k], "name").value.Str?)
    ensures JoinRoomNames(List(items)).Err? ==>
      JoinRoomNames(List(items)).error in {AttributeError("name"), TypeError}
  {
    var r := RoomNames(items);
    if r.Ok? {
      var ns := r.value;
      if Strs(ns).Ok? {
        assert forall k :: 0 <= k < |items| ==> GetAttr(items[k], "name").value.Str?;
      } else {
        var k :| 0 <= k < |ns| && !ns[k].Str?;
        assert GetAttr(items[k], "name") == Ok(ns[k]);
      }
    } else {
      var k :| 0 <= k < |items| && !GetAttr(items[k], "name").Ok?;
    }
  }

  /** No rooms give the empty string; two rooms give their names around " & ". */
  lemma JoinRoomNamesExamples(a: string, b: string)
    ensures JoinRoomNames(List([])) == Ok(Str(""))
    ensures JoinRoomNames(List([Obj(map["name" := Str(a)]), Obj(map["name" := Str(b)])])) ==
      Ok(Str(a + " & " + b))
  {
    JoinRoomNamesOfNamedRooms([Obj(map["name" := Str(a)]), Obj(map["name" := Str(b)])], [a, b]);
  }

  /** One more named room appends " & " and its name to a non-empty join. */
  lemma JoinRoomNamesAppend(items: seq<Value>, names: seq<string>, last: string)
    requires |items| == |names| >= 1
    requires forall k :: 0 <= k < |items| ==> GetAttr(items[k], "name") == Ok(Str(names[k]))
    ensures JoinRoomNames(List(items + [Obj(map["name" := Str(last)])])) ==
      Ok(Str(JoinRoomNames(List(items)).value.s + " & " + last))
  {
    var more := items + [Obj(map["name" := Str(last)])];
    JoinRoomNamesOfNamedRooms(items, names);
    JoinRoomNamesOfNamedRooms(more, names + [last]);
    JoinAppend(names, last, " & ");
  }

  // ---------------------------------------------------------------------
  // Slot start

  function Pow10(n: nat): nat
  {
    if n == 0 then 1 else 10 * Pow10(n - 1)
  }

  predicate IsDigit(c: char)
  {
    '0' <= c <= '9'
  }

  /** `n` written in exactly `width` decimal digits, zero-padded on the left. */
  function Pad(n: nat, width: nat): (s: string)
    requires n < Pow10(width)
    ensures |s| == width
    ensures forall k :: 0 <= k < width ==> IsDigit(s[k])
    decreases width
  {
    if width == 0 then ""
    else Pad(n / 10, width - 1) + [('0' as int + n % 10) as char]
  }

  /** The number a string of decimal digits denotes. */
  function DigitsValue(s: string): nat
    requires forall k :: 0 <= k < |s| ==> IsDigit(s[k])
    decreases |s|
  {
    if s == [] then 0
    else
      assert IsDigit(s[|s| - 1]);
      10 * DigitsValue(s[..|s| - 1]) + (s[|s| - 1] as int - '0' as int)
  }

  /** Reading the padded digits back gives the number. */
  lemma {:induction false} PadRoundTrip(n: nat, width: nat)
    requires n < Pow10(width)
    ensures DigitsValue(Pad(n, width)) == n
    decreases width
  {
    if width > 0 {
      var s := Pad(n, width);
      assert s[..|s| - 1] == Pad(n / 10, width - 1);
      PadRoundTrip(n / 10, width - 1);
    }
  }

  /** `'{:%Y-%m-%d}'.format(d)` for a date. */
  function DateString(d: Date): string
  {
    Pad(d.year, 4) + "-" + Pad(d.month, 2) + "-" + Pad(d.day, 2)
  }

  /** `'{:%H:%M:%S}'.format(t)` for a time. */
  function TimeString(t: Time): string
  {
    Pad(t.hour, 2) + ":" + Pad(t.minute, 2) + ":" + Pad(t.second, 2)
  }

  /** The start string: the date, a literal `T`, the time. */
  function StartString(d: Date, t: Time): (s: string)
    ensures |s| == 19
    ensures s[4] == '-' && s[7] == '-' && s[10] == 'T' && s[13] == ':' && s[16] == ':'
    ensures forall k :: 0 <= k < 19 && k !in {4, 7, 10, 13, 16} ==> IsDigit(s[k])
  {
    DateString(d) + "T" + TimeString(t)
  }

  /** The six numbers at the fixed digit positions of a start string. */
  function StartComponents(s: string): (int, int, int, int, int, int)
    requires |s| == 19
    requires forall k :: 0 <= k < 19 && k !in {4, 7, 10, 13, 16} ==> IsDigit(s[k])
  {
    (DigitsValue(s[0..4]), DigitsValue(s[5..7]), DigitsValue(s[8..10]),
     DigitsValue(s[11..13]), DigitsValue(s[14..16]), DigitsValue(s[17..19]))
  }

  /** Every component can be read back from its zero-padded position. */
  lemma StartStringRoundTrip(d: Date, t: Time)
    ensures StartComponents(StartString(d, t)) ==
      (d.year as int, d.month as int, d.day as int, t.hour as int, t.minute as int, t.second as int)
  {
    var s := StartString(d, t);
    assert s[0..4] == Pad(d.year, 4);
    assert s[5..7] == Pad(d.month, 2);
    assert s[8..10] == Pad(d.day, 2);
    assert s[11..13] == Pad(t.hour, 2);
    assert s[14..16] == Pad(t.minute, 2);
    assert s[17..19] == Pad(t.second, 2);
    PadRoundTrip(d.year, 4);
    PadRoundTrip(d.month, 2);
    PadRoundTrip(d.day, 2);
    PadRoundTrip(t.hour, 2);
    PadRoundTrip(t.minute, 2);
    PadRoundTrip(t.second, 2);
  }

  /** Distinct starts render as distinct strings. */
  lemma StartStringInjective(d1: Date, t1: Time, d2: Date, t2: Time)
    requires StartString(d1, t1) == StartString(d2, t2)
    ensures d1 == d2 && t1 == t2
  {
    StartStringRoundTrip(d1, t1);
    StartStringRoundTrip(d2, t2);
  }

  /**
   * `format(v, '%Y-%m-%d')`: a date renders its own fields; a time renders
   * with the year 1900 and month and day 1 that `time.strftime` substitutes;
   * numbers, booleans and strings reject the specifier (ValueError); every
   * other value has no such format (TypeError).
   */
  function FormatDate(v: Value): Result<string>
  {
    match v
    case DateVal(d) => Ok(DateString(d))
    case TimeVal(_) => Ok("1900-01-01")
    case Int(_) => Err(ValueError)
    case Bool(_) => Err(ValueError)
    case Str(_) => Err(ValueError)
    case _ => Err(TypeError)
  }

  /** `format(v, '%H:%M:%S')`: a date renders midnight, as `date.strftime` does. */
  function FormatTime(v: Value): Result<string>
  {
    match v
    case TimeVal(t) => Ok(TimeString(t))
    case DateVal(_) => Ok("00:00:00")
    case Int(_) => Err(ValueError)
    case Bool(_) => Err(ValueError)
    case Str(_) => Err(ValueError)
    case _ => Err(TypeError)
  }

  /**
   * `'{:%Y-%m-%d}T{:%H:%M:%S}'.format(slot.day.date, slot.start)`: both
   * arguments are read first (day, then date, then start), then formatted
   * left to right.
   */
  function SlotStart(slot: Value): Result<Value>
  {
    match GetAttr(slot, "day")
    case Err(e) => Err(e)
    case Ok(day) =>
      match GetAttr(day, "date")
      case Err(e) => Err(e)
      case Ok(date) =>
        match GetAttr(slot, "start")
        case Err(e) => Err(e)
        case Ok(start) =>
          match FormatDate(date)
          case Err(e) => Err(e)
          case Ok(ds) =>
            match FormatTime(start)
            case Err(e) => Err(e)
            case Ok(ts) => Ok(Str(ds + "T" + ts))
  }

  /** A slot whose day carries a date and whose start is a time renders as their start string. */
  lemma SlotStartOfDateAndTime(slot: Value, d: Date, t: Time)
    requires GetAttr(slot, "day").Ok? && GetAttr(GetAttr(slot, "day").value, "date") == Ok(DateVal(d))
    requires GetAttr(slot, "start") == Ok(TimeVal(t))
    ensures SlotStart(slot) == Ok(Str(StartString(d, t)))
  {
  }

  /** A slot of None fails on its `day`: the post-processor does not guard against None. */
  lemma SlotStartOfNone()
    ensures SlotStart(Null) == Err(AttributeError("day"))
  {
  }
}
