/**
 * The three fieldsets the API renders: events, users and talks, with the
 * properties their custom fields promise for every object.
 */
module Fieldsets {
  import opened Values
  import opened Strings
  import opened PostProcessors
  import opened Fields

  const EventFields: map<string, Field> := map[
    "id" := Integer,
    "begins" := DateTime,
    "ends" := DateTime,
    "name" := String,
    "registration_url" := String,
    "slug" := String
  ]

  const UserFields: map<string, Field> := map[
    "id" := Integer,
    "bio" := String,
    "email" := Mock(Str("<redacted>")),
    "name" := String,
    "picture_url" := Mock(Null),
    "twitter_id" := Attr("twitter_handle", None)
  ]

  const TalkFields: map<string, Field> := map[
    "id" := Integer,
    "conf_key" := Attr("id", None),
    "description" := String,
    "duration" := Attr("duration.duration", None),
    "language" := Mock(Str("English")),
    "summary" := Attr("description", None),
    "room" := Attr("presentation.slot.rooms", Some(JoinRooms)),
    "room_alias" := Attr("presentation.slot.rooms", Some(JoinRooms)),
    "start" := Attr("presentation.slot", Some(FormatSlotStart)),
    "priority" := Attr("recording_release", Some(PriorityTable)),
    "released" := Attr("recording_release", None),
    "license" := Mock(Str("Creative Commons")),
    "tags" := Mock(List([])),
    "title" := Attr("name", None),
    "user" := Nested(UserFields)
  ]

  /** The output keys each fieldset fixes, and the user fieldset nested unchanged in a talk. */
  lemma FieldsetKeys()
    ensures EventFields.Keys == {"id", "begins", "ends", "name", "registration_url", "slug"}
    ensures UserFields.Keys == {"id", "bio", "email", "name", "picture_url", "twitter_id"}
    ensures TalkFields.Keys == {
      "id", "conf_key", "description", "duration", "language", "summary", "room",
      "room_alias", "start", "priority", "released", "license", "tags", "title", "user"}
    ensures TalkFields["user"] == Nested(UserFields)
  {
  }

  /** A user's email is always redacted and their picture never exposed. */
  lemma UserPrivacy(user: Value, key: string)
    ensures Output(UserFields["email"], key, user) == Ok(Str("<redacted>"))
    ensures Output(UserFields["picture_url"], key, user) == Ok(Null)
  {
  }

  /** `twitter_id` is the user's `twitter_handle`. */
  lemma UserTwitterId(user: Value, key: string)
    ensures Output(UserFields["twitter_id"], key, user) == GetAttr(user, "twitter_handle")
  {
    SingleSegmentOutput("twitter_handle", None, key, user);
  }

  /** The placeholder talk fields do not depend on the talk. */
  lemma TalkPlaceholders(talk: Value, key: string)
    ensures Output(TalkFields["language"], key, talk) == Ok(Str("English"))
    ensures Output(TalkFields["license"], key, talk) == Ok(Str("Creative Commons"))
    ensures Output(TalkFields["tags"], key, talk) == Ok(List([]))
  {
  }

  /** Each custom talk field, as declared. */
  lemma TalkFieldEntries()
    ensures TalkFields["conf_key"] == Attr("id", None)
    ensures TalkFields["duration"] == Attr("duration.duration", None)
    ensures TalkFields["summary"] == Attr("description", None)
    ensures TalkFields["room"] == Attr("presentation.slot.rooms", Some(JoinRooms))
    ensures TalkFields["room_alias"] == Attr("presentation.slot.rooms", Some(JoinRooms))
    ensures TalkFields["start"] == Attr("presentation.slot", Some(FormatSlotStart))
    ensures TalkFields["priority"] == Attr("recording_release", Some(PriorityTable))
    ensures TalkFields["released"] == Attr("recording_release", None)
    ensures TalkFields["title"] == Attr("name", None)
  {
  }

  /** A talk field declared as a bare attribute outputs that attribute. */
  lemma RenamedAttribute(out: string, attr: string, talk: Value, key: string)
    requires out in TalkFields && TalkFields[out] == Attr(attr, None)
    requires '.' !in attr
    ensures Output(TalkFields[out], key, talk) == GetAttr(talk, attr)
  {
    SingleSegmentOutput(attr, None, key, talk);
  }

  /** `conf_key` is the talk's `id`. */
  lemma TalkConfKey(talk: Value, key: string)
    ensures Output(TalkFields["conf_key"], key, talk) == GetAttr(talk, "id")
  {
    TalkFieldEntries();
    RenamedAttribute("conf_key", "id", talk, key);
  }

  /** `summary` is the talk's `description`. */
  lemma TalkSummary(talk: Value, key: string)
    ensures Output(TalkFields["summary"], key, talk) == GetAttr(talk, "description")
  {
    TalkFieldEntries();
    RenamedAttribute("summary", "description", talk, key);
  }

  /** `title` is the talk's `name`. */
  lemma TalkTitle(talk: Value, key: string)
    ensures Output(TalkFields["title"], key, talk) == GetAttr(talk, "name")
  {
    TalkFieldEntries();
    RenamedAttribute("title", "name", talk, key);
  }

  /** `released` is the talk's `recording_release`, None included. */
  lemma TalkReleased(talk: Value, key: string)
    ensures Output(TalkFields["released"], key, talk) == GetAttr(talk, "recording_release")
  {
    TalkFieldEntries();
    RenamedAttribute("released", "recording_release", talk, key);
  }

  lemma DurationPath()
    ensures Split("duration.duration", '.') == ["duration", "duration"]
  {
    assert Join(["duration", "duration"], ".") == "duration.duration";
    SplitJoin(["duration", "duration"], '.');
  }

  lemma RoomsPath()
    ensures Split("presentation.slot.rooms", '.') == ["presentation", "slot", "rooms"]
  {
    assert Join(["slot", "rooms"], ".") == "slot.rooms";
    assert Join(["presentation", "slot", "rooms"], ".") == "presentation.slot.rooms";
    SplitJoin(["presentation", "slot", "rooms"], '.');
  }

  lemma SlotPath()
    ensures Split("presentation.slot", '.') == ["presentation", "slot"]
  {
    assert Join(["presentation", "slot"], ".") == "presentation.slot";
    SplitJoin(["presentation", "slot"], '.');
  }

  lemma DurationOutput(attr: string, talk: Value, key: string)
    requires Split(attr, '.') == ["duration", "duration"]
    ensures GetAttr(talk, "duration") == Ok(Null) ==> Output(Attr(attr, None), key, talk) == Ok(Null)
    ensures Chain(talk, ["duration", "duration"]).Ok? ==>
      Output(Attr(attr, None), key, talk) == Chain(talk, ["duration", "duration"])
  {
    if GetAttr(talk, "duration") == Ok(Null) {
      assert ["duration", "duration"][..1] == ["duration"];
      OutputShortCircuits(attr, None, key, talk, 1);
    }
    if Chain(talk, ["duration", "duration"]).Ok? {
      OutputReachesFinal(attr, None, key, talk);
    }
  }

  /** A talk without a duration has no duration; otherwise it is the duration's own `duration`. */
  lemma TalkDuration(talk: Value, key: string)
    ensures GetAttr(talk, "duration") == Ok(Null) ==>
      Output(TalkFields["duration"], key, talk) == Ok(Null)
    ensures Chain(talk, ["duration", "duration"]).Ok? ==>
      Output(TalkFields["duration"], key, talk) == Chain(talk, ["duration", "duration"])
  {
    TalkFieldEntries();
    DurationPath();
    DurationOutput("duration.duration", talk, key);
  }

  lemma RoomsOutput(attr: string, talk: Value, key: string)
    requires Split(attr, '.') == ["presentation", "slot", "rooms"]
    ensures GetAttr(talk, "presentation") == Ok(Null) ==>
      Output(Attr(attr, Some(JoinRooms)), key, talk) == Ok(Null)
    ensures Chain(talk, ["presentation", "slot"]) == Ok(Null) ==>
      Output(Attr(attr, Some(JoinRooms)), key, talk) == Ok(Null)
    ensures Chain(talk, ["presentation", "slot", "rooms"]).Ok? ==>
      Output(Attr(attr, Some(JoinRooms)), key, talk) ==
        JoinRoomNames(Chain(talk, ["presentation", "slot", "rooms"]).value)
  {
    var parts := ["presentation", "slot", "rooms"];
    if GetAttr(talk, "presentation") == Ok(Null) {
      assert parts[..1] == ["presentation"];
      OutputShortCircuits(attr, Some(JoinRooms), key, talk, 1);
    }
    if Chain(talk, ["presentation", "slot"]) == Ok(Null) {
      assert parts[..2] == ["presentation", "slot"];
      OutputShortCircuits(attr, Some(JoinRooms), key, talk, 2);
    }
    if Chain(talk, parts).Ok? {
      OutputReachesFinal(attr, Some(JoinRooms), key, talk);
    }
  }

  /**
   * `room` and `room_alias` agree; without a presentation or a slot both are
   * None, and otherwise both are the " & " join of the slot's room names. A
   * slot whose rooms are None is a final value: the join is called on it and
   * raises.
   */
  lemma TalkRooms(talk: Value, key: string)
    ensures Output(TalkFields["room"], key, talk) == Output(TalkFields["room_alias"], key, talk)
    ensures GetAttr(talk, "presentation") == Ok(Null) ==>
      Output(TalkFields["room"], key, talk) == Ok(Null)
    ensures Chain(talk, ["presentation", "slot"]) == Ok(Null) ==>
      Output(TalkFields["room"], key, talk) == Ok(Null)
    ensures Chain(talk, ["presentation", "slot", "rooms"]).Ok? ==>
      Output(TalkFields["room"], key, talk) ==
        JoinRoomNames(Chain(talk, ["presentation", "slot", "rooms"]).value)
    ensures Chain(talk, ["presentation", "slot", "rooms"]) == Ok(Null) ==>
      Output(TalkFields["room"], key, talk) == Err(TypeError)
  {
    TalkFieldEntries();
    RoomsPath();
    RoomsOutput("presentation.slot.rooms", talk, key);
  }

  lemma StartOutput(attr: string, talk: Value, key: string)
    requires Split(attr, '.') == ["presentation", "slot"]
    ensures GetAttr(talk, "presentation") == Ok(Null) ==>
      Output(Attr(attr, Some(FormatSlotStart)), key, talk) == Ok(Null)
    ensures Chain(talk, ["presentation", "slot"]).Ok? ==>
      Output(Attr(attr, Some(FormatSlotStart)), key, talk) ==
        SlotStart(Chain(talk, ["presentation", "slot"]).value)
  {
    var parts := ["presentation", "slot"];
    if GetAttr(talk, "presentation") == Ok(Null) {
      assert parts[..1] == ["presentation"];
      OutputShortCircuits(attr, Some(FormatSlotStart), key, talk, 1);
    }
    if Chain(talk, parts).Ok? {
      OutputReachesFinal(attr, Some(FormatSlotStart), key, talk);
    }
  }

  /** The slot's day's date and the slot's start, read through the slot. */
  lemma SlotReads(talk: Value, d: Date, t: Time)
    requires Chain(talk, ["presentation", "slot", "day", "date"]) == Ok(DateVal(d))
    requires Chain(talk, ["presentation", "slot", "start"]) == Ok(TimeVal(t))
    ensures Chain(talk, ["presentation", "slot"]).Ok?
    ensures SlotStart(Chain(talk, ["presentation", "slot"]).value) == Ok(Str(StartString(d, t)))
  {
    var parts := ["presentation", "slot"];
    ChainAppend(talk, parts, "day");
    ChainAppend(talk, parts + ["day"], "date");
    ChainAppend(talk, parts, "start");
    assert parts + ["day"] + ["date"] == ["presentation", "slot", "day", "date"];
    assert parts + ["start"] == ["presentation", "slot", "start"];
    SlotStartOfDateAndTime(Chain(talk, parts).value, d, t);
  }

  /**
   * Without a presentation `start` is None; with a slot whose day has a date
   * and whose start is a time it is their `YYYY-MM-DDTHH:MM:SS` string. A
   * presentation whose slot is None reaches the post-processor, which fails
   * on `slot.day`.
   */
  lemma TalkStart(talk: Value, key: string)
    ensures GetAttr(talk, "presentation") == Ok(Null) ==>
      Output(TalkFields["start"], key, talk) == Ok(Null)
    ensures Chain(talk, ["presentation", "slot"]).Ok? ==>
      Output(TalkFields["start"], key, talk) == SlotStart(Chain(talk, ["presentation", "slot"]).value)
    ensures Chain(talk, ["presentation", "slot"]) == Ok(Null) ==>
      Output(TalkFields["start"], key, talk) == Err(AttributeError("day"))
    ensures forall d: Date, t: Time ::
      Chain(talk, ["presentation", "slot", "day", "date"]) == Ok(DateVal(d)) &&
      Chain(talk, ["presentation", "slot", "start"]) == Ok(TimeVal(t)) ==>
      Output(TalkFields["start"], key, talk) == Ok(Str(StartString(d, t)))
  {
    TalkFieldEntries();
    SlotPath();
    StartOutput("presentation.slot", talk, key);
    SlotStartOfNone();
    forall d: Date, t: Time |
      Chain(talk, ["presentation", "slot", "day", "date"]) == Ok(DateVal(d)) &&
      Chain(talk, ["presentation", "slot", "start"]) == Ok(TimeVal(t))
      ensures Output(TalkFields["start"], key, talk) == Ok(Str(StartString(d, t)))
    {
      SlotReads(talk, d, t);
    }
  }

  lemma PriorityOutput(attr: string, talk: Value, key: string)
    requires '.' !in attr
    ensures GetAttr(talk, attr).Ok? ==>
      Output(Attr(attr, Some(PriorityTable)), key, talk) == Priority(GetAttr(talk, attr).value)
    ensures GetAttr(talk, attr) == Ok(Bool(true)) ==>
      Output(Attr(attr, Some(PriorityTable)), key, talk) == Ok(Int(9))
    ensures GetAttr(talk, attr) == Ok(Bool(false)) ==>
      Output(Attr(attr, Some(PriorityTable)), key, talk) == Ok(Int(0))
    ensures GetAttr(talk, attr) == Ok(Null) ==>
      Output(Attr(attr, Some(PriorityTable)), key, talk) == Ok(Int(5))
  {
    SingleSegmentOutput(attr, Some(PriorityTable), key, talk);
  }

  /**
   * `priority` is the table entry of the talk's recording release; an
   * unknown release (None) is a final value, so it is looked up and gives 5.
   */
  lemma TalkPriority(talk: Value, key: string)
    ensures GetAttr(talk, "recording_release").Ok? ==>
      Output(TalkFields["priority"], key, talk) == Priority(GetAttr(talk, "recording_release").value)
    ensures GetAttr(talk, "recording_release") == Ok(Bool(true)) ==>
      Output(TalkFields["priority"], key, talk) == Ok(Int(9))
    ensures GetAttr(talk, "recording_release") == Ok(Bool(false)) ==>
      Output(TalkFields["priority"], key, talk) == Ok(Int(0))
    ensures GetAttr(talk, "recording_release") == Ok(Null) ==>
      Output(TalkFields["priority"], key, talk) == Ok(Int(5))
  {
    TalkFieldEntries();
    PriorityOutput("recording_release", talk, key);
  }
}
