# PyGotham API field layer and about pages, in Dafny

This project models two parts of the PyGotham conference application.

The first part is the serialization layer of its REST API (`pygotham/api/fields.py`):

- `MockField`, which outputs a fixed value;
- `AttrField`, which reads a dotted attribute path off an object. It stops with None at an intermediate None and passes the final value through an optional post-processor;
- the three post-processors the talk fieldset attaches: the recording-priority table, the `" & "` join of room names and the `YYYY-MM-DDTHH:MM:SS` slot start;
- the event, user and talk fieldsets, with the keys and descriptors each declares.

The second part is the about page record (`pygotham/about/models.py`):

- slug derivation from the title;
- the reStructuredText document headed by the title;
- the printable form;
- the unique (navbar section, slug, event) constraint of the table.

Python values reached by attribute access are a `Value` datatype (`values.dfy`). An object is a map from attribute names to values. A Python exception is the `Err` arm of a `Result`, so every error path of the source is part of the model, not a precondition.

Modules:

- `Strings`: `str.split` on one character and `str.join`, with their round trips.
- `Values`: the value graph, `getattr` (`GetAttr`) and `Chain`, an unguarded chain of reads used as the reference for path resolution.
- `PostProcessors`: the three lambdas of `talk_fields`.
- `Fields`: field descriptors and `AttrField.output`. It is written both as the loop the source runs (`AttrFieldOutput`) and as the function `Output` that specifies that loop. Lemmas relate `Output` to `Chain`.
- `Fieldsets`: `event_fields`, `user_fields`, `talk_fields`, and what each custom talk and user field outputs for every object.
- `About`: the `AboutPage` class, the document layout and the `AboutPageTable` class that stores pages under the unique constraint.

Behaviour of the code that is easy to misread:

- **Post-processor on None.** The post-processor is called on a final value of None. Only an intermediate None short-circuits. So `priority` is 5 for an unknown release (`TalkPriority`). A presentation whose slot is None makes `start` raise AttributeError on `day` (`TalkStart`). Slot rooms of None make `room` raise TypeError (`TalkRooms`).
- **Missing attributes raise.** A missing attribute anywhere on the path raises AttributeError. It does not degrade to None (`OutputFails`).
- **Priority lookup.** The priority table is a Python dictionary lookup. Since `True == 1` and `False == 0`, the integers 1 and 0 are found too. Every other hashable value raises KeyError, and an unhashable one raises TypeError (`PostProcessors.Priority`).
- **Empty slug.** `_create_slug` replaces a falsy slug, None or empty, by `slugify(title)`. Even an empty result replaces it (`AboutPage.CreateSlug`).

## Model

| member | source | states |
|---|---|---|
| Strings.IndexOf | pygotham/api/fields.py:34 | the position found is the first occurrence of the separator, or the length when there is none |
| Strings.Split | pygotham/api/fields.py:34 | `str.split` always yields at least one piece, so `parts.pop(0)` never fails |
| Strings.SplitWithout | pygotham/api/fields.py:34 | a path without a dot splits into itself alone |
| Strings.SplitFirst | pygotham/api/fields.py:34 | splitting peels off the text before the first separator as the first piece |
| Strings.JoinSplit | pygotham/api/fields.py:34 | joining the pieces of a split with the same separator gives the original string back |
| Strings.SplitJoin | pygotham/api/fields.py:34 | splitting a join of separator-free pieces gives the pieces back |
| Strings.JoinAppend | pygotham/api/fields.py:77 | joining one more piece appends the separator and that piece |
| Strings.JoinLength | pygotham/api/fields.py:77 | a join is as long as its pieces plus one separator between each two |
| Values.GetAttr | pygotham/api/fields.py:36 | `getattr` succeeds exactly on an object that has the attribute and returns it; otherwise AttributeError naming the attribute |
| Values.ChainAppend | pygotham/api/fields.py:37-40 | reading one more name off a chain of reads is one more `getattr` on its result, and an earlier error propagates |
| Fields.AttrFieldOutput | pygotham/api/fields.py:32-45 | the split/pop/getattr/loop of `AttrField.output` returns exactly what `Output` specifies: the read error, None after an intermediate None, else the final value through the post-processor if one is set |
| Fields.MockOutput | pygotham/api/fields.py:17-19 | a mock field outputs its stored value whatever the key and the object |
| Fields.SingleSegmentOutput | pygotham/api/fields.py:34-45 | a dotless path is a single `getattr`; its value, None included, goes through the post-processor when there is one, and a missing attribute raises either way |
| Fields.WalkRestShortCircuits | pygotham/api/fields.py:37-39 | if the value after k of the remaining reads is None and reads remain, the walk stops with None |
| Fields.WalkRestReaches | pygotham/api/fields.py:37-40 | when the whole chain of reads succeeds, the walk reaches the chain's final value, even a final None |
| Fields.WalkRestFails | pygotham/api/fields.py:37-40 | when the chain fails and no intermediate value is None, the walk raises the chain's error |
| Fields.ChainPrefix | pygotham/api/fields.py:35-40 | reading a prefix of the path is the first read followed by the rest of the prefix |
| Fields.OutputShortCircuits | pygotham/api/fields.py:37-39 | None read after k segments with segments left gives output None, whatever the post-processor |
| Fields.OutputReachesFinal | pygotham/api/fields.py:36-45 | when every read succeeds, the output is the final value, through the post-processor when one is set |
| Fields.OutputFails | pygotham/api/fields.py:36-40 | when no intermediate value is None and a read fails, the output is that read's AttributeError |
| PostProcessors.Priority | pygotham/api/fields.py:91-94 | the lookup succeeds exactly for True, False, None, 1 and 0; True and 1 give 9, False and 0 give 0, None gives 5; a list raises TypeError and any other value KeyError |
| PostProcessors.PriorityEntries | pygotham/api/fields.py:93 | released gives 9, not released 0, unknown 5, and the integers 1 and 0 equal to True and False give 9 and 0 |
| PostProcessors.RoomNames | pygotham/api/fields.py:77 | collecting the room names succeeds exactly when every room has a `name`, one name per room in order; otherwise AttributeError on `name` |
| PostProcessors.Strs | pygotham/api/fields.py:77 | `str.join` accepts exactly sequences of strings and keeps them in order; otherwise TypeError |
| PostProcessors.JoinRoomNamesOfNamedRooms | pygotham/api/fields.py:75-82 | rooms named by strings join to those names separated by " & " |
| PostProcessors.JoinRoomNamesFails | pygotham/api/fields.py:77 | the join of a list of rooms fails exactly when some room has no name or a name that is not a string, with AttributeError or TypeError |
| PostProcessors.JoinRoomNamesExamples | pygotham/api/fields.py:77 | no rooms join to the empty string; two named rooms join to `a & b` |
| PostProcessors.JoinRoomNamesAppend | pygotham/api/fields.py:77 | one more named room appends " & " and its name |
| PostProcessors.Pad | pygotham/api/fields.py:86 | zero padding yields exactly the field width in decimal digits |
| PostProcessors.PadRoundTrip | pygotham/api/fields.py:86 | reading the padded digits back gives the number |
| PostProcessors.StartString | pygotham/api/fields.py:86 | a start renders as 19 characters: digits with `-`, `-`, `T`, `:`, `:` at positions 4, 7, 10, 13, 16 |
| PostProcessors.StartStringRoundTrip | pygotham/api/fields.py:86 | year, month, day, hour, minute and second read back from their positions in the start string |
| PostProcessors.StartStringInjective | pygotham/api/fields.py:86 | distinct (date, time) pairs render as distinct start strings |
| PostProcessors.SlotStartOfDateAndTime | pygotham/api/fields.py:84-87 | a slot whose day has a date and whose start is a time formats as their start string |
| PostProcessors.SlotStartOfNone | pygotham/api/fields.py:86 | the start lambda applied to None raises AttributeError on `day` |
| Fieldsets.FieldsetKeys | pygotham/api/fields.py:47-102 | the key sets of the event, user and talk fieldsets, and the user fieldset nested unchanged under `user` |
| Fieldsets.UserPrivacy | pygotham/api/fields.py:59-61 | every user's email outputs "<redacted>" and their picture URL outputs None |
| Fieldsets.UserTwitterId | pygotham/api/fields.py:62 | `twitter_id` is the user's `twitter_handle`, AttributeError when missing |
| Fieldsets.TalkPlaceholders | pygotham/api/fields.py:72 | language "English", license "Creative Commons" and tags `[]` for every talk |
| Fieldsets.TalkFieldEntries | pygotham/api/fields.py:65-100 | the path and post-processor each attribute field of a talk is declared with |
| Fieldsets.RenamedAttribute | pygotham/api/fields.py:69-100 | a talk field declared on a dotless path without post-processor outputs that attribute |
| Fieldsets.TalkConfKey | pygotham/api/fields.py:69 | `conf_key` is the talk's `id` |
| Fieldsets.TalkSummary | pygotham/api/fields.py:74 | `summary` is the talk's `description` |
| Fieldsets.TalkTitle | pygotham/api/fields.py:100 | `title` is the talk's `name` |
| Fieldsets.TalkReleased | pygotham/api/fields.py:96 | `released` is the talk's `recording_release`, None included |
| Fieldsets.DurationPath | pygotham/api/fields.py:71 | the duration path has the segments `duration`, `duration` |
| Fieldsets.RoomsPath | pygotham/api/fields.py:76 | the rooms path has the segments `presentation`, `slot`, `rooms` |
| Fieldsets.SlotPath | pygotham/api/fields.py:85 | the slot path has the segments `presentation`, `slot` |
| Fieldsets.DurationOutput | pygotham/api/fields.py:71 | on the duration path, a None first read gives None and a full read gives the final value |
| Fieldsets.TalkDuration | pygotham/api/fields.py:71 | a talk without a duration outputs None; otherwise the duration's `duration` |
| Fieldsets.RoomsOutput | pygotham/api/fields.py:75-78 | on the rooms path with the join, None presentation or slot gives None and full reads give the join of the rooms |
| Fieldsets.TalkRooms | pygotham/api/fields.py:75-82 | `room` and `room_alias` agree: None without presentation or slot, the join of the room names otherwise, TypeError for rooms of None |
| Fieldsets.StartOutput | pygotham/api/fields.py:84-87 | on the slot path with the start format, no presentation gives None and a read slot goes through the format |
| Fieldsets.SlotReads | pygotham/api/fields.py:86 | a talk whose slot's day's date and slot's start are read renders their start string |
| Fieldsets.TalkStart | pygotham/api/fields.py:84-87 | `start` is None without a presentation, AttributeError on `day` for a slot of None, and the start string of the slot's date and time |
| Fieldsets.PriorityOutput | pygotham/api/fields.py:91-94 | a dotless path with the priority table outputs the table entry of the value read |
| Fieldsets.TalkPriority | pygotham/api/fields.py:91-94 | `priority` is 9 for a released recording, 0 for an unreleased one, 5 for an unknown (None) one |
| About.DerivedSlugCases | pygotham/about/models.py:45-49 | a truthy slug is never overwritten; a slug that changes was falsy and becomes `slugify(title)`; afterwards the slug is set |
| About.DerivedSlugIdempotent | pygotham/about/models.py:45-49 | deriving the slug a second time for the same title changes nothing |
| About.Divider | pygotham/about/models.py:62 | the divider is `#` repeated as many times as the title has characters |
| About.DocumentLayout | pygotham/about/models.py:60-62 | the document is divider, title, divider, content separated by newlines |
| About.DocumentShape | pygotham/about/models.py:60-62 | the dividers are as long as the title and sit on the lines before and after it; the content follows the third newline |
| About.DocumentNewlines | pygotham/about/models.py:60-62 | the document has exactly three newlines more than the title and content together |
| About.SplitThreeLines | pygotham/about/models.py:60-61 | three newline-free lines and a rest split into those lines followed by the rest's lines |
| About.DocumentLines | pygotham/about/models.py:60-62 | splitting the document of a one-line title into lines gives divider, title, divider, then the content's lines |
| About.AboutPage.constructor | pygotham/about/models.py:18-32 | a page holds the column values it is created with |
| About.AboutPage.ToString | pygotham/about/models.py:41-43 | a page prints as its title |
| About.AboutPage.RstDocument | pygotham/about/models.py:51-62 | the page's document is its divider, title, divider and content on four lines |
| About.AboutPage.CreateSlug | pygotham/about/models.py:45-49 | only the slug changes; it is kept when truthy and becomes `slugify(title)` when falsy |
| About.AppendKeepsUnique | pygotham/about/models.py:34-39 | appending a page whose (navbar section, slug, event) is new keeps the triples unique |
| About.AboutPageTable.constructor | pygotham/about/models.py:34-39 | an empty table satisfies the unique constraint |
| About.AboutPageTable.Insert | pygotham/about/models.py:22-39 | storing keeps the triples unique; a page without a slug violates NOT NULL, a page with a stored triple violates uniqueness, and any other page is appended with nothing else changed |

## Left out

- Flask-RESTful's own fields (`Integer`, `String`, `DateTime('iso8601')`, `Nested`) and `marshal` are recorded as descriptors only. Their output, the ISO-8601 rendering and the key order of the rendered record are not modelled, because they are framework code outside this repository.
- `PostProcessors.Apply`: `AttrField` accepts any callable as its post-processor; the model admits only the three lambdas `talk_fields` declares (the priority table, the room join and the slot start), since no other post-processor occurs in the fieldsets.
- `slugify` is a parameter of `CreateSlug`. The `python-slugify` library is not part of this model.
- The `@observes('title')` hook is not modelled. `CreateSlug` is the body the hook runs, and a caller invokes it explicitly.
- SQLAlchemy is not modelled: column types and lengths (`String(255)`), the `id` primary key, the foreign key to events, the `event` relationship and its dynamic backref, `EventQuery`, and NOT NULL on columns other than `slug`. `AboutPageTable.Insert` stands in for the single insert the unique constraint guards.
- `PostProcessors.DateString`: `%Y` is rendered as four zero-padded digits. The C library's `strftime` on glibc does not pad years below 1000.
- Date validity is by component ranges only (day 1..31, any month), not calendar validity. Microseconds and time zones of `datetime.time` are not modelled.
- Exception classes are reduced to AttributeError, KeyError, TypeError and ValueError. The attributes of built-in values (a string's methods, for example) are not in the value graph, so reading any attribute off a non-object raises AttributeError.
- Floats, and float keys equal to 1 or 0 in the priority table lookup, are not modelled.
- `str.format` substitution in `rst_document` is modelled as direct string building. A title or content containing braces is substituted as text, which is what `format` does with substituted values.
- `manage.py`, the views, templates and the rest of the application are not part of this model.
