/** `TicketSerializer` of backend/tickets/serializers.py together with the
    field checks that Django REST framework derives from the model: a
    required, non-blank, stripped `title` capped at 200 characters and then
    passed to `validate_title`; a required, non-blank, stripped
    `description`; three optional choice fields; `id` and `created_at`
    read-only. Every text field also refuses null characters. Stripping is
    Python's `str.strip()`. */
module Serializers {
  import opened Common
  import opened Text
  import opened Models

  const TITLE_TOO_LONG := "Title must be 200 characters or fewer."
  /** The framework's own messages for the derived field checks. */
  const FIELD_REQUIRED := "This field is required."
  const FIELD_BLANK := "This field may not be blank."
  const FIELD_TOO_LONG := "Ensure this field has no more than 200 characters."
  const NULL_CHARACTERS := "Null characters are not allowed."

  /** `validate_title`: a title longer than 200 characters is refused with a
      fixed message; any other is returned as it is. */
  function ValidateTitle(value: string): (r: Result<string, string>)
    ensures r.Success? <==> |value| <= MAX_TITLE_LENGTH
    ensures r.Success? ==> r.value == value
    ensures r.Failure? ==> r.error == TITLE_TOO_LONG
  {
    if |value| > MAX_TITLE_LENGTH then Failure(TITLE_TOO_LONG) else Success(value)
  }

  /** Request data as the client sent it: each key absent or a string.
      `id` and `createdAt` stand for client-supplied values of the
      read-only fields. */
  datatype TicketData = TicketData(
    id: Option<string>,
    title: Option<string>,
    description: Option<string>,
    category: Option<string>,
    priority: Option<string>,
    status: Option<string>,
    createdAt: Option<string>)

  /** What one field check makes of one key: the framework reports a list
      of messages per field. */
  datatype Checked<T> = Omitted | Accepted(value: T) | Invalid(messages: seq<string>)

  /** `validated_data`: the writable fields that were supplied and passed. */
  datatype Changes = Changes(
    title: Option<string>,
    description: Option<string>,
    category: Option<Category>,
    priority: Option<Priority>,
    status: Option<Status>)

  /** The validators a text field runs on its stripped value, each adding
      its message: `max_length` when the field has one, then the
      null-character check. */
  function TextErrors(v: string, maxLength: Option<nat>): (errors: seq<string>)
    ensures errors == [] <==> (maxLength.None? || |v| <= maxLength.value) && '\0' !in v
    ensures FIELD_TOO_LONG in errors ==> maxLength.Some? && |v| > maxLength.value
    ensures maxLength.Some? && |v| > maxLength.value ==> errors[0] == FIELD_TOO_LONG
    ensures NULL_CHARACTERS in errors <==> '\0' in v
  {
    (if maxLength.Some? && |v| > maxLength.value then [FIELD_TOO_LONG] else [])
      + (if '\0' in v then [NULL_CHARACTERS] else [])
  }

  /** A required text field: absent is an error unless the update is
      partial, a blank value is an error, otherwise the value is stripped
      and its validators run. */
  function CheckText(raw: Option<string>, partial: bool, maxLength: Option<nat>): (r: Checked<string>)
    ensures r.Omitted? <==> raw.None? && partial
    ensures raw.None? && !partial ==> r == Invalid([FIELD_REQUIRED])
    ensures raw.Some? && AllSpace(Python, raw.value) ==> r == Invalid([FIELD_BLANK])
    ensures r.Accepted? <==>
      && raw.Some? && !AllSpace(Python, raw.value)
      && (maxLength.None? || |Trim(Python, raw.value)| <= maxLength.value)
      && '\0' !in Trim(Python, raw.value)
    ensures r.Accepted? ==> r.value == Trim(Python, raw.value) && r.value != []
    ensures r.Invalid? ==> r.messages != []
  {
    match raw
    case None => if partial then Omitted else Invalid([FIELD_REQUIRED])
    case Some(v) =>
      if AllSpace(Python, v) then Invalid([FIELD_BLANK])
      else
        var errors := TextErrors(Trim(Python, v), maxLength);
        if errors == [] then Accepted(Trim(Python, v)) else Invalid(errors)
  }

  /** The `title` field: the text checks with `max_length=200`, then
      `validate_title`. */
  function CheckTitle(raw: Option<string>, partial: bool): (r: Checked<string>)
    ensures r.Omitted? <==> raw.None? && partial
    ensures r.Accepted? <==>
      && raw.Some? && !AllSpace(Python, raw.value)
      && |Trim(Python, raw.value)| <= MAX_TITLE_LENGTH
      && '\0' !in Trim(Python, raw.value)
    ensures r.Accepted? ==> r.value == Trim(Python, raw.value) && r.value != []
    ensures r.Invalid? ==> r.messages != []
  {
    match CheckText(raw, partial, Some(MAX_TITLE_LENGTH))
    case Accepted(v) =>
      (match ValidateTitle(v)
       case Success(x) => Accepted(x)
       case Failure(m) => Invalid([m]))
    case other => other
  }

  /** A choice field with a model default: optional, and when present it
      must be one of the declared stored values. */
  function CheckChoice<T>(raw: Option<string>, parse: string -> Option<T>): (r: Checked<T>)
    ensures raw.None? <==> r.Omitted?
    ensures r.Accepted? ==> parse(raw.value) == Some(r.value)
    ensures r.Invalid? ==> parse(raw.value).None?
    ensures r.Invalid? ==> r.messages == ["\"" + raw.value + "\" is not a valid choice."]
  {
    match raw
    case None => Omitted
    case Some(v) =>
      match parse(v)
      case Some(c) => Accepted(c)
      case None => Invalid(["\"" + v + "\" is not a valid choice."])
  }

  function ValueOf<T>(c: Checked<T>): Option<T> {
    if c.Accepted? then Some(c.value) else None
  }

  function ErrorOf<T>(name: string, c: Checked<T>): map<string, seq<string>> {
    if c.Invalid? then map[name := c.messages] else map[]
  }

  /** The field `name` is in the error report exactly when its check
      failed, and then with that check's messages. */
  predicate ReportedAs<T>(errors: map<string, seq<string>>, name: string, c: Checked<T>) {
    (name in errors <==> c.Invalid?) && (c.Invalid? ==> errors[name] == c.messages)
  }

  /** The names of the writable fields. */
  const WRITABLE_FIELDS: set<string> := {"title", "description", "category", "priority", "status"}

  /** The error report of `is_valid()`: every failed field under its
      own name with its messages, and nothing else. */
  function Report(title: Checked<string>, description: Checked<string>, category: Checked<Category>,
                  priority: Checked<Priority>, status: Checked<Status>): (errors: map<string, seq<string>>)
    ensures errors == map[] <==>
      !title.Invalid? && !description.Invalid? && !category.Invalid? && !priority.Invalid? && !status.Invalid?
    ensures errors.Keys <= WRITABLE_FIELDS
    ensures ReportedAs(errors, "title", title) && ReportedAs(errors, "description", description)
    ensures ReportedAs(errors, "category", category) && ReportedAs(errors, "priority", priority)
    ensures ReportedAs(errors, "status", status)
  {
    var text := ErrorOf("title", title) + ErrorOf("description", description);
    var choices := ErrorOf("category", category) + ErrorOf("priority", priority) + ErrorOf("status", status);
    assert text.Keys <= {"title", "description"} && choices.Keys <= {"category", "priority", "status"};
    assert title.Invalid? ==> "title" in text;
    assert description.Invalid? ==> "description" in text;
    assert category.Invalid? ==> "category" in choices;
    assert priority.Invalid? ==> "priority" in choices;
    assert status.Invalid? ==> "status" in choices;
    text + choices
  }

  /** `is_valid()`: every writable field is checked, errors are collected
      per field name, and the read-only fields are never looked at. On
      success each field holds what its check accepted, or nothing when it
      was omitted. */
  function Validate(d: TicketData, partial: bool): (r: Result<Changes, map<string, seq<string>>>)
    ensures r.Success? <==>
      && !CheckTitle(d.title, partial).Invalid?
      && !CheckText(d.description, partial, None).Invalid?
      && !CheckChoice(d.category, ParseCategory).Invalid?
      && !CheckChoice(d.priority, ParsePriority).Invalid?
      && !CheckChoice(d.status, ParseStatus).Invalid?
    ensures r.Success? ==>
      && r.value.title == ValueOf(CheckTitle(d.title, partial))
      && r.value.description == ValueOf(CheckText(d.description, partial, None))
      && r.value.category == ValueOf(CheckChoice(d.category, ParseCategory))
      && r.value.priority == ValueOf(CheckChoice(d.priority, ParsePriority))
      && r.value.status == ValueOf(CheckChoice(d.status, ParseStatus))
    ensures r.Failure? ==>
      && r.error != map[] && r.error.Keys <= WRITABLE_FIELDS
      && ReportedAs(r.error, "title", CheckTitle(d.title, partial))
      && ReportedAs(r.error, "description", CheckText(d.description, partial, None))
      && ReportedAs(r.error, "category", CheckChoice(d.category, ParseCategory))
      && ReportedAs(r.error, "priority", CheckChoice(d.priority, ParsePriority))
      && ReportedAs(r.error, "status", CheckChoice(d.status, ParseStatus))
  {
    var title := CheckTitle(d.title, partial);
    var description := CheckText(d.description, partial, None);
    var category := CheckChoice(d.category, ParseCategory);
    var priority := CheckChoice(d.priority, ParsePriority);
    var status := CheckChoice(d.status, ParseStatus);
    var errors := Report(title, description, category, priority, status);
    if errors == map[] then
      Success(Changes(ValueOf(title), ValueOf(description), ValueOf(category), ValueOf(priority), ValueOf(status)))
    else
      Failure(errors)
  }

  /** `validate_title` can never fire inside the field pipeline: the
      derived `max_length=200` check refuses an over-long title first, with
      the framework's message instead. */
  lemma ValidateTitleUnreachable(raw: Option<string>, partial: bool)
    ensures !(CheckTitle(raw, partial).Invalid? && TITLE_TOO_LONG in CheckTitle(raw, partial).messages)
    ensures raw.Some? && !AllSpace(Python, raw.value) && |Trim(Python, raw.value)| > MAX_TITLE_LENGTH ==>
      CheckTitle(raw, partial).Invalid? && CheckTitle(raw, partial).messages[0] == FIELD_TOO_LONG
  {
  }

  /** Client-supplied `id` and `created_at` make no difference to validation. */
  lemma ReadOnlyFieldsIgnored(d: TicketData, id: Option<string>, createdAt: Option<string>, partial: bool)
    ensures Validate(d.(id := id, createdAt := createdAt), partial) == Validate(d, partial)
  {
  }

  /** Whatever passes validation fits the model: a non-blank stripped title
      of at most 200 characters, a non-blank stripped description, neither
      holding a null character, and on creation both are present. */
  lemma ValidatedFitsModel(d: TicketData, partial: bool)
    requires Validate(d, partial).Success?
    ensures var ch := Validate(d, partial).value;
      && (ch.title.Some? ==>
            && |ch.title.value| <= MAX_TITLE_LENGTH && ch.title.value != []
            && NoEdgeSpace(Python, ch.title.value) && '\0' !in ch.title.value)
      && (ch.description.Some? ==>
            ch.description.value != [] && NoEdgeSpace(Python, ch.description.value) && '\0' !in ch.description.value)
      && (!partial ==> ch.title.Some? && ch.description.Some?)
  {
  }

  /** A choice outside the declared values is reported under its field
      name with the framework's message. */
  lemma InvalidChoiceReported(d: TicketData, partial: bool)
    requires d.category.Some? && ParseCategory(d.category.value).None?
    ensures Validate(d, partial).Failure?
    ensures Validate(d, partial).error["category"] == ["\"" + d.category.value + "\" is not a valid choice."]
  {
  }

  /** A null character anywhere in the stripped text refuses the field,
      whatever else holds. */
  lemma NullCharacterRefused(d: TicketData, partial: bool)
    requires d.description.Some? && !AllSpace(Python, d.description.value)
    requires '\0' in Trim(Python, d.description.value)
    ensures Validate(d, partial).Failure?
    ensures Validate(d, partial).error["description"] == [NULL_CHARACTERS]
  {
  }

  /** `serializer.save()` on creation: the validated fields, the model
      defaults for choices that were left out, a fresh key and the
      creation time. */
  function NewTicket(id: nat, ch: Changes, now: int): (t: Ticket)
    requires ch.title.Some? && ch.description.Some?
    ensures t.id == id && t.createdAt == now
    ensures t.title == ch.title.value && t.description == ch.description.value
    ensures ch.category.None? ==> t.category == DEFAULT_CATEGORY
    ensures ch.priority.None? ==> t.priority == DEFAULT_PRIORITY
    ensures ch.status.None? ==> t.status == DEFAULT_STATUS
    ensures ch.category.Some? ==> t.category == ch.category.value
    ensures ch.priority.Some? ==> t.priority == ch.priority.value
    ensures ch.status.Some? ==> t.status == ch.status.value
  {
    Ticket(id, ch.title.value, ch.description.value,
      if ch.category.Some? then ch.category.value else DEFAULT_CATEGORY,
      if ch.priority.Some? then ch.priority.value else DEFAULT_PRIORITY,
      if ch.status.Some? then ch.status.value else DEFAULT_STATUS,
      now)
  }

  /** `serializer.save()` on a partial update: each supplied field is
      overwritten, every other field keeps its value, and the read-only
      `id` and `created_at` never change. */
  function ApplyChanges(t: Ticket, ch: Changes): (r: Ticket)
    ensures r.id == t.id && r.createdAt == t.createdAt
    ensures r.title == (if ch.title.Some? then ch.title.value else t.title)
    ensures r.description == (if ch.description.Some? then ch.description.value else t.description)
    ensures r.category == (if ch.category.Some? then ch.category.value else t.category)
    ensures r.priority == (if ch.priority.Some? then ch.priority.value else t.priority)
    ensures r.status == (if ch.status.Some? then ch.status.value else t.status)
  {
    t.(title := if ch.title.Some? then ch.title.value else t.title,
       description := if ch.description.Some? then ch.description.value else t.description,
       category := if ch.category.Some? then ch.category.value else t.category,
       priority := if ch.priority.Some? then ch.priority.value else t.priority,
       status := if ch.status.Some? then ch.status.value else t.status)
  }

  /** A JSON value in a serialised ticket. */
  datatype Field = StringField(text: string) | IntField(n: int)

  /** `fields = '__all__'`: the names of every model field. */
  const ALL_FIELDS: set<string> := {"id", "title", "description", "category", "priority", "status", "created_at"}

  /** `serializer.data` for one ticket. */
  function Represent(t: Ticket): (r: map<string, Field>)
    ensures r.Keys == ALL_FIELDS
  {
    map["id" := IntField(t.id), "title" := StringField(t.title), "description" := StringField(t.description),
        "category" := StringField(CategoryName(t.category)), "priority" := StringField(PriorityName(t.priority)),
        "status" := StringField(StatusName(t.status)), "created_at" := IntField(t.createdAt)]
  }

  /** Exposing every field loses nothing: two tickets with the same
      representation are the same ticket. */
  lemma RepresentInjective(a: Ticket, b: Ticket)
    requires Represent(a) == Represent(b)
    ensures a == b
  {
    assert Represent(a)["category"] == Represent(b)["category"];
    assert Represent(a)["priority"] == Represent(b)["priority"];
    assert Represent(a)["status"] == Represent(b)["status"];
    ChoicesRoundTrip(a.category, a.priority, a.status);
    ChoicesRoundTrip(b.category, b.priority, b.status);
  }
}
