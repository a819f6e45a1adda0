/** The submission form of frontend/src/components/TicketForm.js. The two
    async handlers are split at their `await`: `BeginClassify` and
    `BeginSubmit` run up to the request and return it, `FinishClassify` and
    `FinishSubmit` take the outcome and run the rest, `finally` included. */
module TicketFormComponent {
  import opened Common
  import opened Text
  import opened Models
  import opened Serializers
  import Llm
  import Views

  /** The `form` object. */
  datatype FormFields = FormFields(title: string, description: string, category: string, priority: string)

  /** The empty form with the model defaults preselected. */
  const INITIAL_FORM := FormFields("", "", "general", "medium")

  /** The options of the two selects. */
  const CATEGORIES: seq<string> := ["billing", "technical", "account", "general"]
  const PRIORITIES: seq<string> := ["low", "medium", "high", "critical"]

  /** The `maxLength` of the title input. */
  const TITLE_MAX_LENGTH := 200
  /** The shortest description that is sent for classification. */
  const CLASSIFY_MIN_LENGTH := 10

  const REQUIRED_MESSAGE := "Title and description are required."
  const SUBMIT_FAILED_MESSAGE := "Submission failed. Please try again."

  /** The parsed classify response: either key may be missing. */
  datatype ClassifyReply = ClassifyReply(suggestedCategory: Option<string>, suggestedPriority: Option<string>)

  /** A JavaScript string is truthy when it is non-empty. */
  predicate Truthy(v: Option<string>) {
    v.Some? && v.value != ""
  }

  /** The initial form preselects the model's defaults and offers exactly
      the model's choices. */
  lemma InitialFormMatchesModel()
    ensures ParseCategory(INITIAL_FORM.category) == Some(DEFAULT_CATEGORY)
    ensures ParsePriority(INITIAL_FORM.priority) == Some(DEFAULT_PRIORITY)
    ensures CATEGORIES == CATEGORY_CHOICES && PRIORITIES == PRIORITY_CHOICES
  {
  }

  /** The blur guard: a description that is not blank and has at least ten
      characters before trimming. */
  predicate ShouldClassify(description: string) {
    Trim(JavaScript, description) != [] && |description| >= CLASSIFY_MIN_LENGTH
  }

  /** The `required` attribute of both text inputs: the browser blocks the
      submit event while either is empty, so `handleSubmit` never runs. */
  predicate RequiredFilled(f: FormFields) {
    f.title != "" && f.description != ""
  }

  /** The submit guard: both text fields are non-blank. */
  predicate Submittable(f: FormFields) {
    Trim(JavaScript, f.title) != [] && Trim(JavaScript, f.description) != []
  }

  /** The input's `maxLength`: typed or pasted text beyond 200 characters
      is cut off. */
  function CapTitle(v: string): (r: string)
    ensures |r| <= TITLE_MAX_LENGTH
    ensures |v| <= TITLE_MAX_LENGTH ==> r == v
    ensures r == v[..|r|]
  {
    if |v| > TITLE_MAX_LENGTH then v[..TITLE_MAX_LENGTH] else v
  }

  /** The body `createTicket(form)` sends, as request data: all four form
      fields and nothing else. */
  function AsRequest(f: FormFields): (d: TicketData)
    ensures d.title == Some(f.title) && d.description == Some(f.description)
    ensures d.category == Some(f.category) && d.priority == Some(f.priority)
    ensures d.id.None? && d.status.None? && d.createdAt.None?
  {
    TicketData(None, Some(f.title), Some(f.description), Some(f.category), Some(f.priority), None, None)
  }

  /** A description the form sends for classification, holding no
      character that only one of the two languages strips, is not refused
      as blank there. */
  lemma ClassifyGuardCoversBackend(description: string, apiKey: string, reply: Llm.ClientReply,
                                   decode: string -> Option<Llm.Json>)
    requires ShouldClassify(description) && SpaceAgrees(description)
    ensures Views.ClassifyView(Some(description), apiKey, reply, decode).status == Views.HTTP_200_OK
  {
    TrimAgrees(description);
  }

  /** A form that passes the submit guard, with a title the input allows,
      choices from the selects, no null character and no character that
      only one of the two languages strips, is accepted by the create
      endpoint, which stores the trimmed text. */
  lemma SubmittedFormAccepted(f: FormFields)
    requires Submittable(f) && |f.title| <= TITLE_MAX_LENGTH
    requires f.category in CATEGORIES && f.priority in PRIORITIES
    requires SpaceAgrees(f.title) && SpaceAgrees(f.description)
    requires '\0' !in f.title && '\0' !in f.description
    ensures Validate(AsRequest(f), false).Success?
    ensures Validate(AsRequest(f), false).value.title == Some(Trim(JavaScript, f.title))
    ensures Validate(AsRequest(f), false).value.description == Some(Trim(JavaScript, f.description))
    ensures Validate(AsRequest(f), false).value.status.None?
  {
    var d := AsRequest(f);
    TrimAgrees(f.title);
    TrimAgrees(f.description);
    if '\0' in Trim(Python, f.title) {
      TrimKeepsChars(Python, f.title, '\0');
    }
    if '\0' in Trim(Python, f.description) {
      TrimKeepsChars(Python, f.description, '\0');
    }
    assert CheckTitle(d.title, false) == Accepted(Trim(Python, f.title));
    assert CheckText(d.description, false, None) == Accepted(Trim(Python, f.description));
    assert CheckChoice(d.category, ParseCategory).Accepted?;
    assert CheckChoice(d.priority, ParsePriority).Accepted?;
    assert CheckChoice(d.status, ParseStatus).Omitted?;
  }

  /** The form trims by the browser's whitespace set and the backend strips
      by Python's, which also holds U+001C to U+001F. Ten U+001C characters
      pass the blur guard and the classify endpoint refuses them as blank;
      a title of one U+001C passes the submit guard and the create endpoint
      refuses it as blank. */
  lemma SeparatorsPassFrontendGuards(apiKey: string, reply: Llm.ClientReply, decode: string -> Option<Llm.Json>)
    ensures var d := seq(10, _ => '\U{1C}');
      && ShouldClassify(d)
      && Views.ClassifyView(Some(d), apiKey, reply, decode).status == Views.HTTP_400_BAD_REQUEST
    ensures var f := FormFields("\U{1C}", "Printer is offline", "general", "medium");
      && Submittable(f)
      && Validate(AsRequest(f), false).Failure?
      && Validate(AsRequest(f), false).error["title"] == [FIELD_BLANK]
  {
    var d := seq(10, _ => '\U{1C}');
    assert !AllSpace(JavaScript, d) by { assert !IsSpace(JavaScript, d[0]); }
    assert AllSpace(Python, d);
    var f := FormFields("\U{1C}", "Printer is offline", "general", "medium");
    assert !AllSpace(JavaScript, f.title) by { assert !IsSpace(JavaScript, f.title[0]); }
    assert !AllSpace(JavaScript, f.description) by { assert !IsSpace(JavaScript, f.description[0]); }
    assert AllSpace(Python, f.title);
    assert CheckTitle(AsRequest(f).title, false) == Invalid([FIELD_BLANK]);
  }

  class TicketForm {
    var form: FormFields
    var classifying: bool
    var submitting: bool
    /** The error banner; empty when hidden. */
    var error: string
    /** The last applied suggestion, if any. */
    var suggestion: Option<ClassifyReply>

    /** The title input never holds more than its `maxLength`. */
    ghost predicate Valid()
      reads this
    {
      |form.title| <= TITLE_MAX_LENGTH
    }

    constructor ()
      ensures Valid()
      ensures form == INITIAL_FORM && !classifying && !submitting
      ensures error == "" && suggestion.None?
    {
      form := INITIAL_FORM;
      classifying := false;
      submitting := false;
      error := "";
      suggestion := None;
    }

    method EditTitle(v: string)
      requires Valid()
      modifies this
      ensures Valid()
      ensures form == old(form).(title := CapTitle(v))
      ensures classifying == old(classifying) && submitting == old(submitting)
      ensures error == old(error) && suggestion == old(suggestion)
    {
      form := form.(title := CapTitle(v));
    }

    method EditDescription(v: string)
      requires Valid()
      modifies this
      ensures Valid()
      ensures form == old(form).(description := v)
      ensures classifying == old(classifying) && submitting == old(submitting)
      ensures error == old(error) && suggestion == old(suggestion)
    {
      form := form.(description := v);
    }

    method EditCategory(v: string)
      requires Valid()
      modifies this
      ensures Valid()
      ensures form == old(form).(category := v)
      ensures classifying == old(classifying) && submitting == old(submitting)
      ensures error == old(error) && suggestion == old(suggestion)
    {
      form := form.(category := v);
    }

    method EditPriority(v: string)
      requires Valid()
      modifies this
      ensures Valid()
      ensures form == old(form).(priority := v)
      ensures classifying == old(classifying) && submitting == old(submitting)
      ensures error == old(error) && suggestion == old(suggestion)
    {
      form := form.(priority := v);
    }

    /** The start of `handleDescriptionBlur`: below the threshold nothing
        happens; otherwise the spinner shows and the description is sent. */
    method BeginClassify() returns (request: Option<string>)
      requires Valid()
      modifies this
      ensures Valid()
      ensures !ShouldClassify(old(form.description)) ==>
        request.None? && classifying == old(classifying)
      ensures ShouldClassify(old(form.description)) ==>
        request == Some(old(form.description)) && classifying
      ensures form == old(form) && submitting == old(submitting)
      ensures error == old(error) && suggestion == old(suggestion)
    {
      var eligible := ShouldClassify(form.description);
      if eligible {
        classifying := true;
        request := Some(form.description);
      } else {
        request := None;
      }
    }

    /** The rest of `handleDescriptionBlur`. `api.classifyTicket` parses
        any body, so `reply` is the body whatever the status; `None` stands
        for a request or parse that threw. A reply with both suggested
        values overwrites category and priority and is kept; title and
        description are never touched; the spinner always stops. */
    method FinishClassify(reply: Option<ClassifyReply>)
      requires Valid()
      modifies this
      ensures Valid() && !classifying
      ensures form.title == old(form.title) && form.description == old(form.description)
      ensures reply.Some? && Truthy(reply.value.suggestedCategory) && Truthy(reply.value.suggestedPriority) ==>
        && form.category == reply.value.suggestedCategory.value
        && form.priority == reply.value.suggestedPriority.value
        && suggestion == reply
      ensures !(reply.Some? && Truthy(reply.value.suggestedCategory) && Truthy(reply.value.suggestedPriority)) ==>
        form == old(form) && suggestion == old(suggestion)
      ensures submitting == old(submitting) && error == old(error)
    {
      if reply.Some? && Truthy(reply.value.suggestedCategory) && Truthy(reply.value.suggestedPriority) {
        form := form.(category := reply.value.suggestedCategory.value,
                      priority := reply.value.suggestedPriority.value);
        suggestion := reply;
      }
      classifying := false;
    }

    /** Pressing the submit button, which is disabled while a submission
        is in flight. An empty title or description is
        stopped by the browser and nothing changes. Otherwise
        `handleSubmit` starts: a whitespace-only title or description shows
        the required message and sends nothing; else the banner is cleared,
        the button is disabled and the whole form is sent. */
    method BeginSubmit() returns (request: Option<FormFields>)
      requires Valid() && !submitting
      modifies this
      ensures Valid()
      ensures !RequiredFilled(old(form)) ==>
        request.None? && error == old(error) && submitting == old(submitting)
      ensures RequiredFilled(old(form)) && !Submittable(old(form)) ==>
        request.None? && error == REQUIRED_MESSAGE && submitting == old(submitting)
      ensures Submittable(old(form)) ==>
        request == Some(old(form)) && error == "" && submitting
      ensures form == old(form) && classifying == old(classifying) && suggestion == old(suggestion)
    {
      if !RequiredFilled(form) {
        return None;
      }
      if !Submittable(form) {
        error := REQUIRED_MESSAGE;
        return None;
      }
      submitting := true;
      error := "";
      request := Some(form);
    }

    /** The rest of `handleSubmit`. On success the form returns to its
        initial state, the suggestion is dropped and the created ticket is
        handed to `onCreated`; a refused request shows the serialised
        response body (`rejected`); a failed one shows the retry message
        and keeps the form. The button is enabled again in every case. */
    method FinishSubmit(outcome: Fetch<Ticket, string>) returns (created: Option<Ticket>)
      requires Valid()
      modifies this
      ensures Valid() && !submitting
      ensures outcome.Ok? ==>
        && form == INITIAL_FORM && suggestion.None?
        && error == old(error) && created == Some(outcome.body)
      ensures outcome.Rejected? ==>
        && form == old(form) && suggestion == old(suggestion)
        && error == outcome.reason && created.None?
      ensures outcome.NetworkFail? ==>
        && form == old(form) && suggestion == old(suggestion)
        && error == SUBMIT_FAILED_MESSAGE && created.None?
      ensures classifying == old(classifying)
    {
      match outcome {
        case Ok(t) =>
          form := INITIAL_FORM;
          suggestion := None;
          created := Some(t);
        case Rejected(body) =>
          error := body;
          created := None;
        case NetworkFail =>
          error := SUBMIT_FAILED_MESSAGE;
          created := None;
      }
      submitting := false;
    }
  }
}
