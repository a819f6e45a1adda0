# Support ticket system: a Dafny model

This project models the core of a small support-ticket tracker. It has two halves.

The backend is Django REST framework:
- a `Ticket` table with three closed choice fields and a 200-character title;
- a list endpoint with exact-match filters and a case-insensitive search;
- creation and partial update through a model serializer;
- a statistics endpoint with zero-filled breakdowns;
- a classification endpoint. It post-processes a language-model reply into a category and a priority that are always valid.

The frontend is React. Its state logic is modelled as classes:
- the root component, holding the ticket list, the filter criteria and the stats remount key;
- the filter bar's criteria merge;
- the submission form's classify-on-blur and submit handlers;
- a ticket card's status select;
- the stats dashboard's loading state and bar widths.

Each source file has its own Dafny module:

| module | file |
|---|---|
| `Models` | `models.dfy` |
| `Serializers` | `serializers.dfy` |
| `Llm` | `llm.dfy` |
| `Views` | `views.dfy` |
| `AppComponent` | `app.dfy` |
| `FilterBarComponent` | `filterbar.dfy` |
| `TicketFormComponent` | `ticketform.dfy` |
| `TicketCardComponent` | `ticketcard.dfy` |
| `StatsDashboardComponent` | `statsdashboard.dfy` |

Two modules are shared:
- `Common` holds `Option`, `Result` and `Fetch`, the outcome of a browser request: `Ok(body)`, `Rejected(body)` or `NetworkFail`.
- `Text` holds `strip`/`trim`, `lower`/`upper` and substring search. Python's `strip()` and JavaScript's `trim()` each use their own whitespace set; case folding is ASCII.

How state is modelled:
- The ticket table is a `TicketStore` object. Its rows are in newest-first order and it keeps the next primary key.
- Listing and stats are read-only methods, each proved equal to a reference definition. Creation and update change the store and keep its invariant: newest-first order, distinct keys, titles within the column limit.
- Every async frontend handler is split at its `await` into a `Begin…` method, which returns the request, and a `Finish…` method, which takes the outcome and runs the rest, including `finally`.

What is an input rather than modelled:
- the network, the database and the language-model client;
- `json.loads`, passed in as a function;
- the clock, passed in as `now` when a row is created.

## Model

| member | source | states |
|---|---|---|
| `Text.Trim` | backend/tickets/llm.py:60 | `strip()` (and `trim()` in the browser, by its own whitespace set) leaves no whitespace at either end; it yields the empty string exactly when the input is all whitespace; it never lengthens the input |
| `Text.TrimPadded` | backend/tickets/llm.py:67 | stripping a padded string gives back exactly the already-stripped text inside the padding |
| `Text.TrimKeepsChars` | backend/tickets/views.py:139 | every character of a stripped string occurs in the input |
| `Text.TrimAgrees` | frontend/src/components/TicketForm.js:45 | on text without the characters only one language counts as whitespace, the browser's `trim()` and the backend's `strip()` agree |
| `Text.ContainsOccurs` | backend/tickets/views.py:40-41 | the substring test behind `icontains` holds exactly when the needle occurs at some position of the text |
| `Models.ParseCategory` | backend/tickets/models.py:5-10 | a stored category value is read back as the choice with that stored name; a value outside the four declared choices is refused |
| `Models.ParsePriority` | backend/tickets/models.py:12-17 | the same for the four priorities |
| `Models.ParseStatus` | backend/tickets/models.py:19-24 | the same for the four statuses |
| `Models.ChoicesRoundTrip` | backend/tickets/models.py:5-24 | every enum member is stored under one of its declared values, and reading that value back gives the same member |
| `Models.InsertNewestFirst` | backend/tickets/models.py:50 | inserting a row adds exactly that row, a permutation of the old rows plus it; a row no older than the first goes to the front |
| `Models.InsertKeepsNewestFirst` | backend/tickets/models.py:50 | inserting keeps the rows in descending `created_at` order |
| `Models.PrependNewest` | backend/tickets/models.py:50 | a row at least as new as every row of a newest-first sequence may lead it |
| `Models.Str` | backend/tickets/models.py:52-53 | `__str__` is `[`, then a tag, then `] `, then the title; the tag holds no lower-case letter and lower-casing it gives back the ticket's priority, so it is the upper-cased priority |
| `Serializers.ValidateTitle` | backend/tickets/serializers.py:11-16 | it accepts a title exactly when it has at most 200 characters, 200 included, and returns it unchanged; otherwise it fails with the fixed message |
| `Serializers.TextErrors` | backend/tickets/models.py:26-27 | a text field's validators refuse exactly an over-long value (the length message first) or one holding a null character, each with its own message |
| `Serializers.CheckText` | backend/tickets/models.py:27 | a text field is omitted exactly when absent from a partial update; absent otherwise it is required, all-whitespace it is blank; it is accepted exactly when present, non-blank, within any length limit and free of null characters once stripped, and then as the stripped text |
| `Serializers.CheckTitle` | backend/tickets/models.py:26 | a title is accepted exactly when present, non-blank, at most 200 characters and free of null characters once stripped, and then as the stripped text |
| `Serializers.CheckChoice` | backend/tickets/models.py:29-45 | a choice field is omitted exactly when absent; an accepted value parses to the stored choice; a refused one names no choice |
| `Serializers.Report` | backend/tickets/serializers.py:5-16 | the error report holds exactly the failed writable fields, each under its own name with its messages |
| `Serializers.Validate` | backend/tickets/serializers.py:5-16 | validation succeeds exactly when no writable field check fails, and then each field holds what its check accepted or nothing when omitted; a failure reports every failed field under its name with its messages, and no other key |
| `Serializers.ValidateTitleUnreachable` | backend/tickets/serializers.py:11-16 | `validate_title`'s message is never produced: the derived `max_length` check refuses an over-long stripped title first, with its own message |
| `Serializers.ReadOnlyFieldsIgnored` | backend/tickets/serializers.py:9 | client-supplied `id` and `created_at` make no difference to validation |
| `Serializers.ValidatedFitsModel` | backend/tickets/models.py:26-27 | validated text is stripped, non-blank, free of null characters and within the title limit; on creation both title and description are present |
| `Serializers.InvalidChoiceReported` | backend/tickets/models.py:29-33 | a category outside the choices fails validation and is reported under `category` with the framework's message |
| `Serializers.NullCharacterRefused` | backend/tickets/models.py:27 | a non-blank description holding a null character fails validation with exactly the null-character message |
| `Serializers.NewTicket` | backend/tickets/views.py:48-51 | a created row has the fresh key, the creation time and the validated text; each supplied choice is stored as sent and each omitted one takes the model default |
| `Serializers.ApplyChanges` | backend/tickets/views.py:68-71 | a partial update overwrites exactly the supplied fields and never touches `id` or `created_at` |
| `Serializers.Represent` | backend/tickets/serializers.py:8 | the representation has exactly the seven model field names as keys |
| `Serializers.RepresentInjective` | backend/tickets/serializers.py:8 | two tickets with the same representation are the same ticket, so no field is hidden |
| `Llm.ValidSetsAreModelChoices` | backend/tickets/llm.py:71-72 | the two validity sets hold exactly the model's declared category and priority values |
| `Llm.DefaultResponse` | backend/tickets/llm.py:97-102 | the fallback names the model's default category and priority |
| `Llm.UpToFence` | backend/tickets/llm.py:64 | `split("```")[1]` keeps the longest prefix that contains no fence; it stops at the first fence or at the end of the text |
| `Llm.DropJsonTag` | backend/tickets/llm.py:65-66 | a leading `json` tag is removed; text without one is unchanged |
| `Llm.StripFences` | backend/tickets/llm.py:60-67 | the cleaned reply has no edge whitespace; an unfenced reply is only stripped; a fenced one becomes the text up to the next fence, untagged and stripped |
| `Llm.UpToFenceStops` | backend/tickets/llm.py:64 | text without a fence, followed by a fence, is cut exactly at that fence |
| `Llm.StripFencesOfFenced` | backend/tickets/llm.py:60-64 | whitespace around a fenced reply is stripped before the opening fence is recognised |
| `Llm.StripFencesOfOpened` | backend/tickets/llm.py:60-64 | a reply that opens with a fence and ends in a non-whitespace character is cleaned from just after the opening fence |
| `Llm.StripFencesUnclosed` | backend/tickets/llm.py:63-67 | in a reply without trailing whitespace, an opening fence that is never closed keeps everything after it, untagged and stripped |
| `Llm.StripFencesDropsTail` | backend/tickets/llm.py:63-67 | in a reply without trailing whitespace, text after the closing fence is dropped, whatever it starts with; only what lies between the first two fences is kept |
| `Llm.TaggedBodyRecovered` | backend/tickets/llm.py:64-67 | the body of a ```` ```json ```` block comes out untagged and stripped |
| `Llm.FencedReplyRoundTrip` | backend/tickets/llm.py:60-67 | wrapping a stripped, fence-free body in a ```` ```json ```` fence plus any whitespace and then cleaning it gives back the body |
| `Llm.Normalise` | backend/tickets/llm.py:74-86 | a normalised suggestion is always within the valid sets; it fails, meaning an exception, exactly when the reply is not an object or a present value is unhashable |
| `Llm.NormalisePerKey` | backend/tickets/llm.py:74-81 | each key independently passes a valid string through; a missing or invalid value falls back to `general` or `medium` |
| `Llm.ClassifyTicket` | backend/tickets/llm.py:39-94 | the result is always in range. An empty key, a client error, undecodable JSON or an exception in normalisation each yield exactly the default; otherwise the result is the normalised decoded reply |
| `Llm.UnfencedPassesThrough` | backend/tickets/llm.py:60-86 | a bare JSON reply naming a valid category and priority, with any surrounding whitespace, is returned unchanged |
| `Llm.ValidReplyPassesThrough` | backend/tickets/llm.py:60-86 | the same reply inside a json-tagged fence, with any surrounding whitespace, is returned unchanged |
| `Views.TicketStore.List` | backend/tickets/views.py:20-45 | the step-by-step narrowing of the queryset returns exactly `Select`, the rows that match every non-empty parameter, in table order |
| `Views.WhereNarrows` | backend/tickets/views.py:29-42 | narrowing the rows that satisfy some criteria by one more criterion gives the rows satisfying them all |
| `Views.SelectAllIsSelect` | backend/tickets/views.py:24-42 | criteria that hold on the same rows as the parameter test select the same rows |
| `Views.SelectMembership` | backend/tickets/views.py:24-42 | a row is listed exactly when it is stored and satisfies every supplied filter. The filters are exact choice matches and a case-insensitive search of the title or the description |
| `Views.SelectIsSubsequence` | backend/tickets/views.py:21-45 | the listing is a subsequence of the table |
| `Views.SubsequenceSkip` | backend/tickets/views.py:21 | a subsequence of the tail of a table is a subsequence of the table |
| `Views.SubsequenceTail` | backend/tickets/views.py:21 | dropping the first row of a subsequence keeps it a subsequence |
| `Views.SelectKeepsOrder` | backend/tickets/views.py:21-45 | the listing keeps the newest-first order |
| `Views.EmptyParamIsAbsent` | backend/tickets/views.py:24-42 | an empty parameter selects the same rows as an absent one |
| `Views.NoParamsListsAll` | backend/tickets/views.py:20-45 | with no effective parameter every row is listed |
| `Views.UnknownCategorySelectsNothing` | backend/tickets/views.py:29-30 | a category parameter naming no declared choice selects no row |
| `Views.FindById` | backend/tickets/views.py:60-61 | the lookup returns a position holding the key, or reports that no row has it |
| `Views.InsertKeepsIdsDistinct` | backend/tickets/views.py:50 | inserting a row with an unused key keeps primary keys distinct |
| `Views.TicketStore.Create` | backend/tickets/views.py:47-52 | a valid body inserts one new row with a fresh key, in order, and answers 201 with it. An invalid body answers 400 with the errors and stores nothing. The store invariant is kept |
| `Views.TicketStore.Patch` | backend/tickets/views.py:55-73 | an unknown key answers 404 `Ticket not found` and changes nothing; an invalid body answers 400 and changes nothing; otherwise only that row changes, by the supplied fields, and it is returned with 200 |
| `Views.GroupCount` | backend/tickets/views.py:102-108 | grouping yields one key per value present in the column, each mapped to its number of occurrences |
| `Views.SetDefaults` | backend/tickets/views.py:109-110 | the `setdefault` loop adds every listed key, with 0 for missing ones, and keeps existing counts |
| `Views.Breakdown` | backend/tickets/views.py:102-121 | a breakdown has exactly the declared choices as keys, each with its number of rows |
| `Views.ColumnsHoldChoices` | backend/tickets/views.py:104-115 | every stored priority and category value is a declared choice |
| `Views.OccursIffCounted` | backend/tickets/views.py:105 | a value has a positive count exactly when it occurs |
| `Views.PriorityCountsSum` | backend/tickets/views.py:102-110 | the four priority counts add up to the number of rows |
| `Views.CategoryCountsSum` | backend/tickets/views.py:113-121 | the four category counts add up to the number of rows |
| `Views.TicketStore.GetStats` | backend/tickets/views.py:76-129 | `total_tickets` is the number of rows and `open_tickets` the number with status `open`. Both breakdowns are zero-filled over the declared choices and count the rows per value |
| `Views.PriorityBreakdownSum` | backend/tickets/views.py:102-110 | the priority breakdown has all four keys and they sum to the total |
| `Views.CategoryBreakdownSum` | backend/tickets/views.py:113-121 | the category breakdown has all four keys and they sum to the total |
| `Views.ClassifyView` | backend/tickets/views.py:133-146 | a missing or whitespace-only description answers 400 `description is required`, whatever the classifier would say; any other answers 200 with exactly `classify_ticket`'s result, which is in range |
| `FilterBarComponent.Set` | frontend/src/components/FilterBar.js:4-5 | a non-empty value is stored under its key; an empty one leaves the key reading as absent (`undefined`); every other key reads as before |
| `FilterBarComponent.Clear` | frontend/src/components/FilterBar.js:49 | after Clear every key reads as absent |
| `FilterBarComponent.Display` | frontend/src/components/FilterBar.js:12 | a control shows the stored value, or the empty string when absent |
| `FilterBarComponent.SetIdempotent` | frontend/src/components/FilterBar.js:4-5 | setting a key twice to the same value is setting it once |
| `FilterBarComponent.SetThenClearControl` | frontend/src/components/FilterBar.js:4-5 | setting an absent key and then clearing its control leaves criteria that read the same as before |
| `FilterBarComponent.LastSetWins` | frontend/src/components/FilterBar.js:4-5 | only the last write to a key counts |
| `FilterBarComponent.SetsCommute` | frontend/src/components/FilterBar.js:5 | writes to different keys commute |
| `FilterBarComponent.DisplayAfterSet` | frontend/src/components/FilterBar.js:12-38 | every control, search and the three selects alike, shows what was last chosen in it, and the other controls are unaffected |
| `FilterBarComponent.DisplayAfterClear` | frontend/src/components/FilterBar.js:49 | after Clear every control shows its "All …" option |
| `AppComponent.ReplaceById` | frontend/src/App.js:29 | replacing by id keeps the list's length |
| `AppComponent.ReplaceByIdPointwise` | frontend/src/App.js:29 | every entry with the updated id becomes the update; every other entry stays as it was, in place |
| `AppComponent.ReplaceByIdNoMatch` | frontend/src/App.js:29 | when no id matches the list is unchanged |
| `AppComponent.ReplaceByIdKeepsIds` | frontend/src/App.js:29 | the sequence of ids is unchanged |
| `AppComponent.ReplaceByIdIdempotent` | frontend/src/App.js:29 | delivering the same update twice is delivering it once |
| `AppComponent.App.constructor` | frontend/src/App.js:10-20 | the initial state is no tickets, no criteria and key 0, and the mount effect requests the unfiltered list |
| `AppComponent.App.ChangeFilters` | frontend/src/App.js:14-20 | new criteria are stored and one list request carrying them is issued; tickets and key are unchanged |
| `AppComponent.App.EditFilter` | frontend/src/App.js:51 | a filter control's change stores `set(key, value)` of the old criteria and refetches with it |
| `AppComponent.App.ClearFilters` | frontend/src/App.js:51 | Clear stores the empty criteria and refetches with them |
| `AppComponent.App.ReceiveTickets` | frontend/src/App.js:15 | a list response replaces the tickets and nothing else |
| `AppComponent.App.HandleTicketCreated` | frontend/src/App.js:22-25 | the key grows by exactly 1 and one list request with the current criteria is issued; tickets and criteria are unchanged |
| `AppComponent.App.HandleTicketUpdated` | frontend/src/App.js:27-31 | a ticket body replaces the entries with its id; an error body changes nothing. Criteria and key are unchanged and no request is issued |
| `TicketFormComponent.InitialFormMatchesModel` | frontend/src/components/TicketForm.js:4-13 | the initial form preselects the model's defaults and the selects offer exactly the model's choices |
| `TicketFormComponent.CapTitle` | frontend/src/components/TicketForm.js:93 | the input's `maxLength` keeps a prefix of at most 200 characters and leaves shorter text alone |
| `TicketFormComponent.AsRequest` | frontend/src/components/TicketForm.js:54 | the create request carries the four form fields and nothing else |
| `TicketFormComponent.ClassifyGuardCoversBackend` | frontend/src/components/TicketForm.js:21 | a description that passes the blur guard and holds no character only one language strips is not refused as blank by the classify endpoint |
| `TicketFormComponent.SubmittedFormAccepted` | frontend/src/components/TicketForm.js:45-54 | a form that passes the submit guard, with choices from the selects, no null character and no character only one language strips, passes the create endpoint's validation, which stores the trimmed text |
| `TicketFormComponent.SeparatorsPassFrontendGuards` | frontend/src/components/TicketForm.js:21-45 | ten U+001C characters pass the blur guard and are refused as blank by the classify endpoint; a title of one U+001C passes the submit guard and is refused as blank on creation |
| `TicketFormComponent.TicketForm.constructor` | frontend/src/components/TicketForm.js:8-18 | the form starts empty with the defaults, both flags off, no error and no suggestion |
| `TicketFormComponent.TicketForm.EditTitle` | frontend/src/components/TicketForm.js:93-97 | typing sets the title, capped at 200 characters; nothing else changes |
| `TicketFormComponent.TicketForm.EditDescription` | frontend/src/components/TicketForm.js:112-115 | typing sets the description; nothing else changes |
| `TicketFormComponent.TicketForm.EditCategory` | frontend/src/components/TicketForm.js:127-130 | the select sets the category; nothing else changes |
| `TicketFormComponent.TicketForm.EditPriority` | frontend/src/components/TicketForm.js:141-144 | the select sets the priority; nothing else changes |
| `TicketFormComponent.TicketForm.BeginClassify` | frontend/src/components/TicketForm.js:20-25 | a request goes out only when the stripped description is non-empty and the raw one has at least 10 characters; then the spinner shows. Otherwise nothing changes |
| `TicketFormComponent.TicketForm.FinishClassify` | frontend/src/components/TicketForm.js:25-39 | a reply with both suggested values overwrites category and priority and is kept; any other outcome leaves form and suggestion alone. Title and description never change and the spinner always stops |
| `TicketFormComponent.TicketForm.BeginSubmit` | frontend/src/components/TicketForm.js:42-54 | the button cannot be pressed while a submission is in flight (line 155). An empty title or description is stopped by the `required` attributes (lines 99 and 119) and nothing changes; a whitespace-only one shows the required message and sends nothing; otherwise the banner is cleared, the button is disabled and the form is sent |
| `TicketFormComponent.TicketForm.FinishSubmit` | frontend/src/components/TicketForm.js:54-72 | on success the form and the suggestion reset and the created ticket is returned. A refusal shows the serialised body; a failure shows the retry message. Both keep the form, and the button is always enabled again |
| `TicketCardComponent.StatusOrderIsModelOrder` | frontend/src/components/TicketCard.js:4 | the status options are exactly the model's statuses, in the model's order |
| `TicketCardComponent.Truncate` | frontend/src/components/TicketCard.js:21-22 | a string within the limit is unchanged; a longer one becomes its first `n` characters plus `...`, length `n + 3`; the result always starts with the first `min(len, n)` characters |
| `TicketCardComponent.PreviewBounded` | frontend/src/components/TicketCard.js:21-22 | a preview never exceeds 153 characters |
| `TicketCardComponent.PreviewShowsPrefix` | frontend/src/components/TicketCard.js:21-22 | a description of at most 150 characters is shown whole; a longer one as its first 150 characters and `...` |
| `TicketCardComponent.IndexOf` | frontend/src/components/TicketCard.js:54 | the position found is the first holding the character, and none is found exactly when it is absent |
| `TicketCardComponent.OptionLabel` | frontend/src/components/TicketCard.js:54 | the label replaces the first underscore with a space and nothing else; a value without one is shown as stored |
| `TicketCardComponent.PlainStatusLabels` | frontend/src/components/TicketCard.js:52-56 | `open`, `resolved` and `closed` are shown as stored |
| `TicketCardComponent.InProgressLabel` | frontend/src/components/TicketCard.js:52-56 | `in_progress` is shown as "in progress" |
| `TicketCardComponent.StatusOnly` | frontend/src/components/TicketCard.js:12-14 | a status change sends the chosen status and no other field |
| `TicketCardComponent.StatusChangeAccepted` | frontend/src/components/TicketCard.js:12-14 | a status picked from the select passes the partial update's validation and changes nothing but the status |
| `TicketCardComponent.TicketCard.constructor` | frontend/src/components/TicketCard.js:6-7 | a card starts with its ticket and the select enabled |
| `TicketCardComponent.TicketCard.BeginStatusChange` | frontend/src/components/TicketCard.js:9-14 | the select cannot be used while a PATCH is in flight (line 49); a change disables it and a PATCH for this ticket's id, carrying only the chosen status, goes out |
| `TicketCardComponent.TicketCard.FinishStatusChange` | frontend/src/components/TicketCard.js:15-18 | any parsed response body, ticket or error, goes to `onUpdated`; a failed request passes nothing on; the select is enabled again in every case |
| `StatsDashboardComponent.BarWidth` | frontend/src/components/StatsDashboard.js:46 | a bar is never wider than 200 or than 10 pixels per ticket, and it is one of the two |
| `StatsDashboardComponent.BarWidthExamples` | frontend/src/components/StatsDashboard.js:46 | 5 tickets draw 50 pixels, 20 or more draw 200, fewer than 20 draw 10 per ticket |
| `StatsDashboardComponent.BarWidthMonotone` | frontend/src/components/StatsDashboard.js:46 | more tickets never draw a shorter bar |
| `StatsDashboardComponent.Rows` | frontend/src/components/StatsDashboard.js:41-50 | one row per breakdown entry, in entry order, with its key, its count and the bar width `Math.min(count * 10, 200)`. The category breakdown (lines 55-64) uses the same function |
| `StatsDashboardComponent.RowsAppend` | frontend/src/components/StatsDashboard.js:41 | the rows of entries listed one after another are the rows of each, one after another |
| `StatsDashboardComponent.StatsDashboard.constructor` | frontend/src/components/StatsDashboard.js:5-6 | the dashboard starts loading with no stats |
| `StatsDashboardComponent.StatsDashboard.Settle` | frontend/src/components/StatsDashboard.js:8-12 | a resolved request stores its body and a failed one stores nothing; loading ends either way |
| `StatsDashboardComponent.StatsDashboard.View` | frontend/src/components/StatsDashboard.js:14-67 | the screen shows loading exactly while loading; the failure line exactly when nothing or a falsy body was stored; the dashboard exactly for a stats object, with its totals, its average and the `Rows` of each breakdown; a truthy body without breakdowns makes rendering throw |

## Left out

- The network and `frontend/src/api.js`: every request is a method's return value and every response a method's argument.
- Query-string building with `URLSearchParams` is not modelled. `FilterBar` leaves a cleared key present but `undefined`, and `URLSearchParams` is likely to send such a key as the literal text `undefined`. A cleared category would then reach the list endpoint as `category=undefined`. `Views.UnknownCategorySelectsNothing` shows that such a request lists no ticket.
- Unmounting is not modelled. A handler that resumes after its component is gone simply updates that object.
- `avg_tickets_per_day` and the `TruncDate` day grouping: floating-point rounding and database-side date logic. `GetStats` states every other field of the stats response.
- The Anthropic client call, the prompt, logging and `console.warn`. The client's reply and `json.loads` are inputs; JSON numbers are integers only.
- DRF and ORM machinery beyond the checks modelled. Request data is a record of optional strings. A non-string `description` in the classify body makes `description.strip()` raise `AttributeError` in the view itself (backend/tickets/views.py:139), which answers 500; a non-string or `null` field value in a create or update body meets the framework's type checks. Neither is modelled.
- The framework's check that refuses lone UTF-16 surrogates in text fields: a Dafny `char` is a Unicode scalar value, so such text cannot be written down.
- Rows with equal `created_at`: the database may return them in any order. The model inserts a new row before the first row that is not newer than it.
- The human-readable choice labels (`Billing`, `In Progress`, …) are not used by the modelled code paths.
- Case folding is ASCII only: Unicode `lower()`/`upper()` and the database's case-insensitive match of non-ASCII text are not captured.
- Lengths are counted in characters. JavaScript counts UTF-16 code units, so for text outside the Basic Multilingual Plane (five emoji have JavaScript length 10) the model differs in the blur guard's 10-character threshold (TicketForm.js:21), the title input's `maxLength` of 200 (TicketForm.js:93) and the 150-character preview, which may also split a surrogate pair (TicketCard.js:21).
- The order of the breakdown keys. The backend's dicts list the values met by the grouping query first, then the zero-filled choices, and the dashboard draws rows in `Object.entries` order. `Views.Stats` holds the breakdowns as maps, so the dashboard's entry order is taken as given.
- Rendering (JSX, CSS, `toLocaleString`) and `frontend/src/components/TicketList.js`, which only renders cards.
- `backend/config/settings.py` and `backend/tickets/urls.py`: configuration and routing.
- Async interleavings are not ruled out, because the code does not rule them out (see below).

## Where the code and its description differ

The model follows the code in each case.

- Stale list responses. A list response for older filter criteria should not overwrite one for newer criteria. The code issues one request per change and stores whatever arrives, in arrival order. `AppComponent.App.ReceiveTickets` accepts any response at any time.
- Late classification results. A classification finishing after a submit should not bring back stale suggestions. The code has no such guard. `TicketFormComponent.TicketForm.FinishClassify` may run after `FinishSubmit` has reset the form, and it then overwrites the reset category and priority.
- Failed status updates. The update is handed to `onUpdated` for any parsed body, not only for a successful update: `updateTicket` never looks at the status code. So a 400 or 404 error body reaches the list, as `TicketCardComponent.TicketCard.FinishStatusChange` states. `AppComponent.App.HandleTicketUpdated` then matches no id, because the body has none, and the list stays unchanged.
- Different whitespace on the two sides. The form trims with JavaScript's `trim()`, the backend strips with Python's `strip()`, and Python also strips U+001C to U+001F. `TicketFormComponent.SeparatorsPassFrontendGuards` shows text that passes the form's guards and is then refused as blank by the backend.
- Refused classifications. `api.classifyTicket` also passes on any body, whatever its status code. A 400 body has neither suggested value, so `TicketFormComponent.TicketForm.FinishClassify` changes nothing with it.
