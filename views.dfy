/** The four endpoints of backend/tickets/views.py over the ticket table.
    The table is a `TicketStore` object: its rows in `Meta.ordering` order
    and the next auto-increment key. Listing and stats only read it;
    creation and partial update change it. The HTTP layer is reduced to a
    status code and a body. */
module Views {
  import opened Common
  import opened Text
  import opened Models
  import opened Serializers
  import Llm

  const HTTP_200_OK := 200
  const HTTP_201_CREATED := 201
  const HTTP_400_BAD_REQUEST := 400
  const HTTP_404_NOT_FOUND := 404

  const TICKET_NOT_FOUND := "Ticket not found"
  const DESCRIPTION_REQUIRED := "description is required"

  /** The body of `ticket_stats`, without `avg_tickets_per_day`. */
  datatype Stats = Stats(
    totalTickets: nat,
    openTickets: nat,
    priorityBreakdown: map<string, nat>,
    categoryBreakdown: map<string, nat>)

  datatype Body =
    | TicketBody(ticket: Ticket)
    | ListBody(tickets: seq<Ticket>)
    | ErrorsBody(errors: map<string, seq<string>>)
    | ErrorBody(error: string)
    | StatsBody(stats: Stats)
    | SuggestionBody(suggestion: Llm.Suggestion)

  datatype Response = Response(status: int, body: Body)

  // ---------------------------------------------------------------------
  // GET /api/tickets/: the filter

  /** `request.query_params.get(key)`, with a missing key read as the empty
      string: `if value:` treats both alike. */
  function Param(params: map<string, string>, key: string): string {
    if key in params then params[key] else ""
  }

  /** The reference meaning of the query: every non-empty parameter is a
      constraint, exact for the three choice fields and a case-insensitive
      substring of the title or the description for `search`. */
  predicate Matches(t: Ticket, params: map<string, string>) {
    && CategoryOk(t, Param(params, "category"))
    && PriorityOk(t, Param(params, "priority"))
    && StatusOk(t, Param(params, "status"))
    && SearchOk(t, Param(params, "search"))
  }

  predicate CategoryOk(t: Ticket, v: string) { v == "" || CategoryName(t.category) == v }
  predicate PriorityOk(t: Ticket, v: string) { v == "" || PriorityName(t.priority) == v }
  predicate StatusOk(t: Ticket, v: string) { v == "" || StatusName(t.status) == v }
  predicate SearchOk(t: Ticket, v: string) { v == "" || IContains(t.title, v) || IContains(t.description, v) }

  /** The rows that match the query, in table order. */
  function Select(s: seq<Ticket>, params: map<string, string>): seq<Ticket> {
    if s == [] then []
    else if Matches(s[0], params) then [s[0]] + Select(s[1..], params)
    else Select(s[1..], params)
  }

  /** One `qs.filter(...)` step. */
  datatype Criterion = CategoryIs(category: string) | PriorityIs(priority: string)
                     | StatusIs(status: string) | Mentions(search: string)

  predicate Holds(c: Criterion, t: Ticket) {
    match c
    case CategoryIs(v) => CategoryName(t.category) == v
    case PriorityIs(v) => PriorityName(t.priority) == v
    case StatusIs(v) => StatusName(t.status) == v
    case Mentions(v) => IContains(t.title, v) || IContains(t.description, v)
  }

  /** `qs.filter(...)`: keeps the rows that satisfy one criterion, in order. */
  function Where(s: seq<Ticket>, c: Criterion): seq<Ticket> {
    if s == [] then []
    else if Holds(c, s[0]) then [s[0]] + Where(s[1..], c)
    else Where(s[1..], c)
  }

  predicate AllHold(cs: seq<Criterion>, t: Ticket) {
    forall i :: 0 <= i < |cs| ==> Holds(cs[i], t)
  }

  /** The rows satisfying every criterion applied so far. */
  function SelectAll(s: seq<Ticket>, cs: seq<Criterion>): seq<Ticket> {
    if s == [] then []
    else if AllHold(cs, s[0]) then [s[0]] + SelectAll(s[1..], cs)
    else SelectAll(s[1..], cs)
  }

  lemma {:induction false} SelectAllNone(s: seq<Ticket>)
    ensures SelectAll(s, []) == s
  {
    if s != [] {
      SelectAllNone(s[1..]);
    }
  }

  /** One more criterion holds together with the earlier ones. */
  lemma AllHoldSnoc(cs: seq<Criterion>, c: Criterion, t: Ticket)
    ensures AllHold(cs + [c], t) <==> AllHold(cs, t) && Holds(c, t)
  {
    assert (cs + [c])[|cs|] == c;
    assert forall i :: 0 <= i < |cs| ==> (cs + [c])[i] == cs[i];
  }

  /** Narrowing a narrowed query is narrowing by both. */
  lemma {:induction false} WhereNarrows(s: seq<Ticket>, cs: seq<Criterion>, c: Criterion)
    ensures Where(SelectAll(s, cs), c) == SelectAll(s, cs + [c])
  {
    if s != [] {
      WhereNarrows(s[1..], cs, c);
      AllHoldSnoc(cs, c, s[0]);
    }
  }

  /** Applying one more criterion, stated for the whole table at once. */
  lemma Narrow(cs: seq<Criterion>, c: Criterion)
    ensures forall s :: Where(SelectAll(s, cs), c) == SelectAll(s, cs + [c])
    ensures forall t :: AllHold(cs + [c], t) <==> AllHold(cs, t) && Holds(c, t)
  {
    forall s: seq<Ticket> ensures Where(SelectAll(s, cs), c) == SelectAll(s, cs + [c]) {
      WhereNarrows(s, cs, c);
    }
    forall t ensures AllHold(cs + [c], t) <==> AllHold(cs, t) && Holds(c, t) {
      AllHoldSnoc(cs, c, t);
    }
  }

  /** Two conditions that agree on every row select the same rows. */
  lemma {:induction false} SelectAllIsSelect(s: seq<Ticket>, cs: seq<Criterion>, params: map<string, string>)
    requires forall t :: AllHold(cs, t) <==> Matches(t, params)
    ensures SelectAll(s, cs) == Select(s, params)
  {
    if s != [] {
      SelectAllIsSelect(s[1..], cs, params);
    }
  }

  /** A row is listed exactly when it is stored and matches the query. */
  lemma {:induction false} SelectMembership(s: seq<Ticket>, params: map<string, string>, t: Ticket)
    ensures t in Select(s, params) <==> t in s && Matches(t, params)
  {
    if s != [] {
      SelectMembership(s[1..], params, t);
      assert s == [s[0]] + s[1..];
    }
  }

  /** `a` is `b` with some rows left out, the rest in the same order. */
  predicate IsSubsequence(a: seq<Ticket>, b: seq<Ticket>)
    decreases |b|
  {
    if a == [] then true
    else if b == [] then false
    else if a[0] == b[0] then IsSubsequence(a[1..], b[1..])
    else IsSubsequence(a, b[1..])
  }

  lemma {:induction false} SelectIsSubsequence(s: seq<Ticket>, params: map<string, string>)
    ensures IsSubsequence(Select(s, params), s)
  {
    if s != [] {
      SelectIsSubsequence(s[1..], params);
      var r := Select(s[1..], params);
      if Matches(s[0], params) {
        assert ([s[0]] + r)[1..] == r;
      } else {
        SubsequenceSkip(r, s);
      }
    }
  }

  /** A subsequence of the tail is one of the whole. */
  lemma {:induction false} SubsequenceSkip(a: seq<Ticket>, b: seq<Ticket>)
    requires b != [] && IsSubsequence(a, b[1..])
    ensures IsSubsequence(a, b)
    decreases |a| + |b|
  {
    if a != [] && a[0] == b[0] {
      SubsequenceTail(a, b[1..]);
    }
  }

  /** Leaving out the first row of a subsequence keeps it a subsequence. */
  lemma {:induction false} SubsequenceTail(a: seq<Ticket>, c: seq<Ticket>)
    requires a != [] && IsSubsequence(a, c)
    ensures IsSubsequence(a[1..], c)
    decreases |a| + |c|
  {
    if a[0] == c[0] {
      SubsequenceSkip(a[1..], c);
    } else {
      SubsequenceTail(a, c[1..]);
      SubsequenceSkip(a[1..], c);
    }
  }

  /** The listing keeps the newest-first order of the table. */
  lemma {:induction false} SelectKeepsOrder(s: seq<Ticket>, params: map<string, string>)
    requires NewestFirst(s)
    ensures NewestFirst(Select(s, params))
  {
    if s != [] {
      SelectKeepsOrder(s[1..], params);
      var r := Select(s[1..], params);
      if Matches(s[0], params) {
        forall u | u in r ensures u.createdAt <= s[0].createdAt {
          SelectMembership(s[1..], params, u);
          var k :| 0 <= k < |s[1..]| && s[1..][k] == u;
          assert s[k + 1] == u;
        }
        PrependNewest(s[0], r);
      }
    }
  }

  /** An empty parameter is the same as an absent one. */
  lemma {:induction false} EmptyParamIsAbsent(s: seq<Ticket>, params: map<string, string>, key: string)
    ensures Select(s, params[key := ""]) == Select(s, params - {key})
  {
    if s != [] {
      EmptyParamIsAbsent(s[1..], params, key);
      assert Matches(s[0], params[key := ""]) == Matches(s[0], params - {key}) by {
        assert forall k :: Param(params[key := ""], k) == Param(params - {key}, k);
      }
    }
  }

  /** With no effective parameter every row is listed. */
  lemma {:induction false} NoParamsListsAll(s: seq<Ticket>, params: map<string, string>)
    requires Param(params, "category") == "" && Param(params, "priority") == ""
    requires Param(params, "status") == "" && Param(params, "search") == ""
    ensures Select(s, params) == s
  {
    if s != [] {
      NoParamsListsAll(s[1..], params);
    }
  }

  /** A category parameter that names no declared choice selects nothing:
      the filter is an exact match against stored values. */
  lemma {:induction false} UnknownCategorySelectsNothing(s: seq<Ticket>, params: map<string, string>)
    requires Param(params, "category") != "" && Param(params, "category") !in CATEGORY_CHOICES
    ensures Select(s, params) == []
  {
    if s != [] {
      ChoicesRoundTrip(s[0].category, s[0].priority, s[0].status);
      UnknownCategorySelectsNothing(s[1..], params);
    }
  }

  // ---------------------------------------------------------------------
  // GET /api/tickets/stats/: counting

  /** How many entries of `xs` equal `k`. */
  function Occurrences(xs: seq<string>, k: string): nat {
    if xs == [] then 0 else (if xs[0] == k then 1 else 0) + Occurrences(xs[1..], k)
  }

  /** The `priority` column, in table order. */
  function PriorityColumn(s: seq<Ticket>): (r: seq<string>)
    ensures |r| == |s| && forall i :: 0 <= i < |s| ==> r[i] == PriorityName(s[i].priority)
  {
    if s == [] then [] else [PriorityName(s[0].priority)] + PriorityColumn(s[1..])
  }

  /** The `category` column, in table order. */
  function CategoryColumn(s: seq<Ticket>): (r: seq<string>)
    ensures |r| == |s| && forall i :: 0 <= i < |s| ==> r[i] == CategoryName(s[i].category)
  {
    if s == [] then [] else [CategoryName(s[0].category)] + CategoryColumn(s[1..])
  }

  /** The `status` column, in table order. */
  function StatusColumn(s: seq<Ticket>): (r: seq<string>)
    ensures |r| == |s| && forall i :: 0 <= i < |s| ==> r[i] == StatusName(s[i].status)
  {
    if s == [] then [] else [StatusName(s[0].status)] + StatusColumn(s[1..])
  }

  /** Every stored priority is one of the four choices, so the four
      priority counts add up to the number of rows. */
  lemma {:induction false} PriorityCountsSum(s: seq<Ticket>)
    ensures Occurrences(PriorityColumn(s), "low") + Occurrences(PriorityColumn(s), "medium")
          + Occurrences(PriorityColumn(s), "high") + Occurrences(PriorityColumn(s), "critical") == |s|
  {
    if s != [] {
      PriorityCountsSum(s[1..]);
      assert PriorityColumn(s)[1..] == PriorityColumn(s[1..]);
    }
  }

  /** The same for the four category counts. */
  lemma {:induction false} CategoryCountsSum(s: seq<Ticket>)
    ensures Occurrences(CategoryColumn(s), "billing") + Occurrences(CategoryColumn(s), "technical")
          + Occurrences(CategoryColumn(s), "account") + Occurrences(CategoryColumn(s), "general") == |s|
  {
    if s != [] {
      CategoryCountsSum(s[1..]);
      assert CategoryColumn(s)[1..] == CategoryColumn(s[1..]);
    }
  }

  lemma {:induction false} OccursIffCounted(xs: seq<string>, k: string)
    ensures k in xs <==> Occurrences(xs, k) > 0
  {
    if xs != [] {
      OccursIffCounted(xs[1..], k);
      assert xs == [xs[0]] + xs[1..];
    }
  }

  lemma OccurrencesAppend(xs: seq<string>, x: string, k: string)
    ensures Occurrences(xs + [x], k) == Occurrences(xs, k) + (if x == k then 1 else 0)
  {
    if xs != [] {
      OccurrencesAppend(xs[1..], x, k);
      assert (xs + [x])[1..] == xs[1..] + [x];
    }
  }

  /** `.values(col).annotate(count=Count('id'))` read into a dict: one key
      per value present in the column, mapped to its number of rows. */
  method GroupCount(column: seq<string>) returns (m: map<string, nat>)
    ensures forall k :: k in m <==> k in column
    ensures forall k :: k in m ==> m[k] == Occurrences(column, k)
  {
    m := map[];
    var i := 0;
    while i < |column|
      invariant 0 <= i <= |column|
      invariant forall k :: k in m <==> k in column[..i]
      invariant forall k :: k in m ==> m[k] == Occurrences(column[..i], k)
    {
      var v := column[i];
      assert column[..i + 1] == column[..i] + [v];
      forall k ensures Occurrences(column[..i + 1], k) == Occurrences(column[..i], k) + (if v == k then 1 else 0) {
        OccurrencesAppend(column[..i], v, k);
      }
      if v in m {
        m := m[v := m[v] + 1];
      } else {
        OccursIffCounted(column[..i], v);
        m := m[v := 1];
      }
      i := i + 1;
    }
    assert column[..i] == column;
  }

  /** The `setdefault(key, 0)` loop: every listed key gets an entry, and
      existing entries keep their counts. */
  method SetDefaults(m: map<string, nat>, keys: seq<string>) returns (r: map<string, nat>)
    ensures forall k :: k in r <==> k in m || k in keys
    ensures forall k :: k in m ==> r[k] == m[k]
    ensures forall k :: k in keys && k !in m ==> r[k] == 0
  {
    r := m;
    for i := 0 to |keys|
      invariant forall k :: k in r <==> k in m || k in keys[..i]
      invariant forall k :: k in m ==> r[k] == m[k]
      invariant forall k :: k in keys[..i] && k !in m ==> r[k] == 0
    {
      assert keys[..i + 1] == keys[..i] + [keys[i]];
      if keys[i] !in r {
        r := r[keys[i] := 0];
      }
    }
    assert keys[..|keys|] == keys;
  }

  /** A zero-filled breakdown of a column: one entry per declared choice,
      holding the number of rows with that value. */
  ghost predicate IsBreakdown(m: map<string, nat>, column: seq<string>, choices: seq<string>) {
    && (forall k :: k in m <==> k in choices)
    && (forall k :: k in m ==> m[k] == Occurrences(column, k))
  }

  /** Lines 102-110 (and 113-121): group, count, then fill in the missing
      choices with zero. */
  method Breakdown(column: seq<string>, choices: seq<string>) returns (m: map<string, nat>)
    requires forall i :: 0 <= i < |column| ==> column[i] in choices
    ensures IsBreakdown(m, column, choices)
  {
    var grouped := GroupCount(column);
    m := SetDefaults(grouped, choices);
    forall k | k in m && k !in grouped ensures m[k] == Occurrences(column, k) {
      OccursIffCounted(column, k);
    }
  }

  /** Stored values are always declared choices. */
  lemma ColumnsHoldChoices(s: seq<Ticket>)
    ensures forall i :: 0 <= i < |s| ==> PriorityColumn(s)[i] in PRIORITY_CHOICES
    ensures forall i :: 0 <= i < |s| ==> CategoryColumn(s)[i] in CATEGORY_CHOICES
  {
    forall i | 0 <= i < |s|
      ensures PriorityColumn(s)[i] in PRIORITY_CHOICES && CategoryColumn(s)[i] in CATEGORY_CHOICES
    {
      ChoicesRoundTrip(s[i].category, s[i].priority, s[i].status);
    }
  }

  // ---------------------------------------------------------------------
  // POST /api/tickets/classify/

  /** The blank-description guard in front of `classify_ticket`. A missing
      `description` key reads as the empty string. */
  function ClassifyView(description: Option<string>, apiKey: string, reply: Llm.ClientReply,
                        decode: string -> Option<Llm.Json>): (r: Response)
    ensures var d := if description.Some? then description.value else "";
      && (Trim(Python, d) == [] ==> r == Response(HTTP_400_BAD_REQUEST, ErrorBody(DESCRIPTION_REQUIRED)))
      && (Trim(Python, d) != [] ==>
            && r.status == HTTP_200_OK && r.body.SuggestionBody?
            && r.body.suggestion.category in Llm.VALID_CATEGORIES
            && r.body.suggestion.priority in Llm.VALID_PRIORITIES
            && r.body == SuggestionBody(Llm.ClassifyTicket(apiKey, reply, decode)))
  {
    var d := if description.Some? then description.value else "";
    if Trim(Python, d) == [] then Response(HTTP_400_BAD_REQUEST, ErrorBody(DESCRIPTION_REQUIRED))
    else Response(HTTP_200_OK, SuggestionBody(Llm.ClassifyTicket(apiKey, reply, decode)))
  }

  // ---------------------------------------------------------------------
  // Lookup by primary key

  /** `Ticket.objects.get(pk=pk)`: the position of the row with that key. */
  function FindById(s: seq<Ticket>, pk: int): (r: Option<nat>)
    ensures r.Some? ==> r.value < |s| && s[r.value].id == pk
    ensures r.None? ==> forall i :: 0 <= i < |s| ==> s[i].id != pk
  {
    if s == [] then None
    else if s[0].id == pk then Some(0)
    else match FindById(s[1..], pk)
      case None => None
      case Some(i) => Some(i + 1)
  }

  predicate IdsDistinct(s: seq<Ticket>) {
    forall i, j :: 0 <= i < j < |s| ==> s[i].id != s[j].id
  }

  /** Inserting a row with a key not yet used keeps the keys distinct. */
  lemma {:induction false} InsertKeepsIdsDistinct(s: seq<Ticket>, t: Ticket)
    requires IdsDistinct(s) && forall u :: u in s ==> u.id != t.id
    ensures IdsDistinct(InsertNewestFirst(s, t))
  {
    var r := InsertNewestFirst(s, t);
    if s == [] || t.createdAt >= s[0].createdAt {
      assert forall j :: 1 <= j < |r| ==> r[j] == s[j - 1];
    } else {
      var rest := InsertNewestFirst(s[1..], t);
      InsertKeepsIdsDistinct(s[1..], t);
      forall u | u in rest ensures u.id != s[0].id {
        assert u in multiset(rest);
        if u != t {
          var k :| 0 <= k < |s[1..]| && s[1..][k] == u;
          assert s[k + 1] == u;
        }
      }
      assert forall j :: 1 <= j < |r| ==> r[j] == rest[j - 1];
      assert forall j :: 1 <= j < |r| ==> r[j] in rest;
    }
  }

  class TicketStore {
    /** The rows, in `Meta.ordering` order. */
    var tickets: seq<Ticket>
    /** The next auto-increment primary key. */
    var nextId: nat

    ghost predicate Valid()
      reads this
    {
      && NewestFirst(tickets)
      && IdsDistinct(tickets)
      && (forall i :: 0 <= i < |tickets| ==> WellFormed(tickets[i]) && tickets[i].id < nextId)
    }

    constructor ()
      ensures Valid() && tickets == [] && nextId == 1
    {
      tickets := [];
      nextId := 1;
    }

    /** GET `ticket_list_create`: the four optional filters applied one after
        the other, as the view narrows `qs`. */
    method List(params: map<string, string>) returns (resp: Response)
      ensures resp == Response(HTTP_200_OK, ListBody(Select(tickets, params)))
    {
      var qs := tickets;
      ghost var applied: seq<Criterion> := [];
      SelectAllNone(tickets);
      var category := Param(params, "category");
      var priority := Param(params, "priority");
      var statusFilter := Param(params, "status");
      var search := Param(params, "search");
      if category != "" {
        Narrow(applied, CategoryIs(category));
        qs := Where(qs, CategoryIs(category));
        applied := applied + [CategoryIs(category)];
      }
      assert forall t :: AllHold(applied, t) <==> CategoryOk(t, category);
      if priority != "" {
        Narrow(applied, PriorityIs(priority));
        qs := Where(qs, PriorityIs(priority));
        applied := applied + [PriorityIs(priority)];
      }
      assert forall t :: AllHold(applied, t) <==> CategoryOk(t, category) && PriorityOk(t, priority);
      if statusFilter != "" {
        Narrow(applied, StatusIs(statusFilter));
        qs := Where(qs, StatusIs(statusFilter));
        applied := applied + [StatusIs(statusFilter)];
      }
      assert forall t :: AllHold(applied, t) <==>
        CategoryOk(t, category) && PriorityOk(t, priority) && StatusOk(t, statusFilter);
      if search != "" {
        Narrow(applied, Mentions(search));
        qs := Where(qs, Mentions(search));
        applied := applied + [Mentions(search)];
      }
      SelectAllIsSelect(tickets, applied, params);
      resp := Response(HTTP_200_OK, ListBody(qs));
    }

    /** POST `ticket_list_create`: a valid body becomes a new row with a
        fresh key, the model defaults and the current time; an invalid one
        is answered with the field errors and nothing is stored. */
    method Create(data: TicketData, now: int) returns (resp: Response)
      requires Valid()
      modifies this
      ensures Valid()
      ensures Validate(data, false).Success? ==>
        var t := NewTicket(old(nextId), Validate(data, false).value, now);
        && tickets == InsertNewestFirst(old(tickets), t)
        && nextId == old(nextId) + 1
        && resp == Response(HTTP_201_CREATED, TicketBody(t))
      ensures Validate(data, false).Failure? ==>
        && tickets == old(tickets) && nextId == old(nextId)
        && resp == Response(HTTP_400_BAD_REQUEST, ErrorsBody(Validate(data, false).error))
    {
      match Validate(data, false)
      case Failure(errors) =>
        resp := Response(HTTP_400_BAD_REQUEST, ErrorsBody(errors));
      case Success(ch) =>
        ValidatedFitsModel(data, false);
        var t := NewTicket(nextId, ch, now);
        assert forall u :: u in tickets ==> u.id != t.id;
        InsertKeepsNewestFirst(tickets, t);
        InsertKeepsIdsDistinct(tickets, t);
        var stored := InsertNewestFirst(tickets, t);
        forall i | 0 <= i < |stored| ensures WellFormed(stored[i]) && stored[i].id < nextId + 1 {
          assert stored[i] in multiset(stored);
        }
        tickets := stored;
        nextId := nextId + 1;
        resp := Response(HTTP_201_CREATED, TicketBody(t));
    }

    /** PATCH `ticket_detail`: an unknown key is answered 404 and an invalid
        body 400, both without change; otherwise only the supplied fields of
        that one row are overwritten. */
    method Patch(pk: int, data: TicketData) returns (resp: Response)
      requires Valid()
      modifies this
      ensures Valid() && nextId == old(nextId)
      ensures FindById(old(tickets), pk).None? ==>
        tickets == old(tickets) && resp == Response(HTTP_404_NOT_FOUND, ErrorBody(TICKET_NOT_FOUND))
      ensures FindById(old(tickets), pk).Some? && Validate(data, true).Failure? ==>
        tickets == old(tickets) && resp == Response(HTTP_400_BAD_REQUEST, ErrorsBody(Validate(data, true).error))
      ensures FindById(old(tickets), pk).Some? && Validate(data, true).Success? ==>
        var i := FindById(old(tickets), pk).value;
        var updated := ApplyChanges(old(tickets)[i], Validate(data, true).value);
        tickets == old(tickets)[i := updated] && resp == Response(HTTP_200_OK, TicketBody(updated))
    {
      match FindById(tickets, pk)
      case None =>
        resp := Response(HTTP_404_NOT_FOUND, ErrorBody(TICKET_NOT_FOUND));
      case Some(i) =>
        match Validate(data, true)
        case Failure(errors) =>
          resp := Response(HTTP_400_BAD_REQUEST, ErrorsBody(errors));
        case Success(ch) =>
          ValidatedFitsModel(data, true);
          var updated := ApplyChanges(tickets[i], ch);
          tickets := tickets[i := updated];
          resp := Response(HTTP_200_OK, TicketBody(updated));
    }

    /** GET `ticket_stats`: the two totals and the two zero-filled
        breakdowns. */
    method GetStats() returns (resp: Response)
      ensures resp.status == HTTP_200_OK && resp.body.StatsBody?
      ensures var st := resp.body.stats;
        && st.totalTickets == |tickets|
        && st.openTickets == Occurrences(StatusColumn(tickets), "open")
        && IsBreakdown(st.priorityBreakdown, PriorityColumn(tickets), PRIORITY_CHOICES)
        && IsBreakdown(st.categoryBreakdown, CategoryColumn(tickets), CATEGORY_CHOICES)
    {
      var total := |tickets|;
      var openCount := Occurrences(StatusColumn(tickets), "open");
      ColumnsHoldChoices(tickets);
      var priorityBreakdown := Breakdown(PriorityColumn(tickets), PRIORITY_CHOICES);
      var categoryBreakdown := Breakdown(CategoryColumn(tickets), CATEGORY_CHOICES);
      resp := Response(HTTP_200_OK, StatsBody(Stats(total, openCount, priorityBreakdown, categoryBreakdown)));
    }
  }

  lemma BreakdownLookup(m: map<string, nat>, column: seq<string>, choices: seq<string>, i: nat)
    requires IsBreakdown(m, column, choices) && i < |choices|
    ensures choices[i] in m && m[choices[i]] == Occurrences(column, choices[i])
  {
  }

  /** The priority breakdown adds up to the total: every row is counted
      under exactly one of the four priorities. */
  lemma {:induction false} PriorityBreakdownSum(s: seq<Ticket>, m: map<string, nat>)
    requires IsBreakdown(m, PriorityColumn(s), PRIORITY_CHOICES)
    ensures "low" in m && "medium" in m && "high" in m && "critical" in m
    ensures m["low"] + m["medium"] + m["high"] + m["critical"] == |s|
  {
    var c := PriorityColumn(s);
    BreakdownLookup(m, c, PRIORITY_CHOICES, 0);
    BreakdownLookup(m, c, PRIORITY_CHOICES, 1);
    BreakdownLookup(m, c, PRIORITY_CHOICES, 2);
    BreakdownLookup(m, c, PRIORITY_CHOICES, 3);
    PriorityCountsSum(s);
  }

  /** The category breakdown adds up to the total in the same way. */
  lemma {:induction false} CategoryBreakdownSum(s: seq<Ticket>, m: map<string, nat>)
    requires IsBreakdown(m, CategoryColumn(s), CATEGORY_CHOICES)
    ensures "billing" in m && "technical" in m && "account" in m && "general" in m
    ensures m["billing"] + m["technical"] + m["account"] + m["general"] == |s|
  {
    var c := CategoryColumn(s);
    BreakdownLookup(m, c, CATEGORY_CHOICES, 0);
    BreakdownLookup(m, c, CATEGORY_CHOICES, 1);
    BreakdownLookup(m, c, CATEGORY_CHOICES, 2);
    BreakdownLookup(m, c, CATEGORY_CHOICES, 3);
    CategoryCountsSum(s);
  }
}
