/** The `Ticket` record of backend/tickets/models.py: three closed choice
    enums with their stored names, the field defaults, the 200-character
    title cap, the newest-first default ordering and `__str__`. */
module Models {
  import opened Common
  import opened Text

  datatype Category = Billing | Technical | Account | General
  datatype Priority = Low | Medium | High | Critical
  datatype Status = Open | InProgress | Resolved | Closed

  /** The stored values of `CATEGORY_CHOICES`, in declaration order. */
  const CATEGORY_CHOICES: seq<string> := ["billing", "technical", "account", "general"]
  /** The stored values of `PRIORITY_CHOICES`, in declaration order. */
  const PRIORITY_CHOICES: seq<string> := ["low", "medium", "high", "critical"]
  /** The stored values of `STATUS_CHOICES`, in declaration order. */
  const STATUS_CHOICES: seq<string> := ["open", "in_progress", "resolved", "closed"]

  const DEFAULT_CATEGORY: Category := General
  const DEFAULT_PRIORITY: Priority := Medium
  const DEFAULT_STATUS: Status := Open

  /** `title = models.CharField(max_length=200)`. */
  const MAX_TITLE_LENGTH := 200

  function CategoryName(c: Category): string {
    match c
    case Billing => "billing"
    case Technical => "technical"
    case Account => "account"
    case General => "general"
  }

  function PriorityName(p: Priority): string {
    match p
    case Low => "low"
    case Medium => "medium"
    case High => "high"
    case Critical => "critical"
  }

  function StatusName(s: Status): string {
    match s
    case Open => "open"
    case InProgress => "in_progress"
    case Resolved => "resolved"
    case Closed => "closed"
  }

  /** The choice whose stored value is `s`, if any. */
  function ParseCategory(s: string): (r: Option<Category>)
    ensures r.Some? ==> CategoryName(r.value) == s
    ensures r.None? <==> s !in CATEGORY_CHOICES
  {
    if s == "billing" then Some(Billing)
    else if s == "technical" then Some(Technical)
    else if s == "account" then Some(Account)
    else if s == "general" then Some(General)
    else None
  }

  function ParsePriority(s: string): (r: Option<Priority>)
    ensures r.Some? ==> PriorityName(r.value) == s
    ensures r.None? <==> s !in PRIORITY_CHOICES
  {
    if s == "low" then Some(Low)
    else if s == "medium" then Some(Medium)
    else if s == "high" then Some(High)
    else if s == "critical" then Some(Critical)
    else None
  }

  function ParseStatus(s: string): (r: Option<Status>)
    ensures r.Some? ==> StatusName(r.value) == s
    ensures r.None? <==> s !in STATUS_CHOICES
  {
    if s == "open" then Some(Open)
    else if s == "in_progress" then Some(InProgress)
    else if s == "resolved" then Some(Resolved)
    else if s == "closed" then Some(Closed)
    else None
  }

  /** Every enum member is stored under one of the declared choices, and
      reading that value back gives the same member. */
  lemma ChoicesRoundTrip(c: Category, p: Priority, s: Status)
    ensures CategoryName(c) in CATEGORY_CHOICES && ParseCategory(CategoryName(c)) == Some(c)
    ensures PriorityName(p) in PRIORITY_CHOICES && ParsePriority(PriorityName(p)) == Some(p)
    ensures StatusName(s) in STATUS_CHOICES && ParseStatus(StatusName(s)) == Some(s)
  {
  }

  /** A stored row. `id` is the auto primary key; `createdAt` is the
      `auto_now_add` timestamp, written once when the row is inserted. */
  datatype Ticket = Ticket(
    id: nat,
    title: string,
    description: string,
    category: Category,
    priority: Priority,
    status: Status,
    createdAt: int)

  /** The column constraint on `title`. */
  predicate WellFormed(t: Ticket) {
    |t.title| <= MAX_TITLE_LENGTH
  }

  /** `Meta.ordering = ['-created_at']`: every query returns newest first. */
  predicate NewestFirst(s: seq<Ticket>) {
    forall i, j :: 0 <= i < j < |s| ==> s[i].createdAt >= s[j].createdAt
  }

  /** A new row placed where `ORDER BY created_at DESC` puts it: before the
      first row that is not newer than it. */
  function InsertNewestFirst(s: seq<Ticket>, t: Ticket): (r: seq<Ticket>)
    ensures multiset(r) == multiset(s) + multiset{t}
    ensures (s == [] || t.createdAt >= s[0].createdAt) ==> r == [t] + s
  {
    if s == [] || t.createdAt >= s[0].createdAt then
      [t] + s
    else
      assert s == [s[0]] + s[1..];
      [s[0]] + InsertNewestFirst(s[1..], t)
  }

  /** Inserting keeps the store in `Meta.ordering` order. */
  lemma {:induction false} InsertKeepsNewestFirst(s: seq<Ticket>, t: Ticket)
    requires NewestFirst(s)
    ensures NewestFirst(InsertNewestFirst(s, t))
  {
    if s == [] || t.createdAt >= s[0].createdAt {
      return;
    }
    var rest := InsertNewestFirst(s[1..], t);
    InsertKeepsNewestFirst(s[1..], t);
    forall u | u in rest ensures u.createdAt <= s[0].createdAt {
      assert u in multiset(rest);
    }
    PrependNewest(s[0], rest);
  }

  /** A row no older than every row of a newest-first sequence may lead it. */
  lemma PrependNewest(h: Ticket, s: seq<Ticket>)
    requires NewestFirst(s)
    requires forall u :: u in s ==> u.createdAt <= h.createdAt
    ensures NewestFirst([h] + s)
  {
    var r := [h] + s;
    forall i, j | 0 <= i < j < |r| ensures r[i].createdAt >= r[j].createdAt {
      if i == 0 {
        assert r[j] == s[j - 1];
        assert r[j] in s;
      } else {
        assert r[i] == s[i - 1] && r[j] == s[j - 1];
      }
    }
  }

  /** `__str__`: `"[" + priority.upper() + "] " + title`. */
  function Str(t: Ticket): (r: string)
    ensures |r| >= |t.title| + 3
    ensures r[..1] == "[" && r[|r| - |t.title|..] == t.title
    ensures var tag := r[1..|r| - |t.title| - 2];
      && r[|tag| + 1..|tag| + 3] == "] " && ParsePriority(Lower(tag)) == Some(t.priority)
      && forall i :: 0 <= i < |tag| ==> !('a' <= tag[i] <= 'z')
  {
    var tag := Upper(PriorityName(t.priority));
    var r := "[" + tag + "] " + t.title;
    assert r[1..|r| - |t.title| - 2] == tag;
    LowerUpper(PriorityName(t.priority));
    r
  }
}
