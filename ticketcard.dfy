/** One ticket in the list (frontend/src/components/TicketCard.js): the
    description preview, the status select and its pending flag. The PATCH
    request goes out through `api.updateTicket`, which parses whatever body
    comes back without looking at the status code, so a refused update still
    reaches `onUpdated` with the error body. */
module TicketCardComponent {
  import opened Common
  import opened Models
  import opened Serializers
  import Views

  /** The options of the status select, in display order. */
  const STATUS_ORDER: seq<string> := ["open", "in_progress", "resolved", "closed"]

  /** The preview length of the description. */
  const PREVIEW_LENGTH := 150
  const ELLIPSIS := "..."

  /** The select offers exactly the statuses the model declares, in the
      model's own order. */
  lemma StatusOrderIsModelOrder()
    ensures STATUS_ORDER == STATUS_CHOICES
    ensures forall s :: s in STATUS_ORDER <==> ParseStatus(s).Some?
  {
  }

  /** `str.slice(0, n) + '...'` for strings longer than `n`. */
  function Truncate(s: string, n: nat): (r: string)
    ensures |s| <= n ==> r == s
    ensures |s| > n ==> |r| == n + |ELLIPSIS| && r[n..] == ELLIPSIS
    ensures r[..if |s| < n then |s| else n] == s[..if |s| < n then |s| else n]
  {
    if |s| > n then s[..n] + ELLIPSIS else s
  }

  /** A preview never runs past 153 characters. */
  lemma PreviewBounded(s: string)
    ensures |Truncate(s, PREVIEW_LENGTH)| <= PREVIEW_LENGTH + |ELLIPSIS|
  {
  }

  /** Nothing is lost from a description that fits, and a longer one is
      shown as its first 150 characters followed by the ellipsis. */
  lemma {:induction false} PreviewShowsPrefix(s: string)
    ensures |s| <= PREVIEW_LENGTH ==> Truncate(s, PREVIEW_LENGTH) == s
    ensures |s| > PREVIEW_LENGTH ==> Truncate(s, PREVIEW_LENGTH) == s[..PREVIEW_LENGTH] + ELLIPSIS
  {
    if |s| > PREVIEW_LENGTH {
      var r := Truncate(s, PREVIEW_LENGTH);
      assert r[..PREVIEW_LENGTH] == s[..PREVIEW_LENGTH];
      assert r == r[..PREVIEW_LENGTH] + r[PREVIEW_LENGTH..];
    }
  }

  /** `s.indexOf(c)`: the first position holding `c`, if any. */
  function IndexOf(s: string, c: char): (r: Option<nat>)
    ensures r.None? <==> c !in s
    ensures r.Some? ==> r.value < |s| && s[r.value] == c && c !in s[..r.value]
  {
    if s == [] then None
    else if s[0] == c then Some(0)
    else
      match IndexOf(s[1..], c)
      case None => None
      case Some(i) =>
        assert s[..i + 1] == [s[0]] + s[1..][..i];
        Some(i + 1)
  }

  /** `s.replace('_', ' ')`: a string pattern replaces the first match only. */
  function OptionLabel(s: string): (r: string)
    ensures |r| == |s|
    ensures '_' !in s ==> r == s
    ensures '_' in s ==>
      exists i :: (0 <= i < |s| && s[i] == '_' && r[i] == ' '
                   && r[..i] == s[..i] && r[i + 1..] == s[i + 1..] && '_' !in s[..i])
  {
    match IndexOf(s, '_')
    case None => s
    case Some(i) =>
      var r := s[..i] + " " + s[i + 1..];
      assert r[..i] == s[..i] && r[i + 1..] == s[i + 1..];
      r
  }

  /** Statuses without an underscore are shown as stored. */
  lemma PlainStatusLabels()
    ensures OptionLabel("open") == "open"
    ensures OptionLabel("resolved") == "resolved"
    ensures OptionLabel("closed") == "closed"
  {
  }

  /** `in_progress` is shown as "in progress". */
  lemma {:induction false} InProgressLabel()
    ensures OptionLabel("in_progress") == "in progress"
  {
    var s := "in_progress";
    assert s[0] == 'i' && s[1] == 'n' && s[2] == '_';
    assert IndexOf(s, '_') == Some(2) by {
      assert s[1..][1..] == s[2..];
      assert IndexOf(s[2..], '_') == Some(0);
    }
    assert s[..2] + " " + s[3..] == "in progress";
  }

  /** `api.updateTicket(id, data)` as a value: the ticket key and the body. */
  datatype PatchRequest = PatchRequest(id: nat, data: TicketData)

  /** What `onUpdated` receives: the parsed body of the PATCH response,
      either a ticket or an error object without an `id` (the field errors
      of a 400, or the message of a 404). */
  datatype Payload = TicketPayload(ticket: Ticket) | ErrorPayload(error: Views.Body)

  /** The only body a status change sends: `{status: chosen}`. */
  function StatusOnly(chosen: string): (d: TicketData)
    ensures d.status == Some(chosen)
    ensures d.id.None? && d.title.None? && d.description.None? && d.category.None?
    ensures d.priority.None? && d.createdAt.None?
  {
    TicketData(None, None, None, None, None, Some(chosen), None)
  }

  /** A status picked from the select always passes the partial update's
      checks and changes nothing but the status. */
  lemma StatusChangeAccepted(chosen: string)
    requires chosen in STATUS_ORDER
    ensures Validate(StatusOnly(chosen), true).Success?
    ensures Validate(StatusOnly(chosen), true).value
         == Changes(None, None, None, None, ParseStatus(chosen))
  {
  }

  class TicketCard {
    /** The `ticket` prop: the card does not change it. */
    const ticket: Ticket
    /** `updating`: the select is disabled while a PATCH is in flight. */
    var updating: bool

    constructor (t: Ticket)
      ensures ticket == t && !updating
    {
      ticket := t;
      updating := false;
    }

    /** The start of `handleStatusChange`, which the disabled select cannot
        trigger while a PATCH is in flight: the select is disabled and a
        PATCH carrying only the chosen status goes out for this ticket. */
    method BeginStatusChange(chosen: string) returns (req: PatchRequest)
      requires !updating
      modifies this
      ensures updating
      ensures req == PatchRequest(ticket.id, StatusOnly(chosen))
    {
      updating := true;
      req := PatchRequest(ticket.id, StatusOnly(chosen));
    }

    /** The end of `handleStatusChange`: whatever body comes back is passed
        to `onUpdated`; a request that fails outright passes nothing (the
        rejection propagates); either way `finally` enables the select. */
    method FinishStatusChange(outcome: Fetch<Ticket, Views.Body>) returns (notified: Option<Payload>)
      modifies this
      ensures !updating
      ensures outcome.Ok? ==> notified == Some(TicketPayload(outcome.body))
      ensures outcome.Rejected? ==> notified == Some(ErrorPayload(outcome.reason))
      ensures outcome.NetworkFail? ==> notified.None?
    {
      match outcome {
        case Ok(t) => notified := Some(TicketPayload(t));
        case Rejected(e) => notified := Some(ErrorPayload(e));
        case NetworkFail => notified := None;
      }
      updating := false;
    }
  }
}
