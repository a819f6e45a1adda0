/** The root component of frontend/src/App.js: the loaded ticket list, the
    filter criteria and the key that remounts the stats dashboard. Requests
    are not performed here: `requests` records every `getTickets(filters)`
    call the component issues, in order, and `ReceiveTickets` delivers a
    response. */
module AppComponent {
  import opened Common
  import opened Models
  import opened FilterBarComponent
  import opened TicketCardComponent

  /** `prev.map(t => t.id === updated.id ? updated : t)`. */
  function ReplaceById(ts: seq<Ticket>, updated: Ticket): (r: seq<Ticket>)
    ensures |r| == |ts|
  {
    if ts == [] then []
    else [if ts[0].id == updated.id then updated else ts[0]] + ReplaceById(ts[1..], updated)
  }

  /** Every entry carrying the updated ticket's id becomes the updated
      ticket; every other entry stays as it was, in place. */
  lemma {:induction false} ReplaceByIdPointwise(ts: seq<Ticket>, updated: Ticket)
    ensures forall i :: 0 <= i < |ts| && ts[i].id == updated.id ==> ReplaceById(ts, updated)[i] == updated
    ensures forall i :: 0 <= i < |ts| && ts[i].id != updated.id ==> ReplaceById(ts, updated)[i] == ts[i]
  {
    if ts != [] {
      ReplaceByIdPointwise(ts[1..], updated);
      var r := ReplaceById(ts, updated);
      assert forall i :: 1 <= i < |ts| ==> r[i] == ReplaceById(ts[1..], updated)[i - 1];
    }
  }

  /** When no entry has the updated id the list is unchanged. */
  lemma {:induction false} ReplaceByIdNoMatch(ts: seq<Ticket>, updated: Ticket)
    requires forall t :: t in ts ==> t.id != updated.id
    ensures ReplaceById(ts, updated) == ts
  {
    if ts != [] {
      ReplaceByIdNoMatch(ts[1..], updated);
    }
  }

  /** Replacing leaves the sequence of ids as it was. */
  lemma ReplaceByIdKeepsIds(ts: seq<Ticket>, updated: Ticket)
    ensures forall i :: 0 <= i < |ts| ==> ReplaceById(ts, updated)[i].id == ts[i].id
  {
    ReplaceByIdPointwise(ts, updated);
  }

  /** Delivering the same update twice is delivering it once. */
  lemma ReplaceByIdIdempotent(ts: seq<Ticket>, updated: Ticket)
    ensures ReplaceById(ReplaceById(ts, updated), updated) == ReplaceById(ts, updated)
  {
    var r := ReplaceById(ts, updated);
    ReplaceByIdPointwise(ts, updated);
    ReplaceByIdPointwise(r, updated);
  }

  class App {
    var tickets: seq<Ticket>
    var filters: Filters
    /** `statsKey`: bumped to remount the stats dashboard. */
    var statsKey: nat
    /** The `getTickets` calls issued so far, each with the criteria it
        carried. */
    var requests: seq<Filters>

    /** The first render: empty state, and the mount effect fetches the
        unfiltered list. */
    constructor ()
      ensures tickets == [] && filters == map[] && statsKey == 0
      ensures requests == [map[]]
    {
      tickets := [];
      filters := map[];
      statsKey := 0;
      requests := [map[]];
    }

    /** `onChange` from the filter bar: new criteria, and since
        `fetchTickets` depends on them the effect fetches again. */
    method ChangeFilters(f: Filters)
      modifies this
      ensures filters == f && requests == old(requests) + [f]
      ensures tickets == old(tickets) && statsKey == old(statsKey)
    {
      filters := f;
      requests := requests + [f];
    }

    /** A control of the filter bar changed: `set(key, value)`. */
    method EditFilter(key: string, value: string)
      modifies this
      ensures filters == Set(old(filters), key, value)
      ensures requests == old(requests) + [filters]
      ensures tickets == old(tickets) && statsKey == old(statsKey)
    {
      ChangeFilters(Set(filters, key, value));
    }

    /** The Clear Filters button. */
    method ClearFilters()
      modifies this
      ensures filters == Clear() && requests == old(requests) + [Clear()]
      ensures tickets == old(tickets) && statsKey == old(statsKey)
    {
      ChangeFilters(Clear());
    }

    /** `.then(setTickets)`: a list response replaces the tickets. */
    method ReceiveTickets(list: seq<Ticket>)
      modifies this
      ensures tickets == list
      ensures filters == old(filters) && statsKey == old(statsKey) && requests == old(requests)
    {
      tickets := list;
    }

    /** `handleTicketCreated`: refetch with the current criteria and remount
        the dashboard. */
    method HandleTicketCreated()
      modifies this
      ensures statsKey == old(statsKey) + 1
      ensures requests == old(requests) + [old(filters)]
      ensures tickets == old(tickets) && filters == old(filters)
    {
      requests := requests + [filters];
      statsKey := statsKey + 1;
    }

    /** `handleTicketUpdated(updated)`: the entry with the same id is
        swapped for the response. An error body has no `id`, so it matches
        nothing. No refetch, no new criteria, no dashboard remount. */
    method HandleTicketUpdated(updated: Payload)
      modifies this
      ensures updated.TicketPayload? ==> tickets == ReplaceById(old(tickets), updated.ticket)
      ensures updated.ErrorPayload? ==> tickets == old(tickets)
      ensures filters == old(filters) && statsKey == old(statsKey) && requests == old(requests)
    {
      if updated.TicketPayload? {
        tickets := ReplaceById(tickets, updated.ticket);
      }
    }
  }
}
