/** The dashboard of frontend/src/components/StatsDashboard.js: one fetch
    on mount, a loading flag, and a bar per breakdown entry whose width
    grows ten pixels per ticket up to a cap. `App` remounts it (a fresh
    object) whenever `statsKey` changes. */
module StatsDashboardComponent {
  import opened Common

  /** Pixels per ticket, and the widest bar. */
  const PIXELS_PER_TICKET := 10
  const MAX_BAR_WIDTH := 200

  /** `Math.min(v * 10, 200)`. */
  function BarWidth(v: nat): (r: nat)
    ensures r <= MAX_BAR_WIDTH
    ensures r <= PIXELS_PER_TICKET * v
    ensures r == MAX_BAR_WIDTH || r == PIXELS_PER_TICKET * v
  {
    if v * PIXELS_PER_TICKET < MAX_BAR_WIDTH then v * PIXELS_PER_TICKET else MAX_BAR_WIDTH
  }

  /** Five tickets draw a 50-pixel bar; twenty or more draw the full 200. */
  lemma BarWidthExamples(v: nat)
    ensures BarWidth(5) == 50
    ensures v >= 20 ==> BarWidth(v) == MAX_BAR_WIDTH
    ensures v < 20 ==> BarWidth(v) == PIXELS_PER_TICKET * v
  {
  }

  /** More tickets never draw a shorter bar. */
  lemma BarWidthMonotone(v: nat, w: nat)
    requires v <= w
    ensures BarWidth(v) <= BarWidth(w)
  {
  }

  /** One `[k, v]` pair of `Object.entries(...)`. */
  datatype Entry = Entry(key: string, count: nat)

  /** The response fields the dashboard reads; the breakdowns as their
      entries, in the order the response lists them. */
  datatype Snapshot = Snapshot(
    totalTickets: nat,
    openTickets: nat,
    avgTicketsPerDay: string,
    priorityEntries: seq<Entry>,
    categoryEntries: seq<Entry>)

  /** What `getStats()` resolved to (the call does not look at the status
      code): a stats object, a falsy body (`null`, `false`, `0` or `""`),
      or some other truthy body without the breakdown objects. */
  datatype StatsReply = StatsOf(snapshot: Snapshot) | FalsyBody | OtherBody

  /** One `breakdown-item`: the label (its key), the bar width and the count. */
  datatype Row = Row(key: string, width: nat, count: nat)

  /** `Object.entries(breakdown).map(...)`: the priority and the category
      breakdowns are drawn by this same rule. */
  function Rows(entries: seq<Entry>): (r: seq<Row>)
    ensures |r| == |entries|
    ensures forall i :: 0 <= i < |entries| ==> r[i].key == entries[i].key && r[i].count == entries[i].count
    ensures forall i :: 0 <= i < |entries| ==> r[i].width == BarWidth(entries[i].count)
  {
    if entries == [] then []
    else [Row(entries[0].key, BarWidth(entries[0].count), entries[0].count)] + Rows(entries[1..])
  }

  /** Rows for entries that are listed one after the other are the rows of
      each, one after the other. */
  lemma {:induction false} RowsAppend(a: seq<Entry>, b: seq<Entry>)
    ensures Rows(a + b) == Rows(a) + Rows(b)
  {
    if a == [] {
      assert a + b == b;
    } else {
      assert (a + b)[0] == a[0] && (a + b)[1..] == a[1..] + b;
      RowsAppend(a[1..], b);
    }
  }

  /** What is on screen. */
  datatype Screen =
    | LoadingStats
    | CouldNotLoad
    | Dashboard(total: nat, open: nat, avg: string, priorityRows: seq<Row>, categoryRows: seq<Row>)
    /** Rendering throws: the truthy body has no breakdown to take the
        entries of. */
    | RenderFails

  class StatsDashboard {
    var stats: Option<StatsReply>
    var loading: bool

    /** Mounting: nothing loaded yet. The effect's request goes out. */
    constructor ()
      ensures stats.None? && loading
    {
      stats := None;
      loading := true;
    }

    /** The effect settles: `.then(setStats)` stores a parsed body;
        `.finally` clears the flag whether the request succeeded or not. */
    method Settle(outcome: Option<StatsReply>)
      modifies this
      ensures !loading
      ensures outcome.Some? ==> stats == outcome
      ensures outcome.None? ==> stats == old(stats)
    {
      if outcome.Some? {
        stats := outcome;
      }
      loading := false;
    }

    /** The render: loading, then the failure line when nothing or a falsy
        body was stored, otherwise the dashboard. */
    function View(): (s: Screen)
      reads this
      ensures loading <==> s.LoadingStats?
      ensures !loading && (stats.None? || stats == Some(FalsyBody)) <==> s.CouldNotLoad?
      ensures !loading && stats == Some(OtherBody) <==> s.RenderFails?
      ensures !loading && stats.Some? && stats.value.StatsOf? <==> s.Dashboard?
      ensures s.Dashboard? ==>
        && s.total == stats.value.snapshot.totalTickets && s.open == stats.value.snapshot.openTickets
        && s.avg == stats.value.snapshot.avgTicketsPerDay
        && s.priorityRows == Rows(stats.value.snapshot.priorityEntries)
        && s.categoryRows == Rows(stats.value.snapshot.categoryEntries)
    {
      if loading then LoadingStats
      else if stats.None? then CouldNotLoad
      else match stats.value
        case FalsyBody => CouldNotLoad
        case OtherBody => RenderFails
        case StatsOf(snap) =>
          Dashboard(snap.totalTickets, snap.openTickets, snap.avgTicketsPerDay,
                    Rows(snap.priorityEntries), Rows(snap.categoryEntries))
    }
  }
}
