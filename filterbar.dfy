/** The filter criteria object of frontend/src/components/FilterBar.js.
    `set(key, value)` spreads the previous object and writes `value ||
    undefined` under `key`, so clearing a control leaves the key present but
    `undefined` (`None` here) rather than removing it. Criteria are
    therefore compared by what each key looks up to. */
module FilterBarComponent {
  import opened Common

  type Filters = map<string, Option<string>>

  /** `filters[key]`: a missing key and an `undefined` one read alike. */
  function Lookup(f: Filters, key: string): Option<string> {
    if key in f then f[key] else None
  }

  /** Two criteria objects that every key reads the same from. */
  ghost predicate SameCriteria(f: Filters, g: Filters) {
    forall k :: Lookup(f, k) == Lookup(g, k)
  }

  /** `set(key, value)`: `{...prev, [key]: value || undefined}`. */
  function Set(f: Filters, key: string, value: string): (r: Filters)
    ensures value != "" ==> Lookup(r, key) == Some(value)
    ensures value == "" ==> Lookup(r, key) == None
    ensures forall k :: k != key ==> Lookup(r, k) == Lookup(f, k)
    ensures r.Keys == f.Keys + {key}
  {
    f[key := if value == "" then None else Some(value)]
  }

  /** The Clear Filters button: `onChange({})`. */
  function Clear(): (r: Filters)
    ensures forall k :: Lookup(r, k) == None
  {
    map[]
  }

  /** `filters[key] || ''`: what a control shows. */
  function Display(f: Filters, key: string): (r: string)
    ensures Lookup(f, key).Some? ==> r == Lookup(f, key).value
    ensures Lookup(f, key).None? ==> r == ""
  {
    match Lookup(f, key)
    case None => ""
    case Some(v) => v
  }

  /** Setting a key twice to the same value is setting it once. */
  lemma SetIdempotent(f: Filters, key: string, value: string)
    ensures Set(Set(f, key, value), key, value) == Set(f, key, value)
  {
  }

  /** Setting a key and then clearing its control gives criteria that look
      up the same as before, when the key was not set to begin with. */
  lemma SetThenClearControl(f: Filters, key: string, value: string)
    requires Lookup(f, key).None?
    ensures SameCriteria(Set(Set(f, key, value), key, ""), f)
  {
  }

  /** Only the last write to a key counts. */
  lemma LastSetWins(f: Filters, key: string, v: string, w: string)
    ensures Set(Set(f, key, v), key, w) == Set(f, key, w)
  {
  }

  /** Writes to different keys commute. */
  lemma SetsCommute(f: Filters, k1: string, v1: string, k2: string, v2: string)
    requires k1 != k2
    ensures Set(Set(f, k1, v1), k2, v2) == Set(Set(f, k2, v2), k1, v1)
  {
  }

  /** A control shows what was last chosen in it, for every control. */
  lemma DisplayAfterSet(f: Filters, key: string, value: string)
    ensures Display(Set(f, key, value), key) == value
    ensures forall k :: k != key ==> Display(Set(f, key, value), k) == Display(f, k)
  {
  }

  /** After Clear Filters every control shows its "All ..." option. */
  lemma DisplayAfterClear(key: string)
    ensures Display(Clear(), key) == ""
  {
  }
}
