/** The per-call-site filter of the logging macros and the vocabulary they
    share: syslog priorities, output destinations and the scope table.
    Priorities are the syslog severities of section 6.2.1 of RFC 5424: a
    numerically smaller value is more urgent. */
module LogFilter {
  import opened Text

  const Emergency: nat := 0
  const Alert: nat := 1
  const Critical: nat := 2
  const Error: nat := 3
  const Warning: nat := 4
  const Notice: nat := 5
  const Info: nat := 6
  const Debug: nat := 7

  /** Where rendered messages go. */
  datatype Destination = Undefined | Syslog | File | Stderr

  /** A suppression byte; zero means the site is active. */
  type byte = b: int | 0 <= b < 256

  /** One scope's record in the scope table: its name, its level, the
      number of call sites the build counted in it, and the per-site
      suppression bytes (None when their allocation failed). */
  datatype ScopeEntry = ScopeEntry(name: seq<char>, level: nat, max: nat, site: Option<seq<byte>>)

  /** The table invariant the build establishes: an allocated site array
      has exactly one byte per call site of the scope. */
  predicate WellSized(e: ScopeEntry) {
    e.site.Some? ==> |e.site.value| == e.max
  }

  predicate Allocated(e: ScopeEntry) {
    e.site.Some? && |e.site.value| == e.max
  }

  /** The evaluation of the filter only reaches the site array when the
      first three tests pass; it must then be allocated. */
  predicate CheckSafe(globalLevel: nat, e: ScopeEntry, p: nat, id: nat) {
    globalLevel >= p && e.max > id && e.level >= p ==> e.site.Some?
  }

  /** The filter of one call site: `id` is the site's index in scope `e`
      and `p` the priority of the message. The tests run left to right and
      stop at the first that fails, so the site byte is read only for an
      index below `max`, which the table invariant puts inside the array. */
  function Check(globalLevel: nat, e: ScopeEntry, p: nat, id: nat): (r: bool)
    requires WellSized(e) && CheckSafe(globalLevel, e, p, id)
    ensures r ==> p <= globalLevel && p <= e.level && id < e.max
    ensures r ==> e.site.value[id] == 0
  {
    globalLevel >= p && e.max > id && e.level >= p && e.site.value[id] == 0
  }

  /** Every one of the four tests is needed and together they suffice. */
  lemma CheckExactly(globalLevel: nat, e: ScopeEntry, p: nat, id: nat)
    requires Allocated(e)
    ensures Check(globalLevel, e, p, id) <==>
      (globalLevel >= p && id < e.max && e.level >= p && e.site.value[id] == 0)
  {
  }

  /** A scope without call sites never lets anything through. */
  lemma EmptyScopeRejects(globalLevel: nat, e: ScopeEntry, p: nat, id: nat)
    requires WellSized(e) && e.max == 0
    ensures !Check(globalLevel, e, p, id)
  {
  }

  /** Passing the filter at priority p implies passing it at every more
      urgent priority. */
  lemma CheckMonotonic(globalLevel: nat, e: ScopeEntry, p: nat, q: nat, id: nat)
    requires Allocated(e) && q <= p
    ensures Check(globalLevel, e, p, id) ==> Check(globalLevel, e, q, id)
  {
  }

  /** The whole table is well formed. */
  predicate TableOk(table: seq<ScopeEntry>) {
    forall s :: 0 <= s < |table| ==> Allocated(table[s])
  }

  /** The filter evaluated against the scope table. */
  function TableCheck(globalLevel: nat, table: seq<ScopeEntry>, p: nat, s: nat, id: nat): (r: bool)
    requires TableOk(table) && s < |table|
    ensures r ==> id < table[s].max && table[s].site.value[id] == 0
  {
    Check(globalLevel, table[s], p, id)
  }

  /** The table with the suppression byte of site `id` of scope `s` set to `b`. */
  function SetSite(table: seq<ScopeEntry>, s: nat, id: nat, b: byte): (r: seq<ScopeEntry>)
    requires TableOk(table) && s < |table| && id < table[s].max
    ensures TableOk(r) && |r| == |table|
    ensures r[s].max == table[s].max && r[s].site.value[id] == b
  {
    var e := table[s];
    table[s := e.(site := Some(e.site.value[id := b]))]
  }

  /** Suppressing one site silences it at every priority and leaves the
      verdict for every other site, in its scope and in the others, as it was. */
  lemma {:induction false} SuppressOnlyThatSite(globalLevel: nat, table: seq<ScopeEntry>, s: nat, id: nat, b: byte,
                                                p: nat, s': nat, id': nat)
    requires TableOk(table) && s < |table| && id < table[s].max && b != 0
    requires s' < |table|
    ensures !TableCheck(globalLevel, SetSite(table, s, id, b), p, s, id)
    ensures (s', id') != (s, id) ==>
      TableCheck(globalLevel, SetSite(table, s, id, b), p, s', id') == TableCheck(globalLevel, table, p, s', id')
  {
    var t := SetSite(table, s, id, b);
    if s' != s {
      assert t[s'] == table[s'];
    } else if id' != id && id' < table[s].max {
      assert t[s].site.value[id'] == table[s].site.value[id'];
    }
  }

  /** Which helper a logging macro expands to. */
  datatype Variant = Plain | WithLocation | NoOp

  /** The priority macros: the four most urgent priorities record their
      source location, Warning, Notice and Info do not, and Debug records
      it except in a release build, where the macro expands to nothing. */
  function MacroVariant(p: nat, releaseBuild: bool): (v: Variant)
    requires p <= Debug
    ensures v == NoOp <==> p == Debug && releaseBuild
    ensures v == WithLocation <==> p <= Error || (p == Debug && !releaseBuild)
    ensures v == Plain <==> Warning <= p <= Info
  {
    if p <= Error then WithLocation
    else if p < Debug then Plain
    else if releaseBuild then NoOp
    else WithLocation
  }
}
