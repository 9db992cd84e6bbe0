/**
 * The filter panel: the department choices offered, the count of active facet
 * values, the four facet handlers and the clear action.
 */
module FilterPanel {
  import opened Types
  import opened Seqs
  import JsText
  import GraphView

  // ---- The department list ----------------------------------------------------------------------------

  /** The values of `s` without repeats, in order of first occurrence (a `Set` read back with `Array.from`). */
  function Unique(s: seq<string>): (r: seq<string>)
    ensures forall x :: x in r <==> x in s
    ensures forall x :: multiset(r)[x] <= 1
  {
    if s == [] then []
    else
      var n := |s| - 1;
      var u := Unique(s[..n]);
      assert forall x :: x in s <==> x in s[..n] || x == s[n] by {
        assert s == s[..n] + [s[n]];
      }
      if s[n] in u then u else u + [s[n]]
  }

  /** `x` placed before the first element it does not follow. */
  function InsertAscending(x: string, sorted: seq<string>): (r: seq<string>)
    ensures multiset(r) == multiset(sorted) + multiset{x}
  {
    if sorted == [] then [x]
    else if JsText.LexLe(x, sorted[0]) then [x] + sorted
    else
      assert sorted == [sorted[0]] + sorted[1..];
      [sorted[0]] + InsertAscending(x, sorted[1..])
  }

  /** `sort()` with the default comparison: ascending by character code. */
  function SortAscending(s: seq<string>): (r: seq<string>)
    ensures multiset(r) == multiset(s)
  {
    if s == [] then []
    else
      assert s == [s[0]] + s[1..];
      InsertAscending(s[0], SortAscending(s[1..]))
  }

  predicate Ascending(s: seq<string>) {
    forall i, j :: 0 <= i < j < |s| ==> JsText.LexLe(s[i], s[j])
  }

  const NonEmptyText: string -> bool := (t: string) => t != ""

  /** `people.map(p => p.Department)`. */
  function DepartmentsOf(people: seq<Person>): seq<string> {
    seq(|people|, i requires 0 <= i < |people| => people[i].Department)
  }

  /** `departments`: the distinct non-empty departments of the people, sorted. */
  function Departments(people: seq<Person>): seq<string> {
    SortAscending(Unique(Filter(DepartmentsOf(people), NonEmptyText)))
  }

  lemma {:induction false} InsertAscendingSorted(x: string, sorted: seq<string>)
    requires Ascending(sorted)
    ensures Ascending(InsertAscending(x, sorted))
  {
    if sorted != [] && !JsText.LexLe(x, sorted[0]) {
      JsText.LexLeTotal(x, sorted[0]);
      InsertAscendingSorted(x, sorted[1..]);
      var rest := InsertAscending(x, sorted[1..]);
      var r := [sorted[0]] + rest;
      forall j | 0 < j < |r| ensures JsText.LexLe(r[0], r[j]) {
        assert r[j] in multiset(rest);
        if r[j] != x {
          assert r[j] in multiset(sorted[1..]);
          var k :| 0 <= k < |sorted[1..]| && sorted[1..][k] == r[j];
          assert sorted[k + 1] == r[j];
        }
      }
    } else if sorted != [] {
      var r := [x] + sorted;
      forall i, j | 0 <= i < j < |r| ensures JsText.LexLe(r[i], r[j]) {
        if i == 0 && j > 1 {
          JsText.LexLeTrans(x, sorted[0], r[j]);
        }
      }
    }
  }

  lemma {:induction false} SortAscendingSorted(s: seq<string>)
    ensures Ascending(SortAscending(s))
  {
    if s != [] {
      SortAscendingSorted(s[1..]);
      InsertAscendingSorted(s[0], SortAscending(s[1..]));
    }
  }

  /** A sequence in which no value occurs twice has no repeated position. */
  lemma SingleOccurrences(s: seq<string>)
    requires forall x :: multiset(s)[x] <= 1
    ensures forall i, j :: 0 <= i < j < |s| ==> s[i] != s[j]
  {
    forall i, j | 0 <= i < j < |s| ensures s[i] != s[j] {
      var before := s[..j];
      assert s == before + [s[j]] + s[j + 1..];
      assert multiset(s)[s[j]] == multiset(before)[s[j]] + 1 + multiset(s[j + 1..])[s[j]];
      assert s[i] == before[i];
    }
  }

  /**
   * The department list has no repeats and no empty entry, is sorted ascending,
   * and holds exactly the non-empty departments of the people.
   */
  lemma DepartmentsExact(people: seq<Person>)
    ensures var d := Departments(people);
      && (forall i, j :: 0 <= i < j < |d| ==> d[i] != d[j])
      && (forall i, j :: 0 <= i < j < |d| ==> JsText.LexLe(d[i], d[j]))
      && (forall x :: x in d <==> x != "" && exists p :: p in people && p.Department == x)
  {
    var all := DepartmentsOf(people);
    var named := Filter(all, NonEmptyText);
    var u := Unique(named);
    var d := Departments(people);
    SortAscendingSorted(u);
    SingleOccurrences(d);
    FilterMembers(all, NonEmptyText);
    forall x ensures x in d <==> x in u {
      assert x in d <==> x in multiset(d);
    }
    DepartmentsOfMembers(people);
  }

  lemma DepartmentsOfMembers(people: seq<Person>)
    ensures forall x :: x in DepartmentsOf(people) <==> exists p :: p in people && p.Department == x
  {
    var all := DepartmentsOf(people);
    forall x ensures x in all <==> exists p :: p in people && p.Department == x {
      if x in all {
        var i :| 0 <= i < |all| && all[i] == x;
        assert people[i] in people;
      }
      if exists p :: p in people && p.Department == x {
        var p :| p in people && p.Department == x;
        var i :| 0 <= i < |people| && people[i] == p;
        assert all[i] == x;
      }
    }
  }

  // ---- Facets ------------------------------------------------------------------------------------------

  /** `activeFilterCount`: the number of selected values over the four facets. */
  function ActiveFilterCount(f: FilterState): nat {
    |f.departments| + |f.riskLevels| + |f.relationshipTypes| + |f.sentiments|
  }

  /**
   * The count is zero exactly when every facet is empty, so the Clear action
   * shows exactly when some facet is set; a facet handler changes the count by
   * the number of values it checks in place of those it replaces.
   */
  lemma ActiveFilterCountZero(f: FilterState, checked: seq<string>)
    ensures ActiveFilterCount(f) == 0 <==> f == EmptyFilters
    ensures ShowClear(f) <==> f != EmptyFilters
    ensures ActiveFilterCount(WithDepartments(f, checked)) + |f.departments| == ActiveFilterCount(f) + |checked|
    ensures ActiveFilterCount(WithRiskLevels(f, checked)) + |f.riskLevels| == ActiveFilterCount(f) + |checked|
    ensures ActiveFilterCount(WithRelationshipTypes(f, checked)) + |f.relationshipTypes| == ActiveFilterCount(f) + |checked|
    ensures ActiveFilterCount(WithSentiments(f, checked)) + |f.sentiments| == ActiveFilterCount(f) + |checked|
  {
  }

  function WithDepartments(f: FilterState, checked: seq<string>): FilterState { f.(departments := checked) }
  function WithRiskLevels(f: FilterState, checked: seq<string>): FilterState { f.(riskLevels := checked) }
  function WithRelationshipTypes(f: FilterState, checked: seq<string>): FilterState { f.(relationshipTypes := checked) }
  function WithSentiments(f: FilterState, checked: seq<string>): FilterState { f.(sentiments := checked) }

  /** Each facet handler replaces its own facet with the checked items and leaves the other three as they were. */
  lemma HandlersReplaceOneFacet(f: FilterState, checked: seq<string>)
    ensures var g := WithDepartments(f, checked);
      g.departments == checked && g.riskLevels == f.riskLevels && g.relationshipTypes == f.relationshipTypes && g.sentiments == f.sentiments
    ensures var g := WithRiskLevels(f, checked);
      g.departments == f.departments && g.riskLevels == checked && g.relationshipTypes == f.relationshipTypes && g.sentiments == f.sentiments
    ensures var g := WithRelationshipTypes(f, checked);
      g.departments == f.departments && g.riskLevels == f.riskLevels && g.relationshipTypes == checked && g.sentiments == f.sentiments
    ensures var g := WithSentiments(f, checked);
      g.departments == f.departments && g.riskLevels == f.riskLevels && g.relationshipTypes == f.relationshipTypes && g.sentiments == checked
  {
  }

  /** `clearFilters`. */
  function ClearFilters(): FilterState {
    FilterState([], [], [], [])
  }

  /** The Clear action is shown only while some facet value is selected. */
  predicate ShowClear(f: FilterState) {
    ActiveFilterCount(f) > 0
  }

  /**
   * Clearing gives the all-empty state, which hides the Clear action and lets the
   * graph show every person.
   */
  lemma ClearFiltersPassesEveryone(people: seq<Person>, relationships: seq<Relationship>)
    ensures ClearFilters() == EmptyFilters && !ShowClear(ClearFilters())
    ensures var g := GraphView.GraphData(people, relationships, ClearFilters());
      |g.nodes| == |people| && forall i :: 0 <= i < |people| ==> g.nodes[i] == GraphView.NodeOf(people[i])
  {
    GraphView.EmptyFiltersPassThrough(people, relationships);
  }
}
