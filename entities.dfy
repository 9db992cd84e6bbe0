/**
 * The entity helpers of the details panel and the events view: a person's
 * display name, the events that mention a person, the ID list of an event, and
 * the filtered event list, all sorted by date with the latest first.
 */
module Entities {
  import opened Types
  import opened Seqs
  import JsText

  // ---- Names and ID lists ----------------------------------------------------------------------

  /** `getPersonName`: the Name of the first person with the ID, or the ID itself when there is none or it is empty. */
  function GetPersonName(people: seq<Person>, id: string): string {
    var i := FirstIndex(PersonIds(people), id);
    if i < |people| && people[i].Name != "" then people[i].Name else id
  }

  /** The name is the first matching person's when that person exists and has a name, and the raw ID otherwise. */
  lemma GetPersonNameCases(people: seq<Person>, id: string)
    ensures (forall k :: 0 <= k < |people| ==> people[k].ID != id) ==> GetPersonName(people, id) == id
    ensures forall k :: 0 <= k < |people| && people[k].ID == id && (forall j :: 0 <= j < k ==> people[j].ID != id) ==>
      GetPersonName(people, id) == (if people[k].Name != "" then people[k].Name else id)
  {
    var ids := PersonIds(people);
    if forall k :: 0 <= k < |people| ==> people[k].ID != id {
      FirstIndexIs(ids, id, |people|);
    }
    forall k | 0 <= k < |people| && people[k].ID == id && (forall j :: 0 <= j < k ==> people[j].ID != id)
      ensures GetPersonName(people, id) == (if people[k].Name != "" then people[k].Name else id)
    {
      FirstIndexIs(ids, id, k);
    }
  }

  const NonEmptyToken: string -> bool := (t: string) => |t| > 0

  /** `resolvePeopleIds`: the trimmed, non-empty pieces of a comma-separated list, in order. */
  function ResolvePeopleIds(ids: string): seq<string> {
    Filter(IdTokens(ids), NonEmptyToken)
  }

  /** Each resolved ID is a non-empty, trimmed, comma-free piece of the list, and every such piece is resolved. */
  lemma ResolvedIdsAreCleanTokens(ids: string)
    ensures forall t :: t in ResolvePeopleIds(ids) <==> t in IdTokens(ids) && t != ""
    ensures forall t :: t in ResolvePeopleIds(ids) ==> ',' !in t && !JsText.IsSpace(t[0]) && !JsText.IsSpace(t[|t| - 1])
  {
    FilterMembers(IdTokens(ids), NonEmptyToken);
    IdTokensClean(ids);
  }

  /** A token of an ID list has no comma and, when non-empty, no white space at its ends. */
  lemma IdTokensClean(list: string)
    ensures forall t :: t in IdTokens(list) ==> ',' !in t && (t != "" ==> !JsText.IsSpace(t[0]) && !JsText.IsSpace(t[|t| - 1]))
  {
    var parts := JsText.Split(list, ',');
    var tokens := IdTokens(list);
    forall i | 0 <= i < |tokens| ensures ',' !in tokens[i] {
      assert tokens[i] == JsText.Trim(parts[i]);
      assert ',' !in parts[i];
    }
  }

  /** An ID without commas and without white space at its ends. */
  predicate CleanId(t: string) {
    t != "" && ',' !in t && !JsText.IsSpace(t[0]) && !JsText.IsSpace(t[|t| - 1])
  }

  /** Resolving a list written by joining clean IDs with commas gives those IDs back, in order and with repeats. */
  lemma {:induction false} ResolveJoinedIds(ids: seq<string>)
    requires |ids| >= 1 && forall i :: 0 <= i < |ids| ==> CleanId(ids[i])
    ensures ResolvePeopleIds(JsText.Join(ids, ',')) == ids
  {
    JsText.SplitJoin(ids, ',');
    var tokens := IdTokens(JsText.Join(ids, ','));
    forall i | 0 <= i < |ids| ensures tokens[i] == ids[i] {
      JsText.TrimNoBorderSpace(ids[i]);
    }
    assert tokens == ids;
    FilterKeepsAll(ids, NonEmptyToken);
  }

  // ---- Sorting by date, latest first -------------------------------------------------------------

  /** Dates in descending order: no later date after an earlier one. */
  predicate SortedByDateDesc(s: seq<RelationshipEvent>) {
    forall i, j :: 0 <= i < j < |s| ==> JsText.LexLe(s[j].Date, s[i].Date)
  }

  /** `e` placed before the first event whose date is not later, which keeps events of equal date in input order. */
  function InsertByDate(e: RelationshipEvent, sorted: seq<RelationshipEvent>): (r: seq<RelationshipEvent>)
    ensures multiset(r) == multiset(sorted) + multiset{e}
    ensures |r| == |sorted| + 1
  {
    if sorted == [] then [e]
    else if JsText.LexLe(sorted[0].Date, e.Date) then [e] + sorted
    else
      assert sorted == [sorted[0]] + sorted[1..];
      [sorted[0]] + InsertByDate(e, sorted[1..])
  }

  /** `sort((a, b) => (b.Date || "").localeCompare(a.Date || ""))`, a stable sort with the latest date first. */
  function SortByDateDesc(s: seq<RelationshipEvent>): (r: seq<RelationshipEvent>)
    ensures multiset(r) == multiset(s)
  {
    if s == [] then []
    else
      assert s == [s[0]] + s[1..];
      InsertByDate(s[0], SortByDateDesc(s[1..]))
  }

  lemma {:induction false} InsertByDateSorted(e: RelationshipEvent, sorted: seq<RelationshipEvent>)
    requires SortedByDateDesc(sorted)
    ensures SortedByDateDesc(InsertByDate(e, sorted))
  {
    if sorted != [] && !JsText.LexLe(sorted[0].Date, e.Date) {
      JsText.LexLeTotal(sorted[0].Date, e.Date);
      InsertByDateSorted(e, sorted[1..]);
      var rest := InsertByDate(e, sorted[1..]);
      forall x | x in rest ensures JsText.LexLe(x.Date, sorted[0].Date) {
        assert x in multiset(rest);
        if x != e {
          assert x in multiset(sorted[1..]);
          var k :| 0 <= k < |sorted[1..]| && sorted[1..][k] == x;
          assert sorted[k + 1] == x;
        }
      }
      SortedUnderHead(sorted[0], rest);
    } else if sorted != [] {
      forall x | x in sorted ensures JsText.LexLe(x.Date, e.Date) {
        var k :| 0 <= k < |sorted| && sorted[k] == x;
        if k > 0 {
          JsText.LexLeTrans(x.Date, sorted[0].Date, e.Date);
        }
      }
      SortedUnderHead(e, sorted);
    }
  }

  /** A sorted list stays sorted below a head no earlier than any of its events. */
  lemma SortedUnderHead(h: RelationshipEvent, rest: seq<RelationshipEvent>)
    requires SortedByDateDesc(rest)
    requires forall x :: x in rest ==> JsText.LexLe(x.Date, h.Date)
    ensures SortedByDateDesc([h] + rest)
  {
    var r := [h] + rest;
    forall i, j | 0 <= i < j < |r| ensures JsText.LexLe(r[j].Date, r[i].Date) {
      if i == 0 {
        assert r[j] == rest[j - 1];
      } else {
        assert r[i] == rest[i - 1] && r[j] == rest[j - 1];
      }
    }
  }

  /** The sort puts the latest date first and is a permutation of its input. */
  lemma {:induction false} SortByDateDescCorrect(s: seq<RelationshipEvent>)
    ensures SortedByDateDesc(SortByDateDesc(s))
    ensures multiset(SortByDateDesc(s)) == multiset(s)
  {
    if s != [] {
      SortByDateDescCorrect(s[1..]);
      InsertByDateSorted(s[0], SortByDateDesc(s[1..]));
    }
  }

  // ---- Event lists ---------------------------------------------------------------------------------

  /** Whether an event's People_IDs list names the person. */
  function MentionsPerson(personId: string): RelationshipEvent -> bool {
    (e: RelationshipEvent) => personId in IdTokens(e.People_IDs)
  }

  /** `getPersonEvents`: the events naming the person, latest first. */
  function GetPersonEvents(events: seq<RelationshipEvent>, personId: string): seq<RelationshipEvent> {
    SortByDateDesc(Filter(events, MentionsPerson(personId)))
  }

  /**
   * A person's events are exactly the events whose split and trimmed People_IDs
   * name the person, sorted latest first, each as often as it appears in the input.
   */
  lemma PersonEventsExact(events: seq<RelationshipEvent>, personId: string)
    ensures var r := GetPersonEvents(events, personId);
      && (forall e :: e in r <==> e in events && personId in IdTokens(e.People_IDs))
      && SortedByDateDesc(r)
      && multiset(r) == multiset(Filter(events, MentionsPerson(personId)))
  {
    var kept := Filter(events, MentionsPerson(personId));
    FilterMembers(events, MentionsPerson(personId));
    SortByDateDescCorrect(kept);
    var r := GetPersonEvents(events, personId);
    forall e ensures e in r <==> e in kept {
      assert e in r <==> e in multiset(r);
      assert e in kept <==> e in multiset(kept);
    }
  }

  function OfType(t: string): RelationshipEvent -> bool { (e: RelationshipEvent) => e.Type == t }
  function OfImpact(i: string): RelationshipEvent -> bool { (e: RelationshipEvent) => e.Impact == i }

  /** `filteredEvents`: the type filter and the impact filter, each when it is set, then latest first. */
  function FilteredEvents(events: seq<RelationshipEvent>, typeFilter: string, impactFilter: string): seq<RelationshipEvent> {
    var byType := if typeFilter != "" then Filter(events, OfType(typeFilter)) else events;
    var byImpact := if impactFilter != "" then Filter(byType, OfImpact(impactFilter)) else byType;
    SortByDateDesc(byImpact)
  }

  /**
   * The events view keeps exactly the events matching every filter that is set
   * (both filters combine with AND), sorted latest first; with no filter set it
   * shows every event, each as often as in the input.
   */
  lemma FilteredEventsExact(events: seq<RelationshipEvent>, typeFilter: string, impactFilter: string)
    ensures var r := FilteredEvents(events, typeFilter, impactFilter);
      && (forall e :: e in r <==> e in events && (typeFilter == "" || e.Type == typeFilter) && (impactFilter == "" || e.Impact == impactFilter))
      && SortedByDateDesc(r)
      && (typeFilter == "" && impactFilter == "" ==> multiset(r) == multiset(events))
  {
    var byType := if typeFilter != "" then Filter(events, OfType(typeFilter)) else events;
    var byImpact := if impactFilter != "" then Filter(byType, OfImpact(impactFilter)) else byType;
    assert forall e :: e in byType <==> e in events && (typeFilter == "" || e.Type == typeFilter) by {
      if typeFilter != "" { FilterMembers(events, OfType(typeFilter)); }
    }
    assert forall e :: e in byImpact <==> e in byType && (impactFilter == "" || e.Impact == impactFilter) by {
      if impactFilter != "" { FilterMembers(byType, OfImpact(impactFilter)); }
    }
    SortByDateDescCorrect(byImpact);
    SortKeepsMembers(byImpact);
  }

  /** Sorting neither adds nor drops an event. */
  lemma SortKeepsMembers(s: seq<RelationshipEvent>)
    ensures forall e :: e in SortByDateDesc(s) <==> e in s
  {
    var r := SortByDateDesc(s);
    forall e ensures e in r <==> e in s {
      assert e in r <==> e in multiset(r);
      assert e in s <==> e in multiset(s);
    }
  }
}
