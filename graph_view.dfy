/**
 * The graph the relationship view draws: the people that pass the department and
 * risk facets become nodes, and the relationships between two such people that
 * pass the type and sentiment facets become links. An empty facet restricts
 * nothing.
 */
module GraphView {
  import opened Types
  import opened Seqs

  datatype Graph = Graph(nodes: seq<GraphNode>, links: seq<GraphLink>)

  /** A facet admits a value when it is empty or lists the value. */
  predicate Admits(facet: seq<string>, v: string) {
    |facet| == 0 || v in facet
  }

  predicate PersonPasses(f: FilterState, p: Person) {
    Admits(f.departments, p.Department) && Admits(f.riskLevels, p.RiskLevel)
  }

  predicate RelationshipPasses(f: FilterState, ids: set<string>, r: Relationship) {
    r.PersonA_ID in ids && r.PersonB_ID in ids && Admits(f.relationshipTypes, r.Type) && Admits(f.sentiments, r.Sentiment)
  }

  function NodeOf(p: Person): GraphNode {
    GraphNode(p.ID, p.Name, p.Title, p.Department, p.Influence, p.RiskLevel)
  }

  function LinkOf(r: Relationship): GraphLink {
    GraphLink(r.PersonA_ID, r.PersonB_ID, r.ID, r.Type, r.Strength, r.Sentiment, r.Direction)
  }

  // The tests of the individual passes, as the callbacks handed to `filter`.
  function InDepartments(f: FilterState): Person -> bool { (p: Person) => p.Department in f.departments }
  function InRiskLevels(f: FilterState): Person -> bool { (p: Person) => p.RiskLevel in f.riskLevels }
  function BothEndsIn(ids: set<string>): Relationship -> bool { (r: Relationship) => r.PersonA_ID in ids && r.PersonB_ID in ids }
  function InTypes(f: FilterState): Relationship -> bool { (r: Relationship) => r.Type in f.relationshipTypes }
  function InSentiments(f: FilterState): Relationship -> bool { (r: Relationship) => r.Sentiment in f.sentiments }
  function PassesPersonFacets(f: FilterState): Person -> bool { (p: Person) => PersonPasses(f, p) }
  function PassesAll(f: FilterState, ids: set<string>): Relationship -> bool { (r: Relationship) => RelationshipPasses(f, ids, r) }

  /** The department pass, then the risk pass, each applied only when its facet is non-empty. */
  function FilterPeople(people: seq<Person>, f: FilterState): seq<Person> {
    var byDepartment := if |f.departments| > 0 then Filter(people, InDepartments(f)) else people;
    if |f.riskLevels| > 0 then Filter(byDepartment, InRiskLevels(f)) else byDepartment
  }

  /** The endpoint pass, then the type pass and the sentiment pass when their facets are non-empty. */
  function FilterRelationships(relationships: seq<Relationship>, ids: set<string>, f: FilterState): seq<Relationship> {
    var touching := Filter(relationships, BothEndsIn(ids));
    var byType := if |f.relationshipTypes| > 0 then Filter(touching, InTypes(f)) else touching;
    if |f.sentiments| > 0 then Filter(byType, InSentiments(f)) else byType
  }

  function IdSet(people: seq<Person>): set<string> {
    set p | p in people :: p.ID
  }

  /** The IDs of the people that pass the person facets. */
  function KeptIds(people: seq<Person>, f: FilterState): set<string> {
    set p | p in people && PersonPasses(f, p) :: p.ID
  }

  /** `graphData`: the surviving people and relationships projected to nodes and links. */
  function GraphData(people: seq<Person>, relationships: seq<Relationship>, f: FilterState): (g: Graph)
    ensures |g.nodes| <= |people| && |g.links| <= |relationships|
  {
    var kept := FilterPeople(people, f);
    var rels := FilterRelationships(relationships, IdSet(kept), f);
    Graph(seq(|kept|, i requires 0 <= i < |kept| => NodeOf(kept[i])),
          seq(|rels|, i requires 0 <= i < |rels| => LinkOf(rels[i])))
  }

  // ---- What the graph promises -----------------------------------------------------------------------

  /** The people passes are one filter by both person facets, in input order. */
  lemma FilterPeopleIsOneFilter(people: seq<Person>, f: FilterState)
    ensures FilterPeople(people, f) == Filter(people, PassesPersonFacets(f))
  {
    var byDept: Person -> bool := (p: Person) => Admits(f.departments, p.Department);
    if |f.departments| > 0 {
      FilterAgree(people, InDepartments(f), byDept);
    } else {
      FilterKeepsAll(people, byDept);
    }
    var byDepartment := if |f.departments| > 0 then Filter(people, InDepartments(f)) else people;
    assert byDepartment == Filter(people, byDept);
    if |f.riskLevels| > 0 {
      FilterTwice(people, byDept, InRiskLevels(f), PassesPersonFacets(f));
    } else {
      FilterAgree(people, byDept, PassesPersonFacets(f));
    }
  }

  /** The relationship passes are one filter by both endpoints and both relationship facets, in input order. */
  lemma FilterRelationshipsIsOneFilter(relationships: seq<Relationship>, ids: set<string>, f: FilterState)
    ensures FilterRelationships(relationships, ids, f) == Filter(relationships, PassesAll(f, ids))
  {
    var endsTypes: Relationship -> bool := (r: Relationship) => BothEndsIn(ids)(r) && Admits(f.relationshipTypes, r.Type);
    if |f.relationshipTypes| > 0 {
      FilterTwice(relationships, BothEndsIn(ids), InTypes(f), endsTypes);
    } else {
      FilterAgree(relationships, BothEndsIn(ids), endsTypes);
    }
    if |f.sentiments| > 0 {
      FilterTwice(relationships, endsTypes, InSentiments(f), PassesAll(f, ids));
    } else {
      FilterAgree(relationships, endsTypes, PassesAll(f, ids));
    }
  }

  /** The surviving people's IDs are the IDs of the people passing both person facets. */
  lemma KeptIdsOfFilter(people: seq<Person>, f: FilterState)
    ensures IdSet(FilterPeople(people, f)) == KeptIds(people, f)
  {
    FilterPeopleIsOneFilter(people, f);
    FilterMembers(people, PassesPersonFacets(f));
  }

  /** A node is exactly the projection of a person passing the department and risk facets. */
  lemma NodesArePassingPeople(people: seq<Person>, relationships: seq<Relationship>, f: FilterState)
    ensures forall n :: n in GraphData(people, relationships, f).nodes <==>
      exists p :: p in people && PersonPasses(f, p) && n == NodeOf(p)
  {
    var kept := FilterPeople(people, f);
    FilterPeopleIsOneFilter(people, f);
    FilterMembers(people, PassesPersonFacets(f));
    var nodes := GraphData(people, relationships, f).nodes;
    forall n | n in nodes ensures exists p :: p in people && PersonPasses(f, p) && n == NodeOf(p) {
      var i :| 0 <= i < |nodes| && nodes[i] == n;
      assert kept[i] in kept;
    }
    forall p | p in people && PersonPasses(f, p) ensures NodeOf(p) in nodes {
      var i :| 0 <= i < |kept| && kept[i] == p;
      assert nodes[i] == NodeOf(p);
    }
  }

  /**
   * A link is exactly the projection of a relationship whose both endpoints are
   * surviving people and which passes the type and sentiment facets.
   */
  lemma LinksArePassingRelationships(people: seq<Person>, relationships: seq<Relationship>, f: FilterState)
    ensures forall l :: l in GraphData(people, relationships, f).links <==>
      exists r :: r in relationships && RelationshipPasses(f, KeptIds(people, f), r) && l == LinkOf(r)
  {
    var ids := KeptIds(people, f);
    KeptIdsOfFilter(people, f);
    var rels := FilterRelationships(relationships, ids, f);
    FilterRelationshipsIsOneFilter(relationships, ids, f);
    FilterMembers(relationships, PassesAll(f, ids));
    var links := GraphData(people, relationships, f).links;
    forall l | l in links ensures exists r :: r in relationships && RelationshipPasses(f, ids, r) && l == LinkOf(r) {
      var i :| 0 <= i < |links| && links[i] == l;
      assert rels[i] in rels;
    }
    forall r | r in relationships && RelationshipPasses(f, ids, r) ensures LinkOf(r) in links {
      var i :| 0 <= i < |rels| && rels[i] == r;
      assert links[i] == LinkOf(r);
    }
  }

  /** No link dangles: both ends of every link are node IDs. */
  lemma NoDanglingLinks(people: seq<Person>, relationships: seq<Relationship>, f: FilterState)
    ensures var g := GraphData(people, relationships, f);
      forall l :: l in g.links ==> (exists n :: n in g.nodes && n.id == l.source) && (exists n :: n in g.nodes && n.id == l.target)
  {
    var g := GraphData(people, relationships, f);
    LinksArePassingRelationships(people, relationships, f);
    NodesArePassingPeople(people, relationships, f);
    forall l | l in g.links
      ensures (exists n :: n in g.nodes && n.id == l.source) && (exists n :: n in g.nodes && n.id == l.target)
    {
      var r :| r in relationships && RelationshipPasses(f, KeptIds(people, f), r) && l == LinkOf(r);
      var a :| a in people && PersonPasses(f, a) && a.ID == r.PersonA_ID;
      var b :| b in people && PersonPasses(f, b) && b.ID == r.PersonB_ID;
      assert NodeOf(a) in g.nodes && NodeOf(b) in g.nodes;
    }
  }

  /**
   * A relationship with an endpoint that is filtered out or unknown has no link,
   * even when its type and sentiment pass.
   */
  lemma DroppedEndpointDropsLink(people: seq<Person>, relationships: seq<Relationship>, f: FilterState, r: Relationship)
    requires r.PersonA_ID !in KeptIds(people, f) || r.PersonB_ID !in KeptIds(people, f)
    ensures LinkOf(r) !in GraphData(people, relationships, f).links
  {
    LinksArePassingRelationships(people, relationships, f);
  }

  /** The relationship type and sentiment facets change the links only, never the nodes. */
  lemma RelationshipFacetsKeepNodes(people: seq<Person>, relationships: seq<Relationship>, f: FilterState, types: seq<string>, sentiments: seq<string>)
    ensures GraphData(people, relationships, f.(relationshipTypes := types, sentiments := sentiments)).nodes
         == GraphData(people, relationships, f).nodes
  {
  }

  /**
   * With every facet empty, the nodes are all people in order and the links are
   * every relationship whose two endpoints are person IDs, in order.
   */
  lemma EmptyFiltersPassThrough(people: seq<Person>, relationships: seq<Relationship>)
    ensures var g := GraphData(people, relationships, EmptyFilters);
      && |g.nodes| == |people|
      && (forall i :: 0 <= i < |people| ==> g.nodes[i] == NodeOf(people[i]))
      && forall l :: l in g.links <==>
           exists r :: r in relationships && r.PersonA_ID in IdSet(people) && r.PersonB_ID in IdSet(people) && l == LinkOf(r)
  {
    LinksArePassingRelationships(people, relationships, EmptyFilters);
    assert KeptIds(people, EmptyFilters) == IdSet(people);
  }
}
