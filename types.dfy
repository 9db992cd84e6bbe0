/**
 * The record types and string enumerations of the relationship navigator:
 * people, relationships and events as read from the spreadsheet, the graph
 * projection, filter state, validation errors and the AI analysis types.
 *
 * Enumerated fields of the records are strings, as in the spreadsheet: the row
 * parser does not check them against the enumerations, so out-of-domain values
 * pass through. Each enumeration is also a datatype whose `Name` is the string.
 */
module Types {
  import opened Wrappers
  import JsText

  // ---- Union types ------------------------------------------------------------------

  datatype RelationshipType =
    | ReportsTo | Mentors | CollaboratesWith | CompetesWith | Influences
    | Sponsors | Advises | Blocks | Supports | ConflictsWith
  {
    function Name(): string {
      match this
      case ReportsTo => "Reports To"
      case Mentors => "Mentors"
      case CollaboratesWith => "Collaborates With"
      case CompetesWith => "Competes With"
      case Influences => "Influences"
      case Sponsors => "Sponsors"
      case Advises => "Advises"
      case Blocks => "Blocks"
      case Supports => "Supports"
      case ConflictsWith => "Conflicts With"
    }
  }

  datatype Sentiment = SentimentPositive | SentimentNegative | SentimentNeutral | Complex {
    function Name(): string {
      match this
      case SentimentPositive => "Positive"
      case SentimentNegative => "Negative"
      case SentimentNeutral => "Neutral"
      case Complex => "Complex"
    }
  }

  datatype EventType =
    | Meeting | Email | Decision | Conflict | Promotion
    | Departure | Reorganization | Alliance | Betrayal | Achievement
  {
    function Name(): string {
      match this
      case Meeting => "Meeting"
      case Email => "Email"
      case Decision => "Decision"
      case Conflict => "Conflict"
      case Promotion => "Promotion"
      case Departure => "Departure"
      case Reorganization => "Reorganization"
      case Alliance => "Alliance"
      case Betrayal => "Betrayal"
      case Achievement => "Achievement"
    }
  }

  datatype Impact = Positive | Negative | Neutral | Mixed {
    function Name(): string {
      match this
      case Positive => "Positive"
      case Negative => "Negative"
      case Neutral => "Neutral"
      case Mixed => "Mixed"
    }
  }

  datatype RiskLevel = Low | Medium | High {
    function Name(): string {
      match this
      case Low => "Low"
      case Medium => "Medium"
      case High => "High"
    }

    /** Position in the order Low < Medium < High. */
    function Rank(): nat {
      match this
      case Low => 0
      case Medium => 1
      case High => 2
    }
  }

  datatype Provider = OpenAI | Anthropic | Google {
    function Name(): string {
      match this
      case OpenAI => "openai"
      case Anthropic => "anthropic"
      case Google => "google"
    }
  }

  // ---- The value lists the components offer or accept ---------------------------------

  const RelationshipTypeNames: seq<string> := [
    "Reports To", "Mentors", "Collaborates With", "Competes With",
    "Influences", "Sponsors", "Advises", "Blocks", "Supports", "Conflicts With"]

  const SentimentNames: seq<string> := ["Positive", "Negative", "Neutral", "Complex"]

  const EventTypeNames: seq<string> := [
    "Meeting", "Email", "Decision", "Conflict", "Promotion",
    "Departure", "Reorganization", "Alliance", "Betrayal", "Achievement"]

  const ImpactNames: seq<string> := ["Positive", "Negative", "Neutral", "Mixed"]

  const RiskLevelNames: seq<string> := ["Low", "Medium", "High"]

  predicate Distinct(s: seq<string>) {
    forall i, j :: 0 <= i < j < |s| ==> s[i] != s[j]
  }

  /** Every RelationshipType, in the order of the RelationshipTypeNames list. */
  const AllRelationshipTypes: seq<RelationshipType> := [ReportsTo, Mentors, CollaboratesWith, CompetesWith, Influences, Sponsors, Advises, Blocks,
    Supports, ConflictsWith]

  /** The RelationshipTypeNames list names the values of AllRelationshipTypes position by position. */
  lemma RelationshipTypeNamesInOrder()
    ensures |AllRelationshipTypes| == |RelationshipTypeNames| == 10
    ensures forall k :: 0 <= k < 10 ==> RelationshipTypeNames[k] == AllRelationshipTypes[k].Name()
  {
  }

  /** The ten relationship-type strings are exactly the names of the ten relationship types. */
  lemma RelationshipTypeNamesExact()
    ensures forall t: RelationshipType :: t.Name() in RelationshipTypeNames
    ensures forall s :: s in RelationshipTypeNames ==> exists t: RelationshipType :: t.Name() == s
  {
    var all := AllRelationshipTypes;
    RelationshipTypeNamesInOrder();
    forall t: RelationshipType ensures t.Name() in RelationshipTypeNames {
      var k := match t
        case ReportsTo => 0 case Mentors => 1 case CollaboratesWith => 2 case CompetesWith => 3 case Influences => 4
        case Sponsors => 5 case Advises => 6 case Blocks => 7 case Supports => 8 case ConflictsWith => 9;
      assert all[k] == t;
    }
    forall s | s in RelationshipTypeNames ensures exists t: RelationshipType :: t.Name() == s {
      var k :| 0 <= k < 10 && RelationshipTypeNames[k] == s;
      assert all[k].Name() == s;
    }
  }

  /** The relationship-type strings are pairwise distinct. */
  lemma RelationshipTypeNamesDistinct()
    ensures |RelationshipTypeNames| == 10 && Distinct(RelationshipTypeNames)
  {
    forall i, j | 0 <= i < j < |RelationshipTypeNames| ensures RelationshipTypeNames[i] != RelationshipTypeNames[j] {
      assert RelationshipTypeNames[i][0] != RelationshipTypeNames[j][0] || RelationshipTypeNames[i][1] != RelationshipTypeNames[j][1] || RelationshipTypeNames[i][2] != RelationshipTypeNames[j][2];
    }
  }

  /** The four sentiment strings are exactly the names of the four sentiments. */
  lemma SentimentNamesExact()
    ensures forall t: Sentiment :: t.Name() in SentimentNames
    ensures forall s :: s in SentimentNames ==> exists t: Sentiment :: t.Name() == s
  {
    assert SentimentNames == [SentimentPositive.Name(), SentimentNegative.Name(),
      SentimentNeutral.Name(), Complex.Name()];
  }

  /** The sentiment strings are pairwise distinct. */
  lemma SentimentNamesDistinct()
    ensures |SentimentNames| == 4 && Distinct(SentimentNames)
  {
    forall i, j | 0 <= i < j < |SentimentNames| ensures SentimentNames[i] != SentimentNames[j] {
      assert SentimentNames[i][0] != SentimentNames[j][0] || SentimentNames[i][1] != SentimentNames[j][1] || SentimentNames[i][2] != SentimentNames[j][2];
    }
  }

  /** Every EventType, in the order of the EventTypeNames list. */
  const AllEventTypes: seq<EventType> := [Meeting, Email, Decision, Conflict, Promotion, Departure, Reorganization, Alliance,
    Betrayal, Achievement]

  /** The EventTypeNames list names the values of AllEventTypes position by position. */
  lemma EventTypeNamesInOrder()
    ensures |AllEventTypes| == |EventTypeNames| == 10
    ensures forall k :: 0 <= k < 10 ==> EventTypeNames[k] == AllEventTypes[k].Name()
  {
  }

  /** The ten event-type strings are exactly the names of the ten event types. */
  lemma EventTypeNamesExact()
    ensures forall t: EventType :: t.Name() in EventTypeNames
    ensures forall s :: s in EventTypeNames ==> exists t: EventType :: t.Name() == s
  {
    var all := AllEventTypes;
    EventTypeNamesInOrder();
    forall t: EventType ensures t.Name() in EventTypeNames {
      var k := match t
        case Meeting => 0 case Email => 1 case Decision => 2 case Conflict => 3 case Promotion => 4
        case Departure => 5 case Reorganization => 6 case Alliance => 7 case Betrayal => 8 case Achievement => 9;
      assert all[k] == t;
    }
    forall s | s in EventTypeNames ensures exists t: EventType :: t.Name() == s {
      var k :| 0 <= k < 10 && EventTypeNames[k] == s;
      assert all[k].Name() == s;
    }
  }

  /** The event-type strings are pairwise distinct. */
  lemma EventTypeNamesDistinct()
    ensures |EventTypeNames| == 10 && Distinct(EventTypeNames)
  {
    forall i, j | 0 <= i < j < |EventTypeNames| ensures EventTypeNames[i] != EventTypeNames[j] {
      assert EventTypeNames[i][0] != EventTypeNames[j][0] || EventTypeNames[i][1] != EventTypeNames[j][1] || EventTypeNames[i][2] != EventTypeNames[j][2];
    }
  }

  /** The four impact strings are exactly the names of the four impacts. */
  lemma ImpactNamesExact()
    ensures forall t: Impact :: t.Name() in ImpactNames
    ensures forall s :: s in ImpactNames ==> exists t: Impact :: t.Name() == s
  {
    assert ImpactNames == [Positive.Name(), Negative.Name(), Neutral.Name(), Mixed.Name()];
  }

  /** The impact strings are pairwise distinct. */
  lemma ImpactNamesDistinct()
    ensures |ImpactNames| == 4 && Distinct(ImpactNames)
  {
    forall i, j | 0 <= i < j < |ImpactNames| ensures ImpactNames[i] != ImpactNames[j] {
      assert ImpactNames[i][0] != ImpactNames[j][0] || ImpactNames[i][1] != ImpactNames[j][1] || ImpactNames[i][2] != ImpactNames[j][2];
    }
  }

  /** The three risk-level strings are exactly the names of the three risk levels. */
  lemma RiskLevelNamesExact()
    ensures forall t: RiskLevel :: t.Name() in RiskLevelNames
    ensures forall s :: s in RiskLevelNames ==> exists t: RiskLevel :: t.Name() == s
  {
    assert RiskLevelNames == [Low.Name(), Medium.Name(), High.Name()];
  }

  /** The risk-level strings are pairwise distinct. */
  lemma RiskLevelNamesDistinct()
    ensures |RiskLevelNames| == 3 && Distinct(RiskLevelNames)
  {
  }

  // ---- Records read from the spreadsheet -----------------------------------------------

  datatype Person = Person(
    ID: string, Name: string, Title: string, Department: string,
    Influence: int, RiskLevel: string, Notes: string)

  datatype Relationship = Relationship(
    ID: string, PersonA_ID: string, PersonB_ID: string, Type: string,
    Strength: int, Sentiment: string, Direction: string, Notes: string)

  /** An event; `People_IDs` is a comma-separated list of person IDs. */
  datatype RelationshipEvent = RelationshipEvent(
    ID: string, Date: string, People_IDs: string, Type: string,
    Description: string, Impact: string, Severity: int)

  /** `list.split(",").map(id => id.trim())`: the trimmed pieces of a comma-separated ID list, empty ones included. */
  function IdTokens(list: string): seq<string> {
    var parts := JsText.Split(list, ',');
    seq(|parts|, i requires 0 <= i < |parts| => JsText.Trim(parts[i]))
  }

  function PersonIds(people: seq<Person>): seq<string> {
    seq(|people|, i requires 0 <= i < |people| => people[i].ID)
  }

  function EventIds(events: seq<RelationshipEvent>): seq<string> {
    seq(|events|, i requires 0 <= i < |events| => events[i].ID)
  }

  /** The position of the first occurrence of `id`, or `|ids|` when there is none (`find` / a loop with `break`). */
  function FirstIndex(ids: seq<string>, id: string): (i: nat)
    ensures i <= |ids|
    ensures i < |ids| ==> ids[i] == id
    ensures forall k :: 0 <= k < i ==> ids[k] != id
    ensures i == |ids| <==> id !in ids
  {
    if ids == [] then 0
    else if ids[0] == id then 0
    else
      assert forall k :: 1 <= k < |ids| ==> ids[k] == ids[1..][k - 1];
      1 + FirstIndex(ids[1..], id)
  }

  /** The first-occurrence position is determined by the element there and the absence of `id` before it. */
  lemma FirstIndexIs(ids: seq<string>, id: string, i: nat)
    requires i <= |ids| && (i < |ids| ==> ids[i] == id)
    requires forall k :: 0 <= k < i ==> ids[k] != id
    ensures FirstIndex(ids, id) == i
  {
  }

  // ---- Graph projection ------------------------------------------------------------------

  datatype GraphNode = GraphNode(
    id: string, name: string, title: string, department: string,
    influence: int, riskLevel: string)

  /** A link; `relType` is the source's `type` field (a reserved word here). */
  datatype GraphLink = GraphLink(
    source: string, target: string, id: string, relType: string,
    strength: int, sentiment: string, direction: string)

  // ---- AI analysis ------------------------------------------------------------------------

  datatype LLMModel = LLMModel(id: string, name: string, provider: Provider)

  const AvailableModels: seq<LLMModel> := [
    LLMModel("gpt-4o", "GPT-4o", OpenAI),
    LLMModel("gpt-4o-mini", "GPT-4o Mini", OpenAI),
    LLMModel("claude-sonnet-4-5-20250514", "Claude 3.5 Sonnet", Anthropic),
    LLMModel("claude-haiku-4-5-20251001", "Claude 3.5 Haiku", Anthropic),
    LLMModel("gemini-1.5-flash", "Gemini 1.5 Flash", Google)]

  /** The models offered for one provider, in list order (the settings view takes the first). */
  function ModelsFor(p: Provider, models: seq<LLMModel>): (r: seq<LLMModel>)
    ensures forall m :: m in r <==> m in models && m.provider == p
  {
    if models == [] then []
    else (if models[0].provider == p then [models[0]] else []) + ModelsFor(p, models[1..])
  }

  /** Every provider has at least one model, so `models[0]` exists for each. */
  lemma EveryProviderHasModel(p: Provider)
    ensures |ModelsFor(p, AvailableModels)| >= 1
  {
    match p
    case OpenAI => assert AvailableModels[0] in ModelsFor(p, AvailableModels);
    case Anthropic => assert AvailableModels[2] in ModelsFor(p, AvailableModels);
    case Google => assert AvailableModels[4] in ModelsFor(p, AvailableModels);
  }

  /** Model ids are pairwise distinct. */
  lemma AvailableModelIdsDistinct()
    ensures forall i, j :: 0 <= i < j < |AvailableModels| ==> AvailableModels[i].id != AvailableModels[j].id
  {
  }

  /** The configuration of the AI provider; `provider` is free text as stored in settings. */
  datatype LLMConfig = LLMConfig(provider: string, model: string, apiKey: string)

  datatype AIAnalysisResult = AIAnalysisResult(eventType: string, impact: string, severity: int, summary: string)

  // ---- Filter and application state ---------------------------------------------------------

  /** Four facets; an empty facet places no restriction. */
  datatype FilterState = FilterState(
    departments: seq<string>, riskLevels: seq<string>,
    relationshipTypes: seq<string>, sentiments: seq<string>)

  const EmptyFilters := FilterState([], [], [], [])

  datatype ValidationError = ValidationError(table: string, row: int, field: string, message: string)

  datatype DataLoadResult = DataLoadResult(
    people: seq<Person>, relationships: seq<Relationship>,
    events: seq<RelationshipEvent>, errors: seq<ValidationError>)

  /** The optional fields of an accepted AI suggestion (`{Type?, Impact?, Severity?}`). */
  datatype EventFields = EventFields(Type: Option<string>, Impact: Option<string>, Severity: Option<int>)

  /** An event with the supplied fields replaced and every other field kept. */
  function WithFields(e: RelationshipEvent, f: EventFields): (r: RelationshipEvent)
    ensures r.ID == e.ID && r.Date == e.Date && r.People_IDs == e.People_IDs && r.Description == e.Description
    ensures r.Type == f.Type.GetOr(e.Type) && r.Impact == f.Impact.GetOr(e.Impact)
    ensures r.Severity == f.Severity.GetOr(e.Severity)
  {
    var e1 := if f.Type.Some? then e.(Type := f.Type.value) else e;
    var e2 := if f.Impact.Some? then e1.(Impact := f.Impact.value) else e1;
    if f.Severity.Some? then e2.(Severity := f.Severity.value) else e2
  }

  /** A write issued to a data store: a person's risk level or an event's suggested fields. */
  datatype Write = RiskWrite(personId: string, level: RiskLevel) | EventWrite(eventId: string, fields: EventFields)
}
