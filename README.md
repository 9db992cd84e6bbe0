# Relationship Navigator — a verified model of its core

Relationship Navigator keeps a small organisational map in three spreadsheet
tables (People, Relationships, Events). It reads them through an Office add-in
(the Excel host) or from an uploaded workbook (the web app), derives each
person's risk level from the negative events they appear in, shows the people
and their relationships as a filterable graph, lists events, and can ask an AI
provider to classify an event, writing the accepted classification back.

This project models that core in Dafny:

- **Types** (`types.dfy`): the string unions as datatypes with their display
  names. The value lists used by the panels and the response normaliser are
  proved to enumerate each union exactly and without repeats. The record types
  are here too: `GraphNode` and `GraphLink` carry exactly the subset of
  `Person` and `Relationship` fields the source declares. Also the
  model catalogue and the event-field edit.
- **Cells and row parsing** (`cells.dfy`, `row_parser.dfy`): a spreadsheet
  cell, the JavaScript coercions the parser applies, and `parseRows` as a loop
  proved against a recursive definition of the parsed records.
- **Excel data service** (`data_service.dfy`): the Excel host as a class whose
  tables the write operations update in place. A ghost log records each write.
- **Web data service** (`web_data_service.dfy`): the in-memory store with its
  cache-or-parse load, its blank-row filter and its in-place edits.
- **Risk service** (`risk_service.dfy`): score accumulation, score-to-level
  thresholds, and the write-back of changed levels.
- **LLM service** (`llm_service.dfy`): provider dispatch, the HTTP status
  mapping, the empty-content checks, code-fence stripping and normalisation of
  the parsed answer.
- **Views** (`graph_view.dfy`, `entities.dfy`, `filter_panel.dfy`,
  `colors.dfy`, `details_panel.dfy`):
  - the graph reduction;
  - the event helpers and event sorting;
  - the filter panel;
  - the colour rules;
  - the AI-analysis gating of the details panel.
- **Application shells** (`app.dfy`, `web_app.dfy`): the add-in's and the web
  app's load, apply-suggestion and selection handlers.
- **Helpers** (`wrappers.dfy`, `seqs.dfy`, `jstext.dfy`): `Option`/`Result`,
  sequence filtering, and the string functions the source takes from
  JavaScript: trim, split, number formatting and parsing, and ordering.

## Model

| member | source | states |
|---|---|---|
| Types.RelationshipTypeNamesExact | src/models/types.ts:5-15 | every relationship type's name is in the list of ten names, and every listed name belongs to a relationship type |
| Types.RelationshipTypeNamesDistinct | src/taskpane/components/FilterPanel.tsx:49-52 | the facet list has exactly 10 entries and no repeats |
| Types.SentimentNamesExact | src/models/types.ts:17 | the sentiment list names exactly the four sentiments |
| Types.SentimentNamesDistinct | src/taskpane/components/FilterPanel.tsx:54 | the sentiment list has 4 distinct entries |
| Types.EventTypeNamesExact | src/models/types.ts:19-29 | the event-type list names exactly the ten event types |
| Types.EventTypeNamesDistinct | src/services/LLMService.ts:11-15 | the valid event-type list has 10 distinct entries |
| Types.ImpactNamesExact | src/models/types.ts:31 | the impact list names exactly the four impacts |
| Types.ImpactNamesDistinct | src/services/LLMService.ts:16 | the impact list has 4 distinct entries |
| Types.RiskLevelNamesExact | src/models/types.ts:33 | the risk-level list names exactly Low, Medium and High |
| Types.RiskLevelNamesDistinct | src/taskpane/components/FilterPanel.tsx:47 | the risk-level list has 3 distinct entries |
| Types.ModelsFor | src/models/types.ts:91-103 | the models offered for a provider are exactly the catalogue entries of that provider |
| Types.EveryProviderHasModel | src/models/types.ts:89-103 | each of the three providers has at least one catalogue entry, so taking the first model is safe |
| Types.AvailableModelIdsDistinct | src/models/types.ts:97-103 | no two catalogue entries share a model id |
| Types.FirstIndex | src/services/WebDataService.ts:163-166 | the position of the first entry equal to the id, or the length when there is none; every earlier entry differs |
| Types.FirstIndexIs | src/services/WebDataService.ts:146-147 | a position before which no entry matches, and which holds the id or is the end, is the first-match position |
| Types.WithFields | src/services/WebDataService.ts:148-156 | an event edit sets Type, Impact and Severity only where a value is supplied; the ID, Date, People_IDs and Description are kept |
| Cells.TextOrEmpty | src/services/DataService.ts:131 | a null cell becomes "", any other cell its text; the result is empty only for null or empty text |
| Cells.NumberOrZeroOfNumeral | src/services/DataService.ts:129 | the numeral of any integer coerces back to that integer |
| Cells.CellReadsBack | src/services/DataService.ts:129-131 | `Number(String(v))` gives back a number cell's value; text of digits with white space around reads as the digits' value; text that is not a number reads as 0 |
| RowParser.RowRecord | src/services/DataService.ts:120-136 | every header name is a field of the record built from a row |
| RowParser.RowRecordKeys | src/services/DataService.ts:120-136 | the record's fields are exactly the header names, no more and no fewer |
| RowParser.ParseRows | src/services/DataService.ts:110-147 | the loop returns the records of the rows with an ID, in row order, and appends exactly one "Missing ID" error per rejected row after the caller's errors |
| RowParser.BuildRecord | src/services/DataService.ts:119-136 | the inner loop builds the row's record and finds whether its ID is truthy |
| RowParser.ParseRow | src/services/DataService.ts:119-144 | one pass of the row loop keeps the row's record when it has an ID and otherwise appends one Missing ID error for it |
| RowParser.AddColumn | src/services/DataService.ts:124-135 | one pass of the column loop extends the record by the column's coerced cell and updates the ID test |
| RowParser.ParseRowsAccounting | src/services/DataService.ts:118-144 | kept records plus Missing ID errors equal the number of rows |
| RowParser.MissingIdErrorsExact | src/services/DataService.ts:138-141 | row i gets the error `{table, i+1, "ID", "Missing ID"}` exactly when it has no ID, and every error names such a row |
| RowParser.ParsedRecordsAppend | src/services/DataService.ts:118-143 | parsing two blocks of rows gives the records of the first followed by those of the second, so input order is kept |
| RowParser.NoIdColumnRejectsAll | src/services/DataService.ts:121-141 | without an "ID" header no record is kept and every row gets a Missing ID error, in order |
| RowParser.RowRecordLastColumn | src/services/DataService.ts:123-134 | a field takes the coerced cell of the last column bearing its name |
| RowParser.RecordFieldCoercion | src/services/DataService.ts:127-132 | numeric fields get Number(v), or 0 when that is falsy (null, absent, zero and non-numeric give 0); other fields get "" for null or absent cells and `String(v)` otherwise |
| RowParser.HasIdIffIdNonEmpty | src/services/DataService.ts:135-138 | with one ID column, a row is kept exactly when its coerced ID is non-empty |
| DataService.HeaderNames | src/services/DataService.ts:161 | the header names, one per header cell |
| DataService.IndexOf | src/services/DataService.ts:162-163 | `indexOf`: -1 exactly when the name is absent, else the first position holding it |
| DataService.FirstMatch | src/services/DataService.ts:166-167 | the first body row whose ID cell reads as the id, or the row count when none does |
| DataService.NoSheetsNoErrors | src/services/DataService.ts:53-104 | with none of the three sheets, the load gives empty data and no errors |
| DataService.LoadSectionAccounting | src/services/DataService.ts:53-68 | for a present sheet and table, the records plus errors of the section equal the table's row count |
| DataService.MissingTableError | src/services/DataService.ts:65-67 | a present sheet whose table is missing gives no records and one row-0 error mentioning "not found" |
| DataService.RiskWriteTouchesOneCell | src/services/DataService.ts:203-214 | the risk write changes nothing when the ID or RiskLevel column is missing; otherwise only the RiskLevel cell of the first matching row changes, to the level's name |
| DataService.EventWriteTouchesSuppliedCells | src/services/DataService.ts:161-188 | the event write changes nothing without an ID column; otherwise only supplied fields whose columns exist change, in the first matching row only |
| DataService.ExcelHost.constructor | src/services/DataService.ts:27-35 | a host with the given sheets and tables and an empty write log |
| DataService.ExcelHost.LoadSection | src/services/DataService.ts:53-68 | one section's records, with its errors appended after the ones already collected |
| DataService.ExcelHost.LoadAllData | src/services/DataService.ts:37-108 | a reachable host returns the three sections in the order People, Relationships, Events; an unreachable one fails |
| DataService.FindRow | src/services/DataService.ts:208-213 | the scan stops at the first body row whose ID cell reads as the id, or past the end when none does |
| DataService.RiskLevelWritten | src/services/DataService.ts:203-214 | the People table after the header lookup, the row scan and the cell write is the specified risk edit |
| DataService.ExcelHost.UpdatePersonRiskLevel | src/services/DataService.ts:194-218 | succeeds exactly when the People table exists; then the table gets the risk edit and the log one write, else nothing changes |
| DataService.ExcelHost.WriteEventFields | src/services/DataService.ts:149-192 | succeeds exactly when the Events table exists; then the table gets the event edit and the log one write, else nothing changes |
| DataService.EditEventRow | src/services/DataService.ts:168-185 | the three field checks produce the row the event edit specifies |
| WebData.NonBlankRowsExact | src/services/WebDataService.ts:62 | the blank-row filter keeps exactly the rows with some non-null, non-empty cell |
| WebData.SheetAccounting | src/services/WebDataService.ts:57-67 | a present sheet's records plus errors equal its non-blank data rows; a missing sheet gives no records and one "not found" error |
| WebData.MissingIdRowsCountNonBlank | src/services/WebDataService.ts:61-63 | Missing ID errors name the sheet and a row number counted among the non-blank data rows only |
| WebData.LoadWorkbookAccounting | src/services/WebDataService.ts:54-93 | over a whole workbook, records plus errors equal the non-blank data rows plus one per missing sheet |
| WebData.MissingPeopleSheet | src/services/WebDataService.ts:65-93 | a missing People sheet gives no people and its error first, and the other two sheets still load |
| WebData.WebDataService.constructor | src/services/WebDataService.ts:12-16 | no workbook and empty caches |
| WebData.WebDataService.SetWorkbook | src/services/WebDataService.ts:25-31 | the workbook is stored and all three caches are emptied |
| WebData.WebDataService.ResetData | src/services/WebDataService.ts:194-198 | all three caches are emptied |
| WebData.WebDataService.LoadSheet | src/services/WebDataService.ts:57-67 | one sheet's records, with its errors appended after those already collected |
| WebData.WebDataService.LoadAllData | src/services/WebDataService.ts:33-101 | a non-empty cache is returned as it is with no errors and no change; with no workbook, empty data and only "No workbook loaded"; otherwise the parsed workbook, which becomes the cache |
| WebData.WebDataService.WriteEventFields | src/services/WebDataService.ts:142-160 | only the first event with the id gets the supplied fields; an unknown id changes nothing |
| WebData.WebDataService.UpdatePersonRiskLevel | src/services/WebDataService.ts:162-169 | only the first person with the id gets the new level; an unknown id changes nothing |
| RiskService.CalculateRiskScores | src/services/RiskService.ts:14-50 | the levels are keyed by exactly the given person ids, and each is the level of the person's score over the events |
| RiskService.ZeroScores | src/services/RiskService.ts:20-23 | every person id starts at score 0, and no other key is present |
| RiskService.AddNegativeEvent | src/services/RiskService.ts:26-35 | a negative event adds its contribution to each known id and adds no key |
| RiskService.AddSeverity | src/services/RiskService.ts:29-35 | the token loop adds the severity to a known id once per occurrence of its token, and adds no key |
| RiskService.ScoreLevels | src/services/RiskService.ts:38-47 | each score is mapped to its level, keys unchanged |
| RiskService.TokenSumCountsOccurrences | src/services/RiskService.ts:29-34 | a person gains Severity once per occurrence of their id among the event's trimmed tokens, repeats included |
| RiskService.ScoreAppend | src/services/RiskService.ts:26-35 | scores over two lists of events add up |
| RiskService.NonNegativeEventIgnored | src/services/RiskService.ts:26-27 | an event whose Impact is not exactly "Negative" leaves every score unchanged, whatever its Severity |
| RiskService.NegativeEventAdds | src/services/RiskService.ts:27-34 | a negative event adds Severity times the id's occurrences in its People_IDs |
| RiskService.NoNegativeEventsLow | src/services/RiskService.ts:21-22 | without negative events a person's score is 0 and their level Low |
| RiskService.LevelThresholds | src/services/RiskService.ts:39-47 | High from 15, Medium from 8 to 14, Low below 8, with both boundaries inclusive |
| RiskService.LevelMonotone | src/services/RiskService.ts:40-46 | a higher score never gives a lower level |
| RiskService.RiskPlanAppend | src/services/RiskService.ts:58-63 | the writes for two blocks of people are those of the first, then those of the second |
| RiskService.RiskPlanSound | src/services/RiskService.ts:58-63 | every planned write is a risk write of a computed level to a listed person whose stored level differs; there are at most as many writes as people |
| RiskService.RiskPlanComplete | src/services/RiskService.ts:58-63 | every listed person whose computed level differs from the stored one gets a write |
| RiskService.RiskPlanSkipsUnchanged | src/services/RiskService.ts:60 | when every stored level already matches, nothing is written |
| RiskService.UpdateRiskLevels | src/services/RiskService.ts:52-64 | with a reachable host and the People table, exactly the planned writes go out in people order and the table holds their effect; otherwise it fails exactly when some write was needed, and nothing changes |
| RiskService.SendRiskWrites | src/services/RiskService.ts:58-63 | the write loop sends the plan in order, or stops at the first failure with nothing changed |
| RiskService.SendOne | src/services/RiskService.ts:59-62 | one person's write goes out only when their level changed, it is logged and applied after the earlier ones, and it fails only when the People table is unavailable |
| GraphView.GraphData | src/taskpane/components/GraphView.tsx:46-97 | there are no more nodes than people and no more links than relationships |
| GraphView.FilterPeopleIsOneFilter | src/taskpane/components/GraphView.tsx:49-58 | the department pass and then the risk pass equal a single pass over both facets |
| GraphView.FilterRelationshipsIsOneFilter | src/taskpane/components/GraphView.tsx:62-75 | the endpoint, type and sentiment passes equal one pass over all three conditions |
| GraphView.KeptIdsOfFilter | src/taskpane/components/GraphView.tsx:60 | the id set is that of the people who pass |
| GraphView.NodesArePassingPeople | src/taskpane/components/GraphView.tsx:49-58 | a node is present exactly when it is the projection of a person passing both person facets, where an empty facet admits everyone |
| GraphView.LinksArePassingRelationships | src/taskpane/components/GraphView.tsx:62-94 | a link is present exactly when it projects a relationship whose endpoints survive and which passes both relationship facets |
| GraphView.NoDanglingLinks | src/taskpane/components/GraphView.tsx:60-64 | every link's source and target are ids of surviving nodes |
| GraphView.DroppedEndpointDropsLink | src/taskpane/components/GraphView.tsx:62-64 | a relationship touching a filtered-out or unknown person gives no link, whatever its facets |
| GraphView.RelationshipFacetsKeepNodes | src/taskpane/components/GraphView.tsx:66-84 | changing the type and sentiment facets never changes the nodes |
| GraphView.EmptyFiltersPassThrough | src/taskpane/components/GraphView.tsx:47-64 | with all facets empty, the nodes are all people in order, and the links are the relationships with both endpoints among the people |
| Entities.GetPersonNameCases | src/taskpane/components/EventsView.tsx:121-124 | the name of the first person with the id, or the id itself when there is none or the name is empty |
| Entities.ResolvedIdsAreCleanTokens | src/taskpane/components/EventsView.tsx:126-131 | the resolved ids are exactly the non-empty comma-split tokens, trimmed, with no comma and no border space |
| Entities.IdTokensClean | src/taskpane/components/DetailsPanel.tsx:143 | comma-split trimmed tokens contain no comma and have no border space |
| Entities.ResolveJoinedIds | src/taskpane/components/EventsView.tsx:126-131 | resolving a comma-joined list of clean ids returns that list, in order and with duplicates |
| Entities.InsertByDate | src/taskpane/components/EventsView.tsx:116 | inserting an event adds exactly that event |
| Entities.SortByDateDesc | src/taskpane/components/EventsView.tsx:116 | sorting returns a permutation of its input |
| Entities.InsertByDateSorted | src/taskpane/components/EventsView.tsx:116 | inserting into a latest-first list keeps it latest-first |
| Entities.SortByDateDescCorrect | src/taskpane/components/DetailsPanel.tsx:147 | the sort returns a permutation ordered by Date descending |
| Entities.PersonEventsExact | src/taskpane/components/DetailsPanel.tsx:141-148 | a person's events are exactly those whose trimmed People_IDs tokens include the id, latest first, a permutation of the filtered events |
| Entities.FilteredEventsExact | src/taskpane/components/EventsView.tsx:105-119 | the events kept are exactly those matching each set filter, ANDed, latest first; with no filter all events are kept |
| Entities.SortKeepsMembers | src/taskpane/components/EventsView.tsx:116 | sorting neither drops nor invents an event |
| FilterPanel.Unique | src/taskpane/components/FilterPanel.tsx:66-67 | the same values as the input, each at most once |
| FilterPanel.InsertAscending | src/taskpane/components/FilterPanel.tsx:67 | inserting adds exactly the new value |
| FilterPanel.SortAscending | src/taskpane/components/FilterPanel.tsx:67 | sorting returns a permutation |
| FilterPanel.InsertAscendingSorted | src/taskpane/components/FilterPanel.tsx:67 | insertion keeps an ascending list ascending |
| FilterPanel.SortAscendingSorted | src/taskpane/components/FilterPanel.tsx:67 | the sorted list is ascending |
| FilterPanel.DepartmentsExact | src/taskpane/components/FilterPanel.tsx:65-68 | the department list has no repeats and no empty entry, is ascending, and holds exactly the non-empty departments of the people |
| FilterPanel.ActiveFilterCountZero | src/taskpane/components/FilterPanel.tsx:70-74 | the count is 0 exactly when all four facets are empty, so Clear is shown exactly when some facet holds a value; each facet handler moves the count by the new facet's size minus the old one's |
| FilterPanel.HandlersReplaceOneFacet | src/taskpane/components/FilterPanel.tsx:76-99 | each handler replaces its own facet with the checked items and leaves the other three as they were |
| FilterPanel.ClearFiltersPassesEveryone | src/taskpane/components/FilterPanel.tsx:101-108 | clearing gives the all-empty state, hides the Clear action, and the graph then shows every person |
| Colors.Wrap32 | src/utils/colors.ts:23 | the bitwise-or with zero wrap: a signed 32-bit value congruent to x modulo 2^32, and x itself when already in range |
| Colors.HashAccumulator | src/utils/colors.ts:19-24 | the accumulator stays within the signed 32-bit range |
| Colors.HashCode | src/utils/colors.ts:25 | the hash is non-negative and at most 2^31 |
| Colors.HashString | src/utils/colors.ts:19-26 | the loop computes the hash, a non-negative integer |
| Colors.GetDepartmentColor | src/utils/colors.ts:28-32 | always a palette entry; "#69797E" for no department, else the entry at the hash modulo 12 |
| Colors.SingleCharacterHash | src/utils/colors.ts:19-32 | a one-character department hashes to its character code |
| Colors.HashAccumulatorAppend | src/utils/colors.ts:21-24 | hashing one more character applies one step to the hash so far |
| Colors.SentimentColors | src/utils/colors.ts:34-47 | each sentiment has its fixed colour, and any other value gets Neutral's |
| Colors.GetRiskBorderColor | src/utils/colors.ts:49-52 | a border colour exactly for "High" |
| LlmService.ProviderOf | src/services/LLMService.ts:29-38 | a provider is recognised only under its own name |
| LlmService.ProviderOfName | src/services/LLMService.ts:29-38 | each provider's name selects it, and exactly "openai", "anthropic" and "google" are recognised |
| LlmService.UnsupportedProviderFails | src/services/LLMService.ts:37-38 | any other provider fails with "Unsupported provider: " and its name |
| LlmService.ReplyStatusMapping | src/services/LLMService.ts:122-146 | a reply passes exactly when its status is 2xx; a failed fetch, 401, 429 and 500/502/503 give their fixed messages; any other status gives "API error: " followed by the status |
| LlmService.ApiErrorNamesStatus | src/services/LLMService.ts:141 | the fallback message starts with "API error: " and then spells the status |
| LlmService.EmptyContentFails | src/services/LLMService.ts:62-65 | a reply without message content fails with "Empty response from" and the provider's label |
| LlmService.ReplyTextIsParsed | src/services/LLMService.ts:28-65 | for a known provider and a 2xx reply with non-empty content, the analysis is the parse of that content |
| LlmService.ContentIsParsed | src/services/LLMService.ts:89-92 | non-empty content at the provider's path goes to the parser |
| LlmService.ParseResponse | src/services/LLMService.ts:148-177 | a success is always a valid result; the parse fails exactly when the cleaned text is not JSON or is `null`, and text that is not JSON fails with the JSON message |
| LlmService.Normalise | src/services/LLMService.ts:162-176 | a successful result has a valid event type and impact, a severity between 1 and 10 and a non-empty summary; only a JSON null fails (the field values themselves are stated by EnumDefaults, SeverityRules and SummaryDefault) |
| LlmService.DropClosingFenceLine | src/services/LLMService.ts:152 | the closing fence and its newline are removed |
| LlmService.DropTaggedOpeningFence | src/services/LLMService.ts:152 | "```json" and its newline are removed |
| LlmService.DropPlainOpeningFence | src/services/LLMService.ts:152 | "```" and its newline are removed |
| LlmService.StripJsonFenceRoundTrip | src/services/LLMService.ts:150-153 | a body wrapped in a json-tagged fence comes back unchanged |
| LlmService.StripPlainFenceRoundTrip | src/services/LLMService.ts:150-153 | a body wrapped in a plain fence comes back unchanged |
| LlmService.UnfencedOnlyTrimmed | src/services/LLMService.ts:150-151 | text not starting with a fence is only trimmed |
| LlmService.UnparsableFails | src/services/LLMService.ts:155-160 | a JSON parse failure gives "Failed to parse AI response as JSON." |
| LlmService.EnumDefaults | src/services/LLMService.ts:162-173 | an event type outside the ten becomes "Meeting" and an impact outside the four becomes "Neutral"; valid values are kept |
| LlmService.SeverityRules | src/services/LLMService.ts:164-174 | severity always lies in 1..10; missing, zero, null and non-numeric give 5; any other value that `Number()` reads, numeric text included, is clamped to 1..10 |
| LlmService.SummaryDefault | src/services/LLMService.ts:165-175 | a non-empty summary is kept, and an empty or missing one becomes "No analysis available." |
| LlmService.NormaliseDefaultsAndClamps | src/services/LLMService.ts:162-176 | an answer with event type "Bogus", impact "Positive", severity text "15" and an empty summary becomes Meeting, Positive, 10 and "No analysis available." |
| LlmService.NormaliseValidRoundTrip | src/services/LLMService.ts:162-176 | normalising an already valid result returns it unchanged |
| DetailsPanel.Panel.constructor | src/taskpane/components/DetailsPanel.tsx:128-132 | no analysis running, no results, no error, no dialog and nothing pending |
| DetailsPanel.Panel.AnalyzeWith | src/taskpane/components/DetailsPanel.tsx:150-173 | without acceptance the event waits behind the dialog and nothing is sent; unconfigured, the settings error is set; otherwise the result is stored under the event id or the failure shown, and the busy marker is cleared either way |
| DetailsPanel.Panel.RunAnalysis | src/taskpane/components/DetailsPanel.tsx:162-172 | a success adds the result under the event id and keeps the others; a failure shows its message; the busy marker is cleared in both cases |
| DetailsPanel.Panel.HandleAnalyze | src/taskpane/components/DetailsPanel.tsx:150-173 | the privacy gate, then the configuration gate, then the analysis, read with the panel's own acceptance flag |
| DetailsPanel.Panel.PendingEvent | src/taskpane/components/DetailsPanel.tsx:178-179 | a pending event is one of the panel's events, with the pending id |
| DetailsPanel.Panel.HandlePrivacyAcceptAsWritten | src/taskpane/components/DetailsPanel.tsx:175-183 | as written, with a pending event and privacy not yet accepted, the dialog opens again, the pending event is dropped, and nothing is analysed |
| DetailsPanel.Panel.HandlePrivacyAccept | src/taskpane/components/DetailsPanel.tsx:175-183 | as intended, the dialog closes and the pending event is analysed or told to configure the settings |
| DetailsPanel.Panel.Rerender | src/taskpane/components/DetailsPanel.tsx:122 | the next render carries the acceptance the parent recorded as the panel's own flag |
| DetailsPanel.RetryAfterRerenderAnalyses | src/taskpane/components/DetailsPanel.tsx:150-183 | after the handler as written, a second Analyse click on the next render finds privacy accepted and stores the analysis |
| DetailsPanel.Panel.DismissPrivacyDialog | src/taskpane/components/DetailsPanel.tsx:397-404 | the dialog closes and the pending event is dropped unanalysed |
| DetailsPanel.Panel.HandleApply | src/taskpane/components/DetailsPanel.tsx:185-194 | nothing without a stored result; otherwise exactly that result's type, impact and severity are forwarded for the event |
| DetailsPanel.StaleAcceptDropsAnalysis | src/taskpane/components/DetailsPanel.tsx:175-183 | on the sample clicks, the handler as written leaves the dialog open, nothing pending and no analysis |
| DetailsPanel.AcceptRunsAnalysis | src/taskpane/components/DetailsPanel.tsx:175-183 | on the same clicks, the intended handler closes the dialog and stores the analysis |
| App.NoSheetsIsNotMissing | src/taskpane/components/App.tsx:94-103 | a workbook with none of the three sheets is not taken for missing tables: it loads as empty data |
| App.AbsentTablesAreMissing | src/taskpane/components/App.tsx:94-103 | a People sheet without any of the three tables counts as missing tables |
| App.DataIsNeverMissing | src/taskpane/components/App.tsx:94-98 | a load with at least one record never counts as missing, whatever its errors |
| App.AddIn.constructor | src/taskpane/components/App.tsx:69-89 | empty data, loading, tables assumed present, nothing selected |
| App.AddIn.LoadData | src/taskpane/components/App.tsx:90-120 | a failed load marks the tables missing; a "not found" load with no data marks them missing and keeps the shown data; otherwise the four lists are replaced and, when there are people, their changed levels are written back and a failed write marks the tables missing; loading always ends |
| App.AddIn.ShowLoaded | src/taskpane/components/App.tsx:105-119 | the four lists take the loaded values, and the risk write-back runs only when people were loaded, without changing the shown people |
| App.AddIn.HandleApplySuggestions | src/taskpane/components/App.tsx:159-165 | the write completes before the reload, which then reads the edited table; a failed write rejects with nothing reloaded |
| App.AddIn.SelectPerson | src/taskpane/components/App.tsx:167-170 | the person is selected and the relationship selection cleared |
| App.AddIn.SelectRelationship | src/taskpane/components/App.tsx:172-175 | the relationship is selected and the person selection cleared |
| WebApp.SyncedLevels | src/webapp/components/WebApp.tsx:118-124 | the synced list has one person per loaded person |
| WebApp.SyncedLevelsMatchScores | src/webapp/components/WebApp.tsx:116-124 | each person gets the level of their score, and a person whose level already matches is left as is |
| WebApp.SyncKeepsLevels | src/webapp/components/WebApp.tsx:116-124 | syncing does not change the levels computed from the people |
| WebApp.SyncIsIdempotent | src/webapp/components/WebApp.tsx:116-126 | after a sync, a second sync writes nothing and changes nobody |
| WebApp.StoreWriteIsNoOp | src/webapp/components/WebApp.tsx:121-122 | once a person has been set in place, the store's own update of that person changes nothing more |
| WebApp.Shell.constructor | src/webapp/components/WebApp.tsx:79-105 | no workbook, empty data, graph tab, no filters, nothing selected |
| WebApp.Shell.LoadData | src/webapp/components/WebApp.tsx:107-128 | the shown lists take the load result; when people were loaded, every changed level is set in place in the store's people and sent to the store, in order, and unchanged people are neither edited nor written |
| WebApp.Shell.SyncRiskLevels | src/webapp/components/WebApp.tsx:118-124 | the loop leaves the store's people synced and logs exactly the planned writes |
| WebApp.Shell.SyncPerson | src/webapp/components/WebApp.tsx:119-123 | one person is synced in place, and a write is logged only when their level changed |
| WebApp.SyncedAll | src/webapp/components/WebApp.tsx:118-124 | once the loop has passed every person, the store's people are the synced people |
| WebApp.Shell.HandleReUpload | src/webapp/components/WebApp.tsx:141-151 | all lists and errors are cleared, both selections dropped, the filters emptied and the graph tab shown |
| WebApp.Shell.SelectPerson | src/webapp/components/WebApp.tsx:171-174 | the person is selected and the relationship selection cleared |
| WebApp.Shell.SelectRelationship | src/webapp/components/WebApp.tsx:176-179 | the relationship is selected and the person selection cleared |
| WebApp.Shell.HandleApplySuggestions | src/webapp/components/WebApp.tsx:163-169 | with a filled cache, the edit reaches the cached event first and the reload returns the cache, so the shown events carry the edit and the risk levels are recomputed from them |
| WebApp.Shell.HandleFileLoaded | src/webapp/components/WebApp.tsx:130-139 | the new workbook is parsed and shown with synced levels; the workbook is marked loaded and loading ends |
| Seqs.FilterMembers | src/taskpane/components/GraphView.tsx:49-58 | a filter keeps exactly the elements that satisfy its test |
| Seqs.FilterTwice | src/taskpane/components/GraphView.tsx:49-58 | two filters in a row equal one filter by both tests |
| JsText.Trim | src/services/RiskService.ts:29 | the trimmed text is no longer than the input, has no white space at either end, and holds only characters of the input |
| JsText.TrimIsInfix | src/services/RiskService.ts:29 | the trimmed text is the piece of the input after its leading white space and before its trailing white space, and what is dropped is all white space |
| JsText.Split | src/services/RiskService.ts:29 | the parts contain no separator, and joining them gives back the text |
| JsText.SplitJoin | src/taskpane/components/EventsView.tsx:127-130 | splitting a join of separator-free parts gives back those parts |
| JsText.LexLeTotal | src/taskpane/components/EventsView.tsx:116 | any two dates are comparable |
| JsText.LexLeTrans | src/taskpane/components/EventsView.tsx:116 | date order is transitive |
| JsText.LexLeAntisym | src/taskpane/components/EventsView.tsx:116 | dates that compare both ways are equal |
| JsText.ParseNumberIntToString | src/services/DataService.ts:129 | a formatted integer parses back to itself |
| JsText.ParseNumberOfDigits | src/services/DataService.ts:129 | digits with white space around them parse as the digits' value |

## Left out

- Office.js and the workbook reader are not modelled: `Excel.run`, range loading and `XLSX.read`/`sheet_to_json`. The Excel host is a class holding sheet names, tables and a reachable flag. A workbook is a map from sheet name to rows of cells.
- `insertTemplate` and the change-handler registration (src/services/DataService.ts:220-293) are host I/O and are not modelled.
- The settings persistence (`saveLLMConfig`, `loadLLMConfig`, `savePrivacyAccepted`, `loadPrivacyAccepted`) is key/value storage and is not modelled.
- The app handlers `handleConfigChange`, `handlePrivacyAccepted` and `handleInsertTemplate` do nothing else and are not modelled either.
- Building the HTTP requests is not modelled: provider URLs, headers and `JSON.stringify` of the body. The reply is a parameter: a connection failure, or a status, a status text and an optional JSON body.
- `JSON.parse` is a parameter. The event description sent to a provider is kept only as a ghost log.
- `Number()` and numbers in general: the model parses and stores integers only, so `Math.round` is the identity. Fractions, exponents and hexadecimal numerals count as non-numeric: in a numeric column of a table they give 0, and as the severity of an AI answer they give the default 5.
- `getEdgeThickness` works on floating point and is not modelled.
- `localeCompare` is plain lexicographic order by character code, which agrees with it on the ISO dates the tables hold.
- `charCodeAt` is taken per Dafny `char`. A character outside the Basic Multilingual Plane counts as one code unit, not two.
- The d3 simulation, rendering, styling and the debounce timer are not modelled.
- The out-of-order completion of concurrent analyses is not modelled. Each analysis is one atomic step.
- React state batching is modelled only where it decides behaviour: the stale acceptance flag under Findings.
- An absent field of a parsed record reads as "" or 0 in the typed entities, where the source has `undefined`. So with no People_IDs column the model gives an event no people. The source instead throws at `event.People_IDs.split` when it scores a Negative event (src/services/RiskService.ts:29), which the add-in's load turns into the missing-tables screen, and when it lists a person's events (src/taskpane/components/DetailsPanel.tsx:144). With no Severity column the model adds 0, where the source makes every touched score NaN, which reads as Low.
- RiskService.UpdateRiskLevels: the write-back stops at the first write that fails, and the failure reaches the caller; the people after it are not written.
- LlmService.Normalise: a JSON `null` answer fails, because reading a field of `null` throws.

## Findings

| source | as written | input that shows it | evidently intended | confidence | as-written member | corrected member |
|---|---|---|---|---|---|---|
| src/taskpane/components/DetailsPanel.tsx:175-183 | `handlePrivacyAccept` calls `handleAnalyze` of the same render, whose `privacyAccepted` is still false. The dialog opens again and the pending event is cleared, so no analysis runs | privacy not yet accepted, provider configured: click Analyse on an event, then "I Understand, Continue" | the dialog closes and the pending event is analysed | not executed | DetailsPanel.StaleAcceptDropsAnalysis (over DetailsPanel.Panel.HandlePrivacyAcceptAsWritten) | DetailsPanel.AcceptRunsAnalysis (over DetailsPanel.Panel.HandlePrivacyAccept) |
