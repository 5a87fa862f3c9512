# MES ontology platform — Dafny model of the core

The ontology platform is a manufacturing-execution (MES) tool. Its FastAPI
back end stores RDF triples in Neo4j and exposes them, along with a graph
view and a small AutoML service. Several front ends read the same data:

- a Next.js front end (`app/onto-front`): dashboard hooks, a graph store,
  the Cytoscape view, the API client, and the data-manager page;
- a legacy vanilla/Alpine JavaScript front end (`app/frontend`,
  `backup/frontend`): the dashboard manager, the relationship editor,
  graph filtering, the API helpers and `utils.js`;
- a React "ontology platform" app (`app/ontology-platform`): CSV parsing,
  matching dataset features to ontology functions, augmentation
  suggestions, and the ontology graph layout.

This project models the logic of those files. It leaves out rendering,
networking and storage. There is one Dafny module per source file, plus
shared helpers:

| module | models |
|---|---|
| `Wrappers`, `Seqs`, `Strings`, `OrderedMaps`, `MesTypes` | shared helpers: `Option`, filtering/counting/stable sort, ASCII case and trimming, JS insertion-ordered objects, the MES record types |
| `Analysis` | `app/ontology-platform/services/analysisService.ts` |
| `CsvParser` | `app/ontology-platform/utils/csvParser.ts` |
| `RelationshipEditor` | `backup/frontend/js/relationship.js` |
| `QualityTrend`, `Dashboard` | `app/onto-front/src/lib/hooks/useDashboard.ts` |
| `DashboardManagerJs` | `backup/frontend/js/dashboard.js` |
| `GraphElements` | `app/onto-front/src/lib/utils/transformers.ts` |
| `GraphManager` | `backup/frontend/js/graph.js` |
| `GraphView` | `app/onto-front/src/lib/hooks/useCytoscape.ts` |
| `GraphStore` | `app/onto-front/src/lib/stores/graphStore.ts` |
| `ApiClient` | `app/onto-front/src/lib/api/client.ts`, `app/onto-front/src/components/providers/QueryProvider.tsx` |
| `LegacyApi` | `app/frontend/js/api.js` |
| `JsUtils` | `app/frontend/js/utils.js` |
| `OntologyGraph` | `app/ontology-platform/components/OntologyGraph.tsx` |
| `AppPlatform` | `app/ontology-platform/App.tsx` |
| `AppJs` | `backup/frontend/js/app.js` |
| `DataManager` | `app/onto-front/app/data-manager/page.tsx` |
| `BackendAutoml` | `app/backend/routers/automl.py`, `app/backend/services/automl.py` |
| `BackendDb` | `app/backend/db/neo4j.py` (how `neo4j_run` turns a database failure into an HTTPException) |
| `BackendGraph` | `app/backend/routers/graph.py` |
| `BackendOntology` | `app/backend/routers/ontology.py` |

Conventions:

- Code that mutates state becomes a Dafny `class`. Examples are the
  relationship editor's history, the dashboard manager, the graph
  manager, the Cytoscape view, the graph store, the legacy result cache
  and the app component. Every method's `ensures` states its new fields
  in terms of the old ones. `AppJs.App` also has a `Valid()` invariant
  and a `Data()` abstraction, and its methods tie the new `Data()` to a
  function of the old one. `RelationshipEditor.RelationshipManager` has
  a `Valid()` invariant on its undo history.
- Loops that accumulate become methods with `while` loops, proved against
  the specification functions. Examples are grouping by date, filling the
  node map, the CSV row loop, the model-selection loop and the bulk triple
  operation.
- Pure expressions become functions, with lemmas for what the code
  promises.
- Scores are exact reals. `Math.round(x)` is `Floor(x + 1/2)`.
- Several inputs come from the environment and are taken as parameters:
  JS `Number()` parsing (`parseNum`), the clock, Neo4j results, SHACL
  validation and cross-validation scores.
- Generated ids (UUIDs, `Date.now()`) are a `nextId` counter.
- JS objects, whose keys iterate in insertion order, are association lists
  (`OrderedMaps`).
- Both graph transformers produce the same node record. The legacy one
  (`app/frontend/js/api.js:296`) writes a string field `type: 'node'`;
  `GraphElements.ApiNode` records it as the type list `["node"]`.

## Model

| member | source | states |
|---|---|---|
| Analysis.NormalizeSpec | app/ontology-platform/services/analysisService.ts:36 | a normalised column name (trimmed, lower-cased, white-space runs turned into `_`) holds no white space and no upper-case letter |
| Analysis.NormalizeIdempotent | app/ontology-platform/services/analysisService.ts:36 | normalising an already normalised name changes nothing |
| Analysis.HintsIgnoreCaseAndSpacing | app/ontology-platform/services/analysisService.ts:35-39 | two column names with the same normalised form that has a synonym get the same hint list |
| Analysis.HintsNameOntologyFunctions | app/ontology-platform/services/analysisService.ts:6-14 | every function id the hint table gives for any feature name is the id of a function of the built-in ontology |
| Analysis.RawScore | app/ontology-platform/services/analysisService.ts:95-108 | the unscaled score lies between 0.5 and 0.5 + 0.12 per feature + 0.08 |
| Analysis.Completeness | app/ontology-platform/services/analysisService.ts:92 | the completeness factor is never negative, and at most 1 when the missing count is not negative |
| Analysis.Round2 | app/ontology-platform/services/analysisService.ts:118 | rounding to two decimals moves a score by at most half a hundredth and keeps a score in [0, 1] inside [0, 1] |
| Analysis.ScaledScoreInUnitInterval | app/ontology-platform/services/analysisService.ts:109 | scaling a non-negative score by non-negative signal and completeness factors and capping at 1 gives a value in [0, 1] |
| Analysis.ScoreInUnitInterval | app/ontology-platform/services/analysisService.ts:91-118 | with a noise level in [0, 1], a function's score lies in [0, 1] both before and after rounding |
| Analysis.AssignPriorities | app/ontology-platform/services/analysisService.ts:125-129 | every match keeps its id, score and rationale and gets priority 1, 2 or 3 by its position |
| Analysis.Scored | app/ontology-platform/services/analysisService.ts:94-122 | one match per ontology function, in ontology order, each the match scored for that function |
| Analysis.RankedIsPermutationOfOntology | app/ontology-platform/services/analysisService.ts:94-129 | the result has one entry per ontology function and its function ids are a rearrangement of the ontology ids |
| Analysis.RankedIsSortedByScore | app/ontology-platform/services/analysisService.ts:124 | scores never increase along the returned list |
| Analysis.SortKeepsOntologyOrderOnTies | app/ontology-platform/services/analysisService.ts:124 | matches with equal scores keep the order their functions have in the ontology (the sort is stable) |
| Analysis.RankedPriorities | app/ontology-platform/services/analysisService.ts:120-129 | priority is 1 at index 0, 2 at index 1 and 3 after; priorities never decrease; the threshold priority is always overwritten while id and score stay those of the sorted list |
| Analysis.RankedScoresInUnitInterval | app/ontology-platform/services/analysisService.ts:91-129 | with a noise level in [0, 1] every returned score lies in [0, 1] |
| Analysis.Find | app/ontology-platform/services/analysisService.ts:133 | the function found is the first one in the ontology with the id asked for; no result means no function has that id |
| Analysis.FirstWordsHaveNoSpace | app/ontology-platform/services/analysisService.ts:133 | the first word of a function name holds no space |
| Analysis.TopNames | app/ontology-platform/services/analysisService.ts:131-135 | at most two names are cited, none of them empty or holding a space |
| Analysis.PoolHasNoDuplicates | app/ontology-platform/services/analysisService.ts:46-66 | the candidate suggestions pushed for any profile and top-three set are pairwise distinct |
| Analysis.SuggestionsSpec | app/ontology-platform/services/analysisService.ts:48-72 | one to three suggestions, without repeats, the first three of the pool in pool order, the seasonality suggestion first whenever the data is seasonal |
| Analysis.BuildAugmentationSuggestions | app/ontology-platform/services/analysisService.ts:42-73 | the push-and-seen-set loop returns exactly the specified suggestions |
| Analysis.KeepFirstOccurrences | app/ontology-platform/services/analysisService.ts:67-71 | the seen-set filter keeps exactly the first occurrence of each string, in order |
| Analysis.ScoreFunction | app/ontology-platform/services/analysisService.ts:95-121 | the per-function loop body records exactly the specified match (score, rationale, threshold priority) |
| Analysis.AccumulateHints | app/ontology-platform/services/analysisService.ts:98-104 | the reasons are the features whose hints name the function, in order, and the score is 0.5 + 0.12 per reason |
| Analysis.AddSensorBonus | app/ontology-platform/services/analysisService.ts:105-108 | with continuous sensor data and function F001, F002 or F003, 0.08 and the sensor reason are added, giving the specified raw score and reasons |
| Analysis.AnalyzeDataAndMatch | app/ontology-platform/services/analysisService.ts:80-143 | the matches, summary and suggestions returned are the specified ranked list, summary and suggestions |
| Analysis.ScoreAll | app/ontology-platform/services/analysisService.ts:90-122 | the scoring loop records, for each ontology function in order, exactly that function's specified match |
| Analysis.OverwritePriorities | app/ontology-platform/services/analysisService.ts:125-129 | after the priority loop each sorted match keeps its fields and takes the priority of its position (1, 2, then 3 for the rest) |
| CsvParser.SplitLines | app/ontology-platform/utils/csvParser.ts:25 | splitting the text on `\r?\n` gives at least one piece |
| CsvParser.Cells | app/ontology-platform/utils/csvParser.ts:37 | splitting a line on the delimiter gives at least one (trimmed) cell |
| CsvParser.ParseCells | app/ontology-platform/utils/csvParser.ts:42-50 | the cells convert exactly when every one is a number, and then the row holds each cell's value in order |
| CsvParser.DelimiterSpec | app/ontology-platform/utils/csvParser.ts:28 | the delimiter is `;` exactly when the header line holds a `;`, and `,` otherwise |
| CsvParser.RowAdmission | app/ontology-platform/utils/csvParser.ts:36-51 | a data line is admitted exactly when it has as many cells as the header and every trimmed cell is a number |
| CsvParser.ScanSpec | app/ontology-platform/utils/csvParser.ts:15-52 | the rows kept are the numeric rows in file order, capped at 5000, each one value per header; below the cap every non-numeric line adds exactly one to the missing count and wrong-width lines add nothing |
| CsvParser.CappedScanStops | app/ontology-platform/utils/csvParser.ts:36 | once 5000 rows are kept the remaining lines change nothing |
| CsvParser.ParseCsvColumns | app/ontology-platform/utils/csvParser.ts:28-61 | on success the profile's features are the header cells but the last, and every kept row is its feature row followed by its target, so the target is the row's last cell |
| CsvParser.ParseCsvSuccess | app/ontology-platform/utils/csvParser.ts:54-68 | on success there are as many feature rows as targets and as the record count (between 2 and 5000), each row one value per feature column, and the profile has noise 0.15, seasonality, at most 100 missing values and every feature typed `Continuous` |
| CsvParser.ParseCsvFailure | app/ontology-platform/utils/csvParser.ts:25-30 | fewer than two non-blank lines fail with the empty-file message, and exactly then; otherwise fewer than two header cells fail with the header message, and exactly then |
| CsvParser.ConvertCells | app/ontology-platform/utils/csvParser.ts:40-50 | the cell loop reports a valid row exactly when every cell converts, and then returns the converted row |
| CsvParser.ScanLine | app/ontology-platform/utils/csvParser.ts:37-51 | one turn of the row loop below the cap leaves the rows and missing count of the specified step |
| CsvParser.ParseCsvForAutoml | app/ontology-platform/utils/csvParser.ts:23-69 | the loop with its early exit at 5000 rows returns exactly the specified parse result |
| CsvParser.ScanRows | app/ontology-platform/utils/csvParser.ts:36-52 | the row loop, stopping at 5000 kept rows, keeps exactly the all-numeric rows of the header's width and counts one missing value per rejected row of that width |
| RelationshipEditor.Labelled | backup/frontend/js/relationship.js:124-130 | the relationship an accepted add creates carries the form's subject, predicate and object, with the subject and object as labels |
| RelationshipEditor.SaveSpec | backup/frontend/js/relationship.js:305-324 | saving keeps the history valid and within 50 entries; the current list becomes the last snapshot and the index points at it, so nothing is left to redo; before it come the snapshots up to the old index, the oldest dropped only past the cap |
| RelationshipEditor.UndoRedoKeepValid | backup/frontend/js/relationship.js:326-358 | undo and redo keep the history valid and never change the snapshots |
| RelationshipEditor.UndoRedoInverse | backup/frontend/js/relationship.js:326-358 | a redo takes back an undo that moved, and an undo takes back a redo that moved |
| RelationshipEditor.UndoAfterSave | backup/frontend/js/relationship.js:305-331 | an undo right after a save (below the cap) returns to the snapshot that was current before the save |
| RelationshipEditor.WithoutSpec | backup/frontend/js/relationship.js:184-188 | a delete keeps exactly the entries that differ from the triple on subject, predicate or object; with no match the list is unchanged |
| RelationshipEditor.WithoutAnySpec | backup/frontend/js/relationship.js:253-259 | a bulk delete keeps exactly the entries matching none of the selected triples; one selected triple acts as a delete, none keeps everything |
| RelationshipEditor.FilterSameAsWithout | backup/frontend/js/relationship.js:184-188 | the JavaScript `filter` with the negated match keeps the same list as the delete |
| RelationshipEditor.FilterRelationshipsSpec | backup/frontend/js/relationship.js:360-373 | an empty filter returns the list; otherwise exactly the entries whose subject, predicate, object or labels contain the lower-cased term, as a subsequence |
| RelationshipEditor.FilterIgnoresCase | backup/frontend/js/relationship.js:365 | filtering with a term or its lower-cased form gives the same list |
| RelationshipEditor.CsvTextLines | backup/frontend/js/relationship.js:418-436 | when no field holds a line break, the export splits on `\n` into the header and one line per row, in order |
| RelationshipEditor.ConvertToCsv | backup/frontend/js/relationship.js:418-436 | the push loop returns the specified export: empty for no data, else the header and one quoted five-field line per row joined by newlines |
| RelationshipEditor.QuoteSplit | backup/frontend/js/relationship.js:426-432 | a field holding `","` quotes to the same text as two quoted fields |
| RelationshipEditor.CsvLineNotInjective | backup/frontend/js/relationship.js:424-433 | two different rows export to the same line because embedded quotes are not doubled |
| RelationshipEditor.Escape | backup/frontend/js/relationship.js:426-430 | doubling quotes never shortens a field (the corrected export) |
| RelationshipEditor.DecodeQuoted | backup/frontend/js/relationship.js:426-430 | reading a quoted field consumes at least one character (the inverse of the corrected export) |
| RelationshipEditor.DecodeQuotedEscape | backup/frontend/js/relationship.js:426-430 | a field with doubled quotes followed by a closing quote reads back as the field and the rest |
| RelationshipEditor.DecodeEncodedFields | backup/frontend/js/relationship.js:424-433 | a line of quoted fields with doubled quotes reads back as exactly the fields |
| RelationshipEditor.CsvLineEscapedInjective | backup/frontend/js/relationship.js:424-433 | with quotes doubled, different rows always export to different lines |
| RelationshipEditor.RelationshipManager.constructor | backup/frontend/js/relationship.js:4-14 | a fresh editor has an empty list and form, no history and index -1 |
| RelationshipEditor.RelationshipManager.SaveToHistory | backup/frontend/js/relationship.js:305-324 | the history becomes the specified save of the current list; the list and form are unchanged |
| RelationshipEditor.RelationshipManager.Undo | backup/frontend/js/relationship.js:326-341 | with an earlier snapshot the index steps back and the list becomes that snapshot; otherwise nothing changes |
| RelationshipEditor.RelationshipManager.Redo | backup/frontend/js/relationship.js:343-358 | with a later snapshot the index steps forward and the list becomes that snapshot; otherwise nothing changes |
| RelationshipEditor.RelationshipManager.ResetForm | backup/frontend/js/relationship.js:296-303 | the form is emptied and hidden; list and history are unchanged |
| RelationshipEditor.RelationshipManager.AddTriple | backup/frontend/js/relationship.js:101-135 | an incomplete form changes nothing (list, form, its visibility, history); otherwise the history is saved, and when the server accepts, the labelled triple goes to the front and the form is reset and hidden, while a refusal leaves list, form and visibility as they were |
| RelationshipEditor.RelationshipManager.DeleteTriple | backup/frontend/js/relationship.js:168-188 | without confirmation nothing changes; otherwise the history is saved and, when the server accepts, exactly the matching entries go |
| RelationshipEditor.RelationshipManager.BulkDelete | backup/frontend/js/relationship.js:221-259 | an empty selection or no confirmation changes nothing; otherwise the history is saved and, when the server accepts, every entry matching a selected triple goes |
| RelationshipEditor.RelationshipManager.Destroy | backup/frontend/js/relationship.js:449-453 | the list and the history are emptied and the index reset to -1 |
| QualityTrend.Bump | app/onto-front/src/lib/hooks/useDashboard.ts:37-42 | one more item on a date adds exactly one to its total and at most one to its passes and fails |
| QualityTrend.DateTallySpec | app/onto-front/src/lib/hooks/useDashboard.ts:31-43 | a date's total is the number of items on that date whatever their `count`; its passes and fails are the items on that date with result exactly `pass` or `fail`, so together they never exceed the total |
| QualityTrend.DateTallyAbsent | app/onto-front/src/lib/hooks/useDashboard.ts:33-35 | a date no item mentions has an all-zero tally |
| QualityTrend.StrLessIrreflexive | app/onto-front/src/lib/hooks/useDashboard.ts:45 | the string order used by the date sort is irreflexive |
| QualityTrend.StrLessTransitive | app/onto-front/src/lib/hooks/useDashboard.ts:45 | the string order used by the date sort is transitive |
| QualityTrend.StrLessTotal | app/onto-front/src/lib/hooks/useDashboard.ts:45 | any two different strings are ordered one way or the other |
| QualityTrend.InsertSorted | app/onto-front/src/lib/hooks/useDashboard.ts:45 | inserting a date into the sorted list adds exactly that date |
| QualityTrend.InsertSortedSorted | app/onto-front/src/lib/hooks/useDashboard.ts:45 | inserting into a strictly ascending list keeps it strictly ascending |
| QualityTrend.SortedUnique | app/onto-front/src/lib/hooks/useDashboard.ts:45 | two strictly ascending lists with the same elements are equal, so the sorted labels are determined by the dates |
| QualityTrend.SortKeys | app/onto-front/src/lib/hooks/useDashboard.ts:45 | the sorted keys are strictly ascending and are exactly the grouped dates |
| QualityTrend.RatesBounded | app/onto-front/src/lib/hooks/useDashboard.ts:49-56 | each pass and fail rate lies in [0, 100] and a date's pass and fail rates add up to at most 100 |
| QualityTrend.ProcessQualityTrend | app/onto-front/src/lib/hooks/useDashboard.ts:27-63 | the labels are the distinct dates in ascending order; pass and fail rates have the labels' length and hold, at each position, the rates of that date |
| QualityTrend.SortedDatesSpec | app/onto-front/src/lib/hooks/useDashboard.ts:45 | the dates of a trend, each once, strictly ascending, form the list the sorted keys must be |
| QualityTrend.TrendPassRates | app/onto-front/src/lib/hooks/useDashboard.ts:45-56 | whatever order the grouped keys come in, the processed pass rates are those of the sorted dates, one per date |
| QualityTrend.QualityRateBounded | app/onto-front/src/lib/hooks/useDashboard.ts:89-95 | the rounded mean of percentages (0 for none) lies between 0 and 100 |
| QualityTrend.TrendQualityRateBounded | app/onto-front/src/lib/hooks/useDashboard.ts:88-95 | the quality rate of a trend's own pass rates lies between 0 and 100 |
| Dashboard.OrderCountsDisjoint | app/onto-front/src/lib/hooks/useDashboard.ts:77-81 | active (in progress or planned) and completed orders are disjoint, so their counts fit within the orders |
| Dashboard.TotalActualWithinPlanned | app/onto-front/src/lib/hooks/useDashboard.ts:81-86 | with non-negative quantities and no completed order over its plan, the completed actual total lies between 0 and the planned total over all orders |
| Dashboard.ProductionPercentBounded | app/onto-front/src/lib/hooks/useDashboard.ts:101 | under the same conditions the production ratio is a percentage between 0 and 100 |
| Dashboard.ProductionTrendIsPercent | app/onto-front/src/lib/hooks/useDashboard.ts:101 | the production trend text is the rounded production percentage (0 when nothing is planned) followed by `%` |
| Dashboard.EquipmentStatusOf | app/onto-front/src/lib/hooks/useDashboard.ts:65-73 | the four buckets add up to the number of lines, and maintenance, idle and error are 0, so every line counts as active |
| Dashboard.ProcessDashboardData | app/onto-front/src/lib/hooks/useDashboard.ts:75-103 | efficiency is `N/A`; the quality rate is the rounded mean of the pass rates of the trend's sorted dates (0 for none), lies between 0 and 100 and is shown followed by `%`; active orders are counted; the production trend is the specified text |
| DashboardManagerJs.OverallEfficiencySpec | backup/frontend/js/dashboard.js:167-173 | the overall efficiency is the mean of the usable values; rejected requests and responses without an efficiency are not counted; it stays within [0, 1] when every `oee` does |
| DashboardManagerJs.EfficiencyPercentBounded | backup/frontend/js/dashboard.js:220-223 | the same bound as a lemma |
| DashboardManagerJs.DashboardManager.constructor | backup/frontend/js/dashboard.js:4-17 | every figure starts empty and auto refresh starts off |
| DashboardManagerJs.DashboardManager.ProcessQualityTrend | backup/frontend/js/dashboard.js:182-218 | the stored trend has the distinct dates in ascending order and each date's pass and fail rates at its position; the other figures are unchanged |
| DashboardManagerJs.DashboardManager.ProcessEquipmentEfficiency | backup/frontend/js/dashboard.js:220-223 | the efficiency becomes the rounded percentage of the `oee` (0 when missing); nothing else changes |
| DashboardManagerJs.DashboardManager.ProcessWorkOrders | backup/frontend/js/dashboard.js:225-243 | the active-order count and the production percentage are stored; nothing else changes |
| DashboardManagerJs.DashboardManager.ProcessManufacturingLines | backup/frontend/js/dashboard.js:245-261 | the equipment status counts every line as active; nothing else changes |
| DashboardManagerJs.DashboardManager.CalculateQualityRate | backup/frontend/js/dashboard.js:298-307 | 0 without pass rates; otherwise, with percentage rates, a value between 0 and 100 |
| DashboardManagerJs.DashboardManager.ToggleAutoRefresh | backup/frontend/js/dashboard.js:318-319 | the auto-refresh flag is negated and nothing else changes, so two toggles restore it |
| DataManager.AddUpload | app/onto-front/app/data-manager/page.tsx:14-16 | the history after an upload never holds more than fifty items |
| DataManager.AddUploadSpec | app/onto-front/app/data-manager/page.tsx:15 | the new item comes first, followed by the start of the previous history in its order; below fifty items the history grows by exactly one, a full one keeps fifty |
| DataManager.UploadsBounded | app/onto-front/app/data-manager/page.tsx:14-16 | after any series of uploads the history holds at most fifty items and the latest upload comes first |
| DataManager.FewUploadsAllKept | app/onto-front/app/data-manager/page.tsx:14-16 | from an empty history, up to fifty uploads are all kept, latest first |
| GraphElements.NodeIds | app/onto-front/src/lib/utils/transformers.ts:27-36 | one id per node element (an element without both a source and a target) |
| GraphElements.TransformElements | app/onto-front/src/lib/utils/transformers.ts:12-42 | the single pass with an insertion-ordered map yields the map's values as nodes and one edge per edge element, in order |
| GraphElements.TransformElementsSpec | app/onto-front/src/lib/utils/transformers.ts:16-42 | one node per distinct node id, in order of first appearance, each built from a node element with that id; exactly one edge per edge element, each built from one |
| GraphElements.TsNode | app/onto-front/src/lib/utils/transformers.ts:29-35 | a node keeps the element's id and types, and its label is never empty: the element's own label, or `node` when it has none |
| GraphElements.NodeIdsUnique | app/onto-front/src/lib/utils/transformers.ts:13-40 | the node ids are the distinct node-element ids in order of first appearance, hence free of repetitions |
| GraphElements.TransformGraphElementsTs | app/onto-front/src/lib/utils/transformers.ts:9-43 | a response without elements gives nothing; otherwise one node per distinct id in first-appearance order, built from that id's last node element, none with an empty label, and each edge element's edge in order |
| GraphElements.TransformGraphElementsJs | app/frontend/js/api.js:273-306 | one node per distinct id in first-appearance order, built from that id's last node element and typed `node`; each edge element gives an edge typed `edge` with a non-empty source and target |
| GraphElements.FirstContained | app/onto-front/src/lib/utils/transformers.ts:68-72 | the position found is the first keyword the text contains, and every keyword before it is absent |
| GraphElements.ExtractNodeTypeSpec | app/onto-front/src/lib/utils/transformers.ts:48-75 | the type is `Unknown` exactly when the label is empty or contains no keyword; otherwise it is the first type in table order whose keyword occurs in the label |
| GraphManager.TypeFromLabelAgrees | backup/frontend/js/graph.js:199-227 | the legacy label lookup names the same type as the Next.js `extractNodeType` for every label |
| GraphManager.TableAgrees | backup/frontend/js/graph.js:203-224 | walking a table of types keyed by their own names gives the first type in table order whose keyword the label contains, or `Unknown` |
| GraphManager.NodeColor | backup/frontend/js/graph.js:110-131 | a node colour is grey or one of the colour table's colours |
| GraphManager.ColorLookupSpec | backup/frontend/js/graph.js:113-130 | a colour is found exactly when some row has the type, and the colour found sits on such a row |
| GraphManager.ColorLookupFirst | backup/frontend/js/graph.js:130 | the lookup returns the colour of the first row keyed by the type |
| GraphManager.ColorMapKeys | backup/frontend/js/graph.js:113-128 | the colour table has one row per node type, in the type table's order |
| GraphManager.UnknownNotAType | backup/frontend/js/graph.js:200-226 | `Unknown` is not one of the table types |
| GraphManager.NodeColorSpec | backup/frontend/js/graph.js:110-131 | an empty or `Unknown` type is grey, each table type gets its row's colour, and `Unit`'s colour is grey itself |
| GraphManager.EveryTypeColored | backup/frontend/js/graph.js:110-227 | every type the label lookup can yield, other than `Unknown`, has a colour row |
| GraphManager.LayoutByName | backup/frontend/js/graph.js:9-14 | a layout found for a name carries that name |
| GraphManager.LayoutNameRoundTrip | backup/frontend/js/graph.js:9-14 | looking up a layout's own name finds that layout |
| GraphManager.EdgeFoldSpec | backup/frontend/js/graph.js:328-337 | when no edge id is an edge endpoint, the edge pass adds exactly the ids of the edges that pass against the node set |
| GraphManager.WellFormedEdgeIds | backup/frontend/js/graph.js:328-337 | in a graph with unique ids and edges between existing nodes, no edge id is an endpoint |
| GraphManager.PassingShown | app/onto-front/src/lib/hooks/useCytoscape.ts:164-197 | the nodes the hook shows are exactly the nodes whose type passes the filter |
| GraphManager.NodeIdFiltered | backup/frontend/js/graph.js:320-346 | a node's id ends up in the filter set iff its type passes |
| GraphManager.EdgeIdFiltered | backup/frontend/js/graph.js:328-346 | an edge's id ends up in the filter set iff both its ends passed and its relationship is selected |
| GraphManager.FilterAgreesWithHook | backup/frontend/js/graph.js:316-349 | for a well-formed graph the legacy single-set filter shows exactly what the Next.js hook's filter shows |
| GraphManager.GraphManagerState.constructor | backup/frontend/js/graph.js:4-21 | an empty graph, `cose` as the current layout, no collected types and an empty filter set |
| GraphManager.GraphManagerState.ApplyLayout | backup/frontend/js/graph.js:289-293 | the engine of the current layout is run; nothing else changes |
| GraphManager.GraphManagerState.ChangeLayout | backup/frontend/js/graph.js:295-300 | a known layout name becomes current and is run; an unknown name changes nothing |
| GraphManager.GraphManagerState.CollectTypes | backup/frontend/js/graph.js:266-287 | the node types are the set of types read from the node labels and the relationship types the set of edge labels; nothing else changes |
| GraphManager.GraphManagerState.LoadElements | backup/frontend/js/graph.js:229-264 | the graph is replaced by the transformed elements, its types collected and the current layout run |
| GraphManager.GraphManagerState.FilterByTypes | backup/frontend/js/graph.js:316-349 | the filter set is the passing node ids plus the passing edge ids; each element is shown iff its id is in the set; the layout is rerun |
| GraphManager.GraphManagerState.SearchNodes | backup/frontend/js/graph.js:351-369 | each element is shown as the search rule decides (all for an empty query); the layout is rerun |
| GraphManager.FilterPass | backup/frontend/js/graph.js:317-346 | the element passes compute the filter set and show each element iff its id is in it |
| GraphManager.CollectedTypesKnown | backup/frontend/js/graph.js:266-273 | every collected node type is a table type or `Unknown` |
| GraphView.ViewOfNode | app/onto-front/src/lib/hooks/useCytoscape.ts:159-160 | an added node is shown and keeps its id, label and types |
| GraphView.ViewOfEdge | app/onto-front/src/lib/hooks/useCytoscape.ts:159-160 | an added edge is shown and keeps its id, ends and label |
| GraphView.FilterSpec | app/onto-front/src/lib/hooks/useCytoscape.ts:164-197 | filtering keeps every element; a node is shown iff its type passes; a shown edge has both ends among the shown nodes; with no type selected every node is shown, and with nothing selected an edge is shown iff both its ends exist |
| GraphView.SearchSpec | app/onto-front/src/lib/hooks/useCytoscape.ts:199-219 | the search ignores the case of the query, and an empty query shows every node and edge |
| GraphView.LayoutEngineInjective | app/onto-front/src/lib/hooks/useCytoscape.ts:142-147 | different layout choices run different engines (`hierarchical` runs `dagre`) |
| GraphView.CytoscapeView.constructor | app/onto-front/src/lib/hooks/useCytoscape.ts:137 | an empty graph laid out with `cose` |
| GraphView.CytoscapeView.ApplyLayout | app/onto-front/src/lib/hooks/useCytoscape.ts:139-154 | the chosen layout's engine is run; the elements are unchanged |
| GraphView.CytoscapeView.LoadGraph | app/onto-front/src/lib/hooks/useCytoscape.ts:156-162 | the elements are replaced by the given ones, all shown, and `cose` is run |
| GraphView.CytoscapeView.FilterByTypes | app/onto-front/src/lib/hooks/useCytoscape.ts:164-197 | the nodes are shown as the type filter decides and the edges as the edge filter decides against the new nodes; `cose` is run |
| GraphView.CytoscapeView.SearchNodes | app/onto-front/src/lib/hooks/useCytoscape.ts:199-219 | every node and edge is shown as the search rule decides; `cose` is run |
| GraphView.SearchElements | app/onto-front/src/lib/hooks/useCytoscape.ts:202-216 | the element pass gives each node and edge the visibility the search rule assigns |
| GraphStore.ToggleSpec | app/onto-front/src/lib/stores/graphStore.ts:55-66 | toggling flips whether the entry is listed and leaves every other entry's membership alone; removal keeps the others in order, addition appends |
| GraphStore.ToggleTwiceRestores | app/onto-front/src/lib/stores/graphStore.ts:55-60 | toggling an unlisted entry twice gives back the list |
| GraphStore.ToggleTwiceListed | app/onto-front/src/lib/stores/graphStore.ts:55-60 | toggling a listed entry twice removes its copies and appends it once |
| GraphStore.GraphStoreState.constructor | app/onto-front/src/lib/stores/graphStore.ts:33-43 | the initial store: no selection, `cose`, limit 100, empty query, lists and counts |
| GraphStore.GraphStoreState.ToggleType | app/onto-front/src/lib/stores/graphStore.ts:55-60 | only the selected types change, by a toggle |
| GraphStore.GraphStoreState.ToggleRelationship | app/onto-front/src/lib/stores/graphStore.ts:61-66 | only the selected relationships change, by a toggle |
| GraphStore.GraphStoreState.SetSelectedNode | app/onto-front/src/lib/stores/graphStore.ts:45 | only the selected node changes |
| GraphStore.GraphStoreState.SetSelectedLayout | app/onto-front/src/lib/stores/graphStore.ts:46 | only the layout changes |
| GraphStore.GraphStoreState.SetGraphLimit | app/onto-front/src/lib/stores/graphStore.ts:47 | only the limit changes |
| GraphStore.GraphStoreState.SetSearchQuery | app/onto-front/src/lib/stores/graphStore.ts:48 | only the query changes |
| GraphStore.GraphStoreState.SetSelectedTypes | app/onto-front/src/lib/stores/graphStore.ts:49 | only the selected types change |
| GraphStore.GraphStoreState.SetSelectedRelationships | app/onto-front/src/lib/stores/graphStore.ts:50 | only the selected relationships change |
| GraphStore.GraphStoreState.SetNodeTypes | app/onto-front/src/lib/stores/graphStore.ts:51 | only the known node types change |
| GraphStore.GraphStoreState.SetRelationshipTypes | app/onto-front/src/lib/stores/graphStore.ts:52 | only the known relationship types change |
| GraphStore.GraphStoreState.SetNodeCount | app/onto-front/src/lib/stores/graphStore.ts:53 | only the node count changes |
| GraphStore.GraphStoreState.SetEdgeCount | app/onto-front/src/lib/stores/graphStore.ts:54 | only the edge count changes |
| JsUtils.Truncate | app/frontend/js/utils.js:275-278 | a string that fits is returned unchanged; a longer one becomes its first `length` characters followed by `...` |
| JsUtils.TruncateIdempotent | app/frontend/js/utils.js:275-278 | truncating twice with the same length is truncating once |
| JsUtils.Capitalize | app/frontend/js/utils.js:280-282 | same length, first character upper-cased, the rest unchanged |
| JsUtils.CapitalizeIdempotent | app/frontend/js/utils.js:280-282 | capitalizing twice is capitalizing once |
| JsUtils.InsertDashes | app/frontend/js/utils.js:285 | inserting the dashes never shortens the string |
| JsUtils.CamelToKebab | app/frontend/js/utils.js:284-286 | the result holds no upper-case letter |
| JsUtils.KebabToCamel | app/frontend/js/utils.js:288-290 | the result is never longer than the input |
| JsUtils.KebabCamelRoundTrip | app/frontend/js/utils.js:284-290 | on a name without dashes, `kebabToCamel` undoes `camelToKebab` |
| JsUtils.Chunk | app/frontend/js/utils.js:320-326 | for a positive size the chunks concatenate back to the array, each is non-empty and at most `size` long, all but the last exactly `size`, and there are as few as can hold the array |
| JsUtils.GroupsSpec | app/frontend/js/utils.js:299-306 | a group exists exactly for each key value that occurs and holds the elements with that value in array order |
| JsUtils.GroupBy | app/frontend/js/utils.js:299-306 | the accumulating pass builds exactly those groups |
| JsUtils.GroupsPartition | app/frontend/js/utils.js:299-306 | no element lands in two different groups |
| JsUtils.Merge | app/frontend/js/utils.js:335-337 | the keys of both objects, the source's value winning on a shared key |
| JsUtils.Pick | app/frontend/js/utils.js:343-351 | exactly the listed keys the object has, with the object's values |
| JsUtils.Omit | app/frontend/js/utils.js:353-359 | the object without the listed keys, everything else unchanged |
| JsUtils.PickOmitPartition | app/frontend/js/utils.js:343-359 | what `pick` keeps and what `omit` leaves for the same keys are disjoint and merge back into the object |
| JsUtils.LengthValidators | app/frontend/js/utils.js:189-199 | both length checks hold exactly for non-empty strings with length between the bounds, such a string is `required`, and an empty string fails both checks |
| JsUtils.StripBlanks | app/frontend/js/utils.js:113 | what remains is a suffix of the piece that does not start with a blank |
| JsUtils.SkipBlanks | app/frontend/js/utils.js:113 | the loop drops exactly the leading blanks |
| JsUtils.CookieGet | app/frontend/js/utils.js:108-117 | the value is the lookup over the `;`-separated pieces of the cookie string |
| JsUtils.ScanPieces | app/frontend/js/utils.js:111-116 | the loop returns the value of the first piece that starts with `name=` once its blanks are stripped, or nothing |
| JsUtils.CookieRoundTrip | app/frontend/js/utils.js:102-117 | reading a name back from a well-formed `name=value; ...` cookie string gives the first value stored under that name, nothing when none is |
| JsUtils.PieceStartsWith | app/frontend/js/utils.js:114 | `name=` starts a pair's piece exactly when the pair has that name, and what follows is its value |
| JsUtils.LookupPairs | app/frontend/js/utils.js:111-116 | the lookup over well-formed pair pieces finds the first value with the name |
| JsUtils.LookupSameStripped | app/frontend/js/utils.js:112-113 | pieces that agree once their blanks are stripped give the same lookup |
| Seqs.Unique | app/frontend/js/utils.js:295-297 | the result has no repetitions, and holds exactly the elements of the input |
| Seqs.UniqueKeepsFirstOccurrenceOrder | app/frontend/js/utils.js:295-297 | the elements keep the order of their first occurrences |
| Seqs.UniqueOfNoDup | app/frontend/js/utils.js:295-297 | a list without repetitions is its own `unique` |
| OrderedMaps.FromPairsSpec | app/onto-front/src/lib/utils/transformers.ts:13-40 | filling a `Map` keeps one entry per distinct key, in order of first insertion, holding the last value set for it |
| OrderedMaps.ValuesOf | app/onto-front/src/lib/utils/transformers.ts:40 | the map's values: one per distinct key, in first-insertion order, each the key's last value |
| LegacyApi.QueryStringEmpty | app/frontend/js/api.js:41-42 | the encoded query string is empty exactly when there are no parameters |
| LegacyApi.GetUrlSpec | app/frontend/js/api.js:11-44 | a `GET` without parameters goes to the base URL followed by the endpoint; with parameters `?` and the query string follow it |
| LegacyApi.Backoff | app/frontend/js/api.js:238-239 | the pauses of the schedule are `delay`, `2 * delay`, `4 * delay`, ... |
| LegacyApi.BackoffNext | app/frontend/js/api.js:238-239 | one more pause extends the schedule by the next doubled delay |
| LegacyApi.FirstOk | app/frontend/js/api.js:232-234 | the first successful attempt: all before it failed |
| LegacyApi.WithRetry | app/frontend/js/api.js:228-246 | the loop returns the specified outcome, makes the specified number of calls and waits the specified pauses |
| LegacyApi.FirstOkStable | app/frontend/js/api.js:232-234 | allowing more attempts does not move an earlier first success |
| LegacyApi.RetryCallsSpec | app/frontend/js/api.js:228-246 | at most `maxRetries` calls, at least one when any is allowed; success iff some allowed attempt succeeds, with the value of the last call; failure means every allowed attempt failed |
| LegacyApi.RetryWaitTotal | app/frontend/js/api.js:238-239 | the pauses of `w` waits add up to `delay * (2^w - 1)` |
| LegacyApi.DefaultRetrySchedule | app/frontend/js/api.js:228 | with the defaults a call is tried at most three times and waits at most two pauses totalling 3000 ms |
| LegacyApi.Lookup | app/frontend/js/api.js:253-258 | an entry is served exactly when it exists and is younger than the TTL, and then its data is served |
| LegacyApi.StoreThenLookup | app/frontend/js/api.js:249-267 | data stored at time `t` is served exactly while less than the TTL has passed; other keys are unaffected |
| LegacyApi.StaleStaysStale | app/frontend/js/api.js:256 | an entry that is stale stays stale as time goes on |
| LegacyApi.Cache.constructor | app/frontend/js/api.js:249-250 | a new cache is empty and keeps the TTL |
| LegacyApi.Cache.Call | app/frontend/js/api.js:252-267 | a fresh hit is returned without a call and changes nothing; a miss calls the function, a success being stored with the time the call finished, a failure being passed on and not stored |
| LegacyApi.ErrorToastMessage | app/frontend/js/api.js:201 | the error toast text is never empty: the error's own message when it has one, `API request failed` otherwise |
| LegacyApi.EnhancedLayersOrder | app/frontend/js/api.js:360-380 | the wrappers come in the order error handling, loading, retry, cache, each at most once; the cache, when on, is outermost with its TTL or the 5-minute default; retry is present iff asked for; error handling is innermost unless switched off |
| ApiClient.DefaultErrorMessage | app/onto-front/src/lib/api/client.ts:50 | the default message is `HTTP error! status: ` followed by the status |
| ApiClient.ResponseError | app/onto-front/src/lib/api/client.ts:48-85 | the error thrown for a non-ok response carries the response's status and status text |
| ApiClient.ErrorMessageSpec | app/onto-front/src/lib/api/client.ts:50-74 | the message falls back to the default exactly for an unreadable body, empty text, or JSON whose `detail` and `message` are each absent or `""`, and the fallback names the status; every other body gives a message independent of the status: non-empty text wins; a non-empty `detail` string wins over `message`; a one-entry `detail` list gives that entry's message |
| ApiClient.ErrorMessageDetailList | app/onto-front/src/lib/api/client.ts:58-61 | a `detail` list gives its entries' messages (`msg`, or the entry itself) joined by `, `, whatever `message` says: nothing for an empty list, the entry's message for one, the first message, `, ` and the rest's for more |
| ApiClient.DefaultMessageNamesStatus | app/onto-front/src/lib/api/client.ts:50 | different statuses give different default messages |
| ApiClient.Rethrown | app/onto-front/src/lib/api/client.ts:94-127 | an `ApiError` is rethrown unchanged; anything else becomes an `ApiError` with status 0 and a non-empty message |
| ApiClient.QueryRetryLimit | app/onto-front/src/components/providers/QueryProvider.tsx:43-58 | a query tolerates at most three failures, and none exactly for a 4xx status |
| ApiClient.RetrySpec | app/onto-front/src/components/providers/QueryProvider.tsx:43-70 | a query is retried exactly while fewer failures than its limit (3 for status 0, 0 for 4xx, 2 otherwise) have happened; a mutation only after no failure and without a 4xx, and only when a query would be |
| ApiClient.RetryMonotone | app/onto-front/src/components/providers/QueryProvider.tsx:43-70 | once either policy stops retrying it never resumes for a higher failure count |
| ApiClient.ThrownNetworkRetries | app/onto-front/src/lib/api/client.ts:105-126 | a non-`ApiError` failure becomes status 0, so its query is retried for the first three failures only |
| ApiClient.ClientErrorsNotRetried | app/onto-front/src/lib/api/client.ts:80-85 | a 4xx response is retried by neither policy |
| ApiClient.ClientGetUrl | app/onto-front/src/lib/api/client.ts:130-136 | the URL starts with the endpoint and equals it exactly when no parameters object is given |
| ApiClient.ClientGetUrlVersusLegacy | app/onto-front/src/lib/api/client.ts:130-136 | with parameters the Next.js client builds the legacy client's URL; an empty parameters object still adds a bare `?` |
| ApiClient.DeleteBody | app/onto-front/src/lib/api/client.ts:152-157 | a `DELETE` sends a body exactly when its data is truthy |
| OntologyGraph.OppositeInvolution | app/ontology-platform/components/OntologyGraph.tsx:80-85 | the opposite of the opposite handle is the handle itself, and no handle is its own opposite |
| OntologyGraph.AngleToPositionHalfTurn | app/ontology-platform/components/OntologyGraph.tsx:71-77 | for a direction as `atan2` returns it, half a turn more gives the opposite handle |
| OntologyGraph.AngleToPositionQuarters | app/ontology-platform/components/OntologyGraph.tsx:72-76 | each handle is chosen for exactly its quarter of directions, with `Right` for the rest |
| OntologyGraph.GroupByCategory | app/ontology-platform/components/OntologyGraph.tsx:49-57 | the loop files the functions exactly as the grouping specification does |
| OntologyGraph.GroupByCategorySpec | app/ontology-platform/components/OntologyGraph.tsx:49-57 | a category's group is the functions of that category, in input order, and no other |
| OntologyGraph.EveryCategoryPlaced | app/ontology-platform/components/OntologyGraph.tsx:28 | every category appears in the ring order, so no function is left off the graph |
| OntologyGraph.BuildGraphElements | app/ontology-platform/components/OntologyGraph.tsx:162-313 | the nodes and edges are those the ring-by-ring specification lists |
| OntologyGraph.AddCategories | app/ontology-platform/components/OntologyGraph.tsx:195-221 | one node and one root edge for each category, in order, that has functions |
| OntologyGraph.AddFunctions | app/ontology-platform/components/OntologyGraph.tsx:225-267 | per category in order, a node and a category edge for each of its functions |
| OntologyGraph.AddTemplates | app/ontology-platform/components/OntologyGraph.tsx:271-310 | a node per template and a dashed edge per recommended function id, in order |
| OntologyGraph.AppendFunctions | app/ontology-platform/components/OntologyGraph.tsx:232-266 | one category's function nodes, each with its edge from the category node |
| OntologyGraph.AppendTemplateEdges | app/ontology-platform/components/OntologyGraph.tsx:301-309 | one template's dashed edges, one per recommended function id |
| OntologyGraph.OneRoot | app/ontology-platform/components/OntologyGraph.tsx:180-187 | the graph has exactly one root node, and it comes first |
| OntologyGraph.CategoryNodeIff | app/ontology-platform/components/OntologyGraph.tsx:195-213 | a category has a node exactly when some function has that category |
| OntologyGraph.CategoryEdgeIff | app/ontology-platform/components/OntologyGraph.tsx:214-220 | a category has an edge from the root exactly when some function has that category |
| OntologyGraph.FunctionElements | app/ontology-platform/components/OntologyGraph.tsx:232-266 | every function has a node, highlighted exactly when its id is listed, and an edge from its category's node |
| OntologyGraph.FunctionEdgeSources | app/ontology-platform/components/OntologyGraph.tsx:259-265 | edges of the function ring leave category nodes, never the root |
| OntologyGraph.TemplateEdgesSpec | app/ontology-platform/components/OntologyGraph.tsx:271-310 | each template gets one node and as many dashed edges as it recommends functions, each leaving that template for one of its recommended ids |
| OntologyGraph.CategoryNameInjective | app/ontology-platform/components/OntologyGraph.tsx:198 | different categories get different node ids |
| BackendAutoml.Candidates | app/backend/services/automl.py:15-25 | each task has three candidate models |
| BackendAutoml.ResolvedScoring | app/backend/services/automl.py:47-52 | a given non-empty scoring is kept; a missing or empty one becomes `accuracy` for classification and `r2` for regression |
| BackendAutoml.Mean | app/backend/services/automl.py:60-61 | the mean score is a real number exactly when there are folds and every fold score is one; otherwise NaN |
| BackendAutoml.SelectBestModel | app/backend/services/automl.py:36-75 | the candidates are evaluated in order, raising ones skipped, and the result is a selection as specified: all results in order, NaN means included; the first strictly highest real mean score as the best; no best and minus infinity when no mean is real |
| BackendAutoml.AllResultsStep | app/backend/services/automl.py:57-67 | one more candidate adds its result, NaN mean or not, exactly when its evaluation does not raise |
| BackendAutoml.BestStep | app/backend/services/automl.py:63-65 | a strictly higher real mean score takes over the best; an equal or lower one, or NaN, leaves it (or leaves it absent) |
| BackendAutoml.SelectionSpec | app/backend/services/automl.py:36-75 | at most three results; a best model is a candidate that did not raise and has a real mean; there is none, and the best score stays minus infinity, exactly when every candidate raised or has a NaN mean |
| BackendAutoml.JsonSafeSpec | app/backend/services/automl.py:36-75 | the selection has a best score and only real scores exactly when some candidate is usable and every candidate raised or is usable |
| BackendAutoml.ShapeCheck | app/backend/routers/automl.py:29-35 | the request passes exactly when the features form a matrix with as many rows as targets and at least two rows; otherwise the answer is an error, status 400 exactly when the features form a matrix |
| BackendAutoml.EffectiveCvSpec | app/backend/routers/automl.py:40 | the fold count never exceeds half the samples (or 2); a missing or zero count means 3 before clamping; it is at least 2 unless fewer was asked for; a count within range is kept |
| BackendAutoml.AutomlFit | app/backend/routers/automl.py:23-43 | a failed shape check gives its error; otherwise the selection with the clamped fold count is answered exactly when it has a best score and only real scores, and a server error (500) is answered when a NaN or minus infinity cannot be written as JSON |
| BackendGraph.NodeKey | app/backend/routers/graph.py:33 | a node id is `n` followed by the database id |
| BackendGraph.NodeLabel | app/backend/routers/graph.py:34-35 | a node label is never empty: the given one, or `node` |
| BackendGraph.NodeWrites | app/backend/routers/graph.py:32-35 | two dictionary writes per row |
| BackendDb.RunError | app/backend/db/neo4j.py:33-56 | a database failure becomes an HTTPException: 503 exactly for a missing driver, an unavailable service or a transient error, 401 exactly for refused credentials, 500 for anything else; the driver's message ends the detail |
| BackendGraph.GraphElementsEndpoint | app/backend/routers/graph.py:13-42 | the loop returns the specified response for the query outcome: the elements of the rows, `neo4j_run`'s HTTP error re-raised, or no elements for another exception |
| BackendGraph.FillFromRows | app/backend/routers/graph.py:30-36 | the loop fills the dictionary as the writes in order specify and appends one edge per row |
| BackendGraph.WritesStep | app/backend/routers/graph.py:34-35 | one more row sets its source, then its target |
| BackendGraph.WritesKeyed | app/backend/routers/graph.py:34-35 | every write puts a labelled node under its own id |
| BackendGraph.WrittenIds | app/backend/routers/graph.py:33-35 | both ends of every row are written |
| BackendGraph.GraphElementsSpec | app/backend/routers/graph.py:28-37 | the nodes have pairwise different ids in order of first mention, each holding the data of its last mention, with a non-empty label; one edge per row in row order; both ends of every edge are among the nodes |
| BackendGraph.FailureResponses | app/backend/routers/graph.py:16-42 | an HTTP error exactly when the database failed, with `neo4j_run`'s status (503, 401 or 500) and detail; no elements exactly for no rows or another exception, and at least one element otherwise |
| BackendGraph.NodeKeyInjective | app/backend/routers/graph.py:33 | different database ids give different node ids |
| BackendGraph.EdgeIdSpec | app/backend/routers/graph.py:36 | two rows give the same edge id exactly when they join the same two nodes by the same relationship type |
| BackendGraph.SplitEdgeId | app/backend/routers/graph.py:36 | an edge id splits back into its source, target and relationship type |
| BackendGraph.KeyHasNoSeparator | app/backend/routers/graph.py:33-36 | a node id holds neither `>` nor `:` |
| BackendOntology.ValidateAndImportSpec | app/backend/routers/ontology.py:15-36 | a non-conforming file loads nothing, whatever the database would say, and returns the validator's report; a conforming one reports conformance, no report and the count of the import's first row, 0 when the import returned no row; the request fails exactly when a file cannot be parsed (500, with the parser's text, from the catch-all handler) or the import of conforming data fails (`neo4j_run`'s 503, 401 or 500 with its detail) |
| BackendOntology.BuildTripleQuery | app/backend/routers/ontology.py:61-72 | the clause and the parameters are built condition by condition as specified |
| BackendOntology.AddFilter | app/backend/routers/ontology.py:63-71 | a filter in force appends its condition to the clauses and its value, under its name, to the parameters |
| BackendOntology.WhereClauseSpec | app/backend/routers/ontology.py:61-72 | the clause is `1=1` exactly when no filter is given; otherwise the given filters' conditions, in order, joined by ` AND ` |
| BackendOntology.ParamsSpec | app/backend/routers/ontology.py:62-71 | a parameter is passed for a field exactly when its filter is given (non-empty), carrying its value; at most three |
| BackendOntology.CreateTriple | app/backend/routers/ontology.py:39-51 | an error exactly when the database failed: status 400 with the text of `neo4j_run`'s HTTPException, whatever its own status |
| BackendOntology.DeleteSpec | app/backend/routers/ontology.py:83-117 | a deletion succeeds exactly when the first row counts something deleted, is a 404 exactly when nothing was, and `neo4j_run`'s own error (503, 401 or 500, with its detail) exactly when the database failed; deleting a node has the same outcomes |
| BackendOntology.SuccessesAndFailures | app/backend/routers/ontology.py:124-144 | every call either counts as a success or leaves exactly one error line with the prefix |
| BackendOntology.BulkTripleOperation | app/backend/routers/ontology.py:120-145 | every add is tried, then every delete; the counters are the successes and the errors are the failed adds' lines followed by the failed deletes' lines |
| BackendOntology.BulkCounts | app/backend/routers/ontology.py:120-145 | successes plus errors account for every triple, and the add errors come before the delete errors |
| AppJs.ShortcutPage | backup/frontend/js/app.js:99-120 | a page is selected only with Ctrl held, and it is one of the four pages |
| AppJs.ShortcutSpec | backup/frontend/js/app.js:101-119 | exactly Ctrl with one of the keys 1 to 4 switches page, and different keys select different pages |
| AppJs.WithToast | backup/frontend/js/app.js:395-403 | a visible toast with the given kind and message is appended under a fresh identifier; the earlier toasts and the rest of the state are unchanged and identifiers stay distinct |
| AppJs.HideToast | backup/frontend/js/app.js:413-415 | hiding keeps the toast list's length and identifiers |
| AppJs.HideToastSpec | backup/frontend/js/app.js:412-415 | with distinct identifiers exactly the named toast is hidden and nothing else changes |
| AppJs.SpliceAt | backup/frontend/js/app.js:417 | a splice at an index inside the list removes one element; outside it changes nothing |
| AppJs.PendingIndex | backup/frontend/js/app.js:413-414 | the index captured is a position holding the identifier, found exactly when the identifier is listed |
| AppJs.StaleSpliceDropsVisibleToast | backup/frontend/js/app.js:412-420 | as written: toasts 0, 1 and 2 shown, 0 and then 1 removed within 300 ms; the delayed splices at indices 0 and 1 leave only the hidden toast 1 and drop the visible toast 2 |
| AppJs.RemoveById | backup/frontend/js/app.js:416-418 | the corrected delayed removal never lengthens the list |
| AppJs.SpliceMembers | backup/frontend/js/app.js:417 | with distinct identifiers, splicing out a position removes exactly the toast with that position's identifier |
| AppJs.NoDupSplice | backup/frontend/js/app.js:417 | removing one element keeps a list of identifiers free of repetitions |
| AppJs.RemoveByIdSpec | backup/frontend/js/app.js:412-420 | corrected: exactly the named toast goes, the others stay, and identifiers stay distinct and below the counter |
| AppJs.RemoveByIdExample | backup/frontend/js/app.js:412-420 | corrected, on the same input: only the two expired toasts go and the visible toast 2 stays |
| AppJs.AfterUploadSpec | backup/frontend/js/app.js:305-362 | an answer puts a history line in front (success exactly when the graph conforms, with the loaded count), saves the first fifty lines and shows one toast, a success exactly when it conforms; a failed request leaves the history alone and shows an error toast |
| AppJs.AfterFileSpec | backup/frontend/js/app.js:291-300 | one file: an ontology file (`.ttl`, `.owl`, `.rdf`) is uploaded, any other gets a warning toast; the state stays valid |
| AppJs.AfterFilesSpec | backup/frontend/js/app.js:290-302 | a batch: exactly the ontology files are uploaded, in order; the page does not change; identifiers stay distinct and the saved history stays the first fifty lines |
| AppJs.AfterFilesToasts | backup/frontend/js/app.js:290-302 | every file of a batch leaves one toast of its own, in order, a warning exactly for the files that are not ontology files |
| AppJs.AfterFilesHistory | backup/frontend/js/app.js:290-332 | each answered upload adds one line in front of the history and the old history stays at the end |
| AppJs.App.constructor | backup/frontend/js/app.js:4-54 | the initial state: the graph page, no history, no toasts |
| AppJs.App.HandleKeydown | backup/frontend/js/app.js:99-120 | a shortcut switches page; any other key changes nothing |
| AppJs.App.LoadUploadHistory | backup/frontend/js/app.js:365-367 | the history becomes what was saved |
| AppJs.App.ShowToast | backup/frontend/js/app.js:395-409 | the state becomes the one with the new toast appended |
| AppJs.App.RemoveToast | backup/frontend/js/app.js:412-415 | the named toast is hidden at once; nothing else changes |
| AppJs.App.ExpireToast | backup/frontend/js/app.js:416-418 | corrected delayed half: the named toast is taken out by identifier |
| AppJs.App.UploadFile | backup/frontend/js/app.js:305-362 | the state after one upload, as specified |
| AppJs.RecordImport | backup/frontend/js/app.js:325-335 | recording an import puts it at the head of the history with a fresh id and saves the capped history, keeping the app data valid |
| AppJs.App.RecordImportIn | backup/frontend/js/app.js:325-335 | the app's data after recording an import is the specified record of it, and the app stays valid |
| AppJs.App.ProcessFiles | backup/frontend/js/app.js:290-302 | the loop leaves the state the batch specification gives |
| AppPlatform.MockProfile | app/ontology-platform/App.tsx:38-78 | every demonstration profile has noise 0.15, seasonality, 24 missing values, the two data types, four or five features and between 5200 and 12500 records |
| AppPlatform.MockProfilesDiffer | app/ontology-platform/App.tsx:38-78 | different industries get different record counts; Semiconductor and Electronics share their features |
| AppPlatform.PrepareInputSpec | app/ontology-platform/App.tsx:165-185 | a successful parse replaces profile, matrix and target and clears the error; otherwise the industry profile and fixed data are used, with the parse error shown exactly when a file failed to parse |
| AppPlatform.InputPassesShapeCheck | app/ontology-platform/App.tsx:165-191 | whatever the upload, the matrix and target sent pass the AutoML endpoint's shape check and the fold count used is at least 2 |
| AppPlatform.ChooseAutomlSpec | app/ontology-platform/App.tsx:191-208 | the server's result is shown exactly when it names a model with a finite score, with only its missing or empty method lists replaced by the default preprocessing and visualization lists; otherwise the simulation; the reason is set for an unusable result or an error with a message; whatever is shown has a model, a finite score and non-empty method lists |
| AppPlatform.RankingOf | app/ontology-platform/App.tsx:509-512 | without result list the ranking is the best model alone; otherwise as many entries as the source has, at most five |
| AppPlatform.RankingSpec | app/ontology-platform/App.tsx:509-512 | the ranking shows the five best entries best first: each from the source, the first the highest, and none left out scoring above the last shown |
| AppPlatform.RankingStable | app/ontology-platform/App.tsx:511 | entries with equal scores keep their order |
| AppPlatform.LoadInput | app/ontology-platform/App.tsx:165-185 | the loaded input is the specified one |
| AppPlatform.RunAnalysis | app/ontology-platform/App.tsx:158-218 | the profile and parse error are the prepared input's, whose data passes the shape check; the AutoML outcome is the chosen one with a model and finite score; the ranking is that result's; the matches are the analysis of the profile |

## Left out

- Rendering (JSX, Tailwind, Recharts, Chart.js, React Flow) and Cytoscape layouts. The Cytoscape graph is a set of elements, each with a shown or hidden flag. The `cy == null` guards are not modelled: the view always exists.
- OntologyGraph.BuildGraphElements: node coordinates (`Math.cos`/`Math.sin`/`atan2` in radians) are left out, and only the graph structure is modelled. `angleToPosition` takes the angle already converted to degrees, as an exact real.
- Networking: `fetch` in `client.ts`, `api.js` and `backendApi.ts`; the debug telemetry posts in `client.ts`; FormData uploads; file reading; Blob downloads. A server reply is an input value.
- `request` in `client.ts`: only the status and the choice of error message are modelled. The `Content-Type` header handling and the JSON body parse are left out; a parsed body is an input.
- LegacyApi.WithRetry: the sleeps between attempts are left out. The delay schedule is computed as a sequence.
- `withErrorHandling` and `withLoading` in `api.js`: their side effects (console, loading flags) are left out. Only the order in which `createEnhancedAPI` wraps them is modelled.
- The simple per-endpoint transformers in `app/frontend/js/api.js:309-356`: each returns one field of the response, or an empty default. They are modelled only through the `GetOr([])` reads inside the graph transformer.
- `backendApi.ts` `automlFit`: it only forwards a request, so its reply is an input of `AppPlatform`.
- Timers and async scheduling: debounce, throttle, `useAutoRefresh`, the dashboard `setInterval`, the simulated upload progress, the 300 ms toast removal delay, and the sleeps in `runAnalysis`. `toggleAutoRefresh` is modelled as a flag flip.
- Browser state: `localStorage` becomes the saved-history field; `document.cookie` writes, `window.history`, URL parameter helpers, user preferences, the `Alpine.store` sync and `confirm()` dialogs are left out.
- `handleGraphRefresh` on the data-manager page: it only invalidates React Query caches, and that has no observable state in the model.
- `runAnalysis` in `App.tsx`: React state setters are modelled as the final state they produce. The loading flags and their intermediate renders are left out.
- The `Date.now`/`datetime.now` clocks, `dayjs`/`Intl` date formatting, `formatDate` and `formatFileSize` (logarithms on floats). The current time is a parameter where it matters.
- JS `Number()` conversion ('' as 0, hex, 'Infinity') and `NaN` are the abstract `parseNum` parameter. IEEE-754 rounding is replaced by exact reals.
- `toLowerCase`/`toUpperCase` are modelled on ASCII letters only; other characters are unchanged. JS applies full Unicode case mapping.
- Object prototype keys (`__proto__`, `constructor`) are left out. Objects are plain insertion-ordered association lists.
- Labels that are `undefined` in the JS sources are modelled as the empty string.
- `sortRelationships` and `utils.js` `array.sortBy`: their comparators never return 0, so the resulting order is engine-defined.
- `utils.js` `deepClone` and `isEmpty`: they work on arbitrary object graphs. `validators.required` and `validators.range` are modelled only as the predicates `JsUtils.Required` and `JsUtils.InRange`; the only lemma about them is `JsUtils.LengthValidators`.
- FastAPI request validation (422 responses) and the `limit` query parameter: framework behaviour.
- `delete_triple`/`delete_node`: their `except Exception` branch (a 400 with the exception's text) is not modelled. `neo4j_run` turns every database exception into an HTTPException, which the `except HTTPException` clause re-raises, and the `deleted` column the handler reads is always in the query's row, so nothing else can reach that branch.
- JsUtils.Chunk: requires a positive size. For a non-empty array and a size of 0 or less, the loop at `app/frontend/js/utils.js:322` never ends (`i` never reaches the length), and for an empty array it returns `[]`; neither case is modelled.
- GraphManager.GraphManagerState.LoadElements: only a successful load is modelled. When the request fails (`backup/frontend/js/graph.js:250-258`), the source logs, shows an error toast and keeps the graph as it was; the toast and the log are not modelled.
- BackendAutoml.AutomlFit: the 500 response for an exception escaping `select_best_model` is not modelled. The only exception the model has, a candidate's evaluation raising, is caught inside the selection loop. The 500 for a result JSON cannot hold (NaN, minus infinity) is modelled.
- BackendAutoml.Mean: fold scores are real numbers or NaN. An infinite fold score is not represented.
- JsUtils.GroupBy: the group key is compared as a value. JS first turns `item[key]` into a property name, so `1` and `"1"` share a group and a missing field groups under `"undefined"`. A caller can pass a key function that already gives the property name. The groups are an unordered map, so the order of the object's keys (integer-like keys first) is not modelled.
- `get_triples`: the rows are passed through as the database returns them. Only its WHERE clause and parameters are modelled (BackendOntology.BuildTripleQuery).
- The process-flow and equipment-hierarchy endpoints and `config.py`: framework wiring around queries that are not modelled. The catch-all handler of `main.py` is modelled only as the 500 with the exception's text that an unparsable import file gets; its 503 and 401 branches for raw driver exceptions are not reached by the modelled endpoints, because `neo4j_run` converts those exceptions first.
- Neo4j, rdflib/pyshacl and sklearn: their results (rows, conformance, cross-validation scores) are parameters.
- `scripts/generate_sample_data.py`: randomness and file writing.

## Findings

| source | as written | input that shows it | evidently intended | confidence | as-written member | corrected member |
|---|---|---|---|---|---|---|
| backup/frontend/js/relationship.js:424-433 | `convertToCSV` wraps every field in double quotes but does not double the quotes inside a field | the rows (`a","b`, `c`, `x`, ``, ``) and (`a`, `b`, `c`, `x`, `","`) export to the same line | embedded quotes are doubled (section 2, rule 7 of RFC 4180), so different rows give different lines | not executed | RelationshipEditor.CsvLineNotInjective | RelationshipEditor.CsvLineEscapedInjective |
| backup/frontend/js/app.js:412-420 | `removeToast` hides a toast and, 300 ms later, splices at the index it looked up when it was called | three visible toasts 0, 1, 2; toast 0 and then toast 1 are removed within 300 ms: the splices at 0 and 1 drop the still-visible toast 2 and keep the hidden toast 1 | the toast that was hidden is the one removed | not executed | AppJs.StaleSpliceDropsVisibleToast | AppJs.RemoveByIdSpec |
