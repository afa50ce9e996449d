# YYC³ EasyVizAI dashboard core, modelled in Dafny

This project models the client-side logic of the YYC³ EasyVizAI data-visualisation and
learning dashboard, a React application. Each interactive component keeps its own state and
changes it in handlers, effects and timers. The model gives each component one Dafny module.
Component state becomes a `class` whose methods are the handlers. The pure decision logic
(classifiers, label ladders, the CSV parser, the 3-D projection) becomes functions. The
properties each component promises are stated as contracts and lemmas.

The modules:

- `GraphFrame`, `Projection`, `KnowledgeGraph` (`knowledge-graph-3d.tsx`): the 3-D knowledge
  graph.
  - The authored nodes and edges.
  - `project3DTo2D`: rotation about Y then X, then a perspective divide at camera distance 300.
  - One `render` call, as a list of abstract draw commands. A clear comes first, then every
    resolvable edge (at 60 % opacity), then every node (disc, mastery ring, caption).
  - The per-frame rotation update while playing.
  - Zoom clamped to [0.5, 2].
  - The click hit-test, where the last node hit wins.
- `CsvProcessor` (`data-processor.tsx`):
  - `processCsvData`: the line and field split, the `parseFloat` typing of each cell, the
    header-to-field assignment, and the numeric/categorical column summary.
  - The source-selection branch, which yields the six-row sample for every other source.
  - The processing state and the `onDataProcessed` callback.
- `Alerts` (`alert-system.tsx`): the alert monitor.
  - A newest-first list capped at 20, fed by the 3-second interval.
  - Acknowledge, clear-all, and the unacknowledged counts.
  - Toggling the sound re-runs the effect, which replaces the list with five new alerts.
- `KnowledgeBase` (`knowledge-base.tsx`): the search and category filter.
- `Intent` (`intent-recognition.tsx`): the first-match-wins keyword classifier and the
  panel's processing, suggestion and input state.
- `CanvasZoom` (`visualization-canvas.tsx`): the integer zoom in [50, 200] and its scale.
- `LearningExperience` (`enhanced-learning-experience.tsx`): the progress/mood state machine
  and the mood-to-emotion effect.
  - The effect calls `onEmotionChange` only when the mood actually changes.
  - Progress has a ceiling of 100 but no floor.
- `PptGenerator` (`ppt-generator.tsx`): the five generation steps.
  - The steps are mutated in place in an array. Their progress runs 0, 10, …, 100.
  - The overall progress `(i * 100 + p) / n` is published at each tick.
- `ReportGenerator` (`multimodal-report-generator.tsx`): the five report sections, each going
  pending → generating → completed, and the preview-ready test.
- `ReasoningEngine` (`reasoning-engine.tsx`): the four chain-of-thought steps.
  - In the first iteration the two updates map over the list just emptied, so they do
    nothing.
  - The result text quotes the query.
- `Insights` (`intelligent-insights.tsx`): the 200 ms analysis ticker, the generated insights,
  the stage label and the summary figures.
- `LearningPath` (`learning-path-generator.tsx`): the mock path and its percentage. The
  percentage comes from the stored counters, so it is 33 %, although two of the three listed
  nodes are done. Also the node status ladders and the connectors.
- `InsightPanel` (`ai-insight-panel.tsx`): the selection toggle and the spinner/list
  visibility. The refresh button starts an animation that only a later change of
  `isLoading` can end. Loading that ends within two seconds clears the only timer that
  would end it.
- `Sidebar` (`sidebar-navigation.tsx`): `getProgressColor`, the highlighted item and the
  hover chevron.
- `JsText` and `Common`: the JavaScript string operations the components use (`trim`,
  `split`, `includes`, ASCII `toLowerCase`), `Math.round`, `Math.min`/`Math.max` and
  counting.

Delays (`setTimeout`, `setInterval`, `await`) become sequential steps or explicit tick methods.
Several methods return the values they publish along the way as ghost logs (`progressLog`,
`stepLog`, `published`). Their contracts state what every intermediate state looks like.

## Model

| member | source | states |
|---|---|---|
| Projection.Rotate | components/learning/knowledge-graph-3d.tsx:206-219 | the two rotations of `project3DTo2D` keep the squared distance from the origin for any angles (given cos² + sin² = 1), move nothing at rotation (0, 0), and never move the origin |
| Projection.PlaneRotationKeepsLength | components/learning/knowledge-graph-3d.tsx:210-218 | a rotation in one plane by an angle with cos² + sin² = 1 keeps the squared length in that plane |
| Projection.OnUnitCircle | components/learning/knowledge-graph-3d.tsx:210-218 | a valid cosine/sine pair satisfies cos² + sin² = 1 at every angle |
| Projection.Turn | components/learning/knowledge-graph-3d.tsx:206-219 | rotating by the identity pair (cos 1, sin 0) on both axes moves nothing, and the origin never moves |
| Projection.TurnKeepsLength | components/learning/knowledge-graph-3d.tsx:206-219 | the rotation about y followed by the rotation about x keeps the squared distance from the origin whenever both pairs lie on the unit circle |
| Projection.InFrontOfCamera | components/learning/knowledge-graph-3d.tsx:222-223 | a point strictly inside the sphere of radius 300 has positive depth `300 + z`, so the perspective divide is defined |
| Projection.Perspective | components/learning/knowledge-graph-3d.tsx:222-223 | the scale `(300 / (300 + z)) * zoom` is positive whenever the zoom is |
| Projection.Project | components/learning/knowledge-graph-3d.tsx:198-229 | the graph's origin always lands on the canvas centre, whatever the zoom and rotation; at rotation (0, 0) the projection is `centerX + x * (300 / (300 + z)) * zoom`, and likewise for y |
| GraphFrame.FindIndex | components/learning/knowledge-graph-3d.tsx:133-134 | `nodes.find` by id: the index of the FIRST node with that id, and none exactly when no node has it |
| GraphFrame.CategoryColor | components/learning/knowledge-graph-3d.tsx:160-168 | the fallback grey `#6b7280` exactly for a category missing from the palette; foundation, core, advanced, technical and ai map to `#3b82f6`, `#10b981`, `#f59e0b`, `#8b5cf6` and `#ef4444` |
| GraphFrame.EdgeColor | components/learning/knowledge-graph-3d.tsx:144 | the foundation blue exactly for prerequisites, the core green exactly for related edges, the advanced amber exactly for the rest |
| GraphFrame.DiscRadius | components/learning/knowledge-graph-3d.tsx:158 | `20 + 5 * level`: at least 20 exactly from level 0 up, and positive exactly above level -4 |
| GraphFrame.Projected | components/learning/knowledge-graph-3d.tsx:138-154 | one projected point per node, in node order, each equal to that node's projection |
| GraphFrame.EdgeDraw | components/learning/knowledge-graph-3d.tsx:132-149 | a resolvable edge draws alpha 0.6, then one line from the projection of the first node named `from` to the projection of the first node named `to`, coloured by relation type and `strength * 3` wide, then alpha 1; an edge with a missing endpoint draws nothing |
| GraphFrame.NodeDraw | components/learning/knowledge-graph-3d.tsx:154-182 | a node draws a disc of radius `20 + 5 * level` in its category colour, a white ring 3 wide and 5 further out sweeping `mastery / 100` turns, and its caption in white `15` below the disc edge |
| GraphFrame.EdgeLayer | components/learning/knowledge-graph-3d.tsx:132-150 | the edge layer has at most three commands per edge, and a non-empty edge layer ends by setting the alpha back to 1 |
| GraphFrame.NodeLayer | components/learning/knowledge-graph-3d.tsx:153-183 | the node layer has exactly three commands per node, all node elements |
| GraphFrame.Frame | components/learning/knowledge-graph-3d.tsx:112-183 | a frame starts with a clear, holds three commands per node and at most three per edge besides, and everything after the clear draws an edge or a node |
| GraphFrame.DrawEdge | components/learning/knowledge-graph-3d.tsx:132-150 | one pass of `edges.forEach` yields exactly the specified edge commands |
| GraphFrame.DrawEdges | components/learning/knowledge-graph-3d.tsx:132-150 | the `edges.forEach` loop yields the edge layer: each edge's commands, in edge order |
| GraphFrame.DrawNode | components/learning/knowledge-graph-3d.tsx:153-182 | one pass of `nodes.forEach` yields exactly the specified node commands at the node's projection |
| GraphFrame.DrawNodes | components/learning/knowledge-graph-3d.tsx:153-183 | the `nodes.forEach` loop yields the node layer: each node's commands, in node order |
| GraphFrame.DrawFrame | components/learning/knowledge-graph-3d.tsx:112-183 | the drawing part of `render` yields the frame specification: clear, edge layer, node layer |
| GraphFrame.NodeLayerAt | components/learning/knowledge-graph-3d.tsx:153-183 | node k owns commands 3k to 3k+2 of the node layer, which has three commands per node |
| GraphFrame.Resolved | components/learning/knowledge-graph-3d.tsx:133-136 | the kept edges are edges of the input whose two endpoints exist, and every edge of the input whose endpoints exist is kept |
| GraphFrame.ResolvedConcat | components/learning/knowledge-graph-3d.tsx:132-136 | filtering a concatenation filters each part in turn, so the kept edges stay in input order |
| GraphFrame.ResolvedSingle | components/learning/knowledge-graph-3d.tsx:133-136 | a single edge is kept exactly when both its endpoints exist |
| GraphFrame.ResolvedAll | components/learning/knowledge-graph-3d.tsx:136 | when every edge resolves, no edge is dropped |
| GraphFrame.EdgeLayerSkipsUnresolved | components/learning/knowledge-graph-3d.tsx:132-150 | edges with a missing endpoint are skipped silently: the layer equals that of the resolvable edges alone |
| GraphFrame.EdgeLayerAt | components/learning/knowledge-graph-3d.tsx:138-148 | resolvable edge k owns commands 3k to 3k+2: alpha 0.6, its line from the projection of its `from` node to that of its `to` node (colour by type, width `strength * 3`), alpha 1 |
| GraphFrame.EdgeLayerShape | components/learning/knowledge-graph-3d.tsx:141-148 | an edge layer holds only alpha changes and lines; every line directly follows the switch to 0.6, and a non-empty layer ends at alpha 1 |
| GraphFrame.NodeLayerShape | components/learning/knowledge-graph-3d.tsx:153-183 | every command of the node layer draws a node element |
| GraphFrame.EdgesBeforeNodes | components/learning/knowledge-graph-3d.tsx:131-183 | a frame starts with a clear, and no edge command follows any node command: edges are painted behind nodes |
| GraphFrame.AlphaAfter | components/learning/knowledge-graph-3d.tsx:146-148 | the opacity in effect is 1 or a value some command set, and 1 when no command sets one |
| GraphFrame.EdgeLinesDimmed | components/learning/knowledge-graph-3d.tsx:146-147 | inside an edge layer, the opacity in effect at every line is 0.6 |
| GraphFrame.EdgeLayerRestoresAlpha | components/learning/knowledge-graph-3d.tsx:148 | after the whole edge layer the opacity is back at 1 |
| GraphFrame.FrameOpacity | components/learning/knowledge-graph-3d.tsx:141-182 | in every frame each edge line is stroked at opacity 0.6 and each node element is drawn at opacity 1 |
| GraphFrame.LayeredOpacity | components/learning/knowledge-graph-3d.tsx:141-182 | in a frame made of the clear command, an edge layer and a node layer, every line is stroked at 0.6 and every node element at 1 |
| KnowledgeGraph.SampleNodesInside | components/learning/knowledge-graph-3d.tsx:39-93 | every authored node lies inside the camera sphere, so no rotation brings it to or behind the camera |
| KnowledgeGraph.SampleEdgesResolve | components/learning/knowledge-graph-3d.tsx:95-102 | every authored edge names two existing nodes, so none is skipped |
| KnowledgeGraph.ZoomedIn | components/learning/knowledge-graph-3d.tsx:294 | zoom-in never exceeds 2, never lowers an in-range zoom and keeps it at least 0.5 |
| KnowledgeGraph.ZoomedOut | components/learning/knowledge-graph-3d.tsx:290 | zoom-out never goes below 0.5, never raises an in-range zoom and keeps it at most 2 |
| KnowledgeGraph.ZoomInSaturates | components/learning/knowledge-graph-3d.tsx:294 | n zoom-in presses give `min(2, zoom + 0.1 n)` |
| KnowledgeGraph.ZoomOutSaturates | components/learning/knowledge-graph-3d.tsx:290 | n zoom-out presses give `max(0.5, zoom - 0.1 n)` |
| KnowledgeGraph.Turned | components/learning/knowledge-graph-3d.tsx:124-129 | each playing frame turns the x angle by exactly twice what it turns the y angle |
| KnowledgeGraph.Spin | components/learning/knowledge-graph-3d.tsx:124-129 | n playing frames add `n * speed * 0.01` to x and `n * speed * 0.005` to y; while paused the rotation never changes |
| KnowledgeGraph.Hit | components/learning/knowledge-graph-3d.tsx:245-247 | a click on the node's own centre hits it exactly when its hit radius `25 + 5 * level` is positive; a node of level -5 or below is never hit |
| KnowledgeGraph.LastHit | components/learning/knowledge-graph-3d.tsx:243-250 | the index found is hit by the click and no later node is; none exactly when no node is hit |
| KnowledgeGraph.Clicked | components/learning/knowledge-graph-3d.tsx:243-250 | the selection after a click is the previous one or one of the graph's nodes |
| KnowledgeGraph.SelectionIsNotNearest | components/learning/knowledge-graph-3d.tsx:243-250 | with two overlapping hits, the later node wins even though the click is nearer the earlier one |
| KnowledgeGraph.KnowledgeGraphView.constructor | components/learning/knowledge-graph-3d.tsx:32-102 | the authored graph, playing at speed 0.5, zoom 1, rotation (0, 0), nothing selected |
| KnowledgeGraph.KnowledgeGraphView.RenderFrame | components/learning/knowledge-graph-3d.tsx:112-186 | a render draws the frame of the rotation current when it started, then advances the rotation only while playing |
| KnowledgeGraph.KnowledgeGraphView.Click | components/learning/knowledge-graph-3d.tsx:231-251 | the loop over all nodes leaves the last node hit selected, or the previous selection if no node is hit |
| KnowledgeGraph.KnowledgeGraphView.ZoomIn | components/learning/knowledge-graph-3d.tsx:294 | zoom becomes `min(2, zoom + 0.1)` and stays in [0.5, 2] |
| KnowledgeGraph.KnowledgeGraphView.ZoomOut | components/learning/knowledge-graph-3d.tsx:290 | zoom becomes `max(0.5, zoom - 0.1)` and stays in [0.5, 2] |
| KnowledgeGraph.KnowledgeGraphView.Reset | components/learning/knowledge-graph-3d.tsx:268 | rotation becomes (0, 0); only the rotation changes |
| KnowledgeGraph.KnowledgeGraphView.TogglePlay | components/learning/knowledge-graph-3d.tsx:265 | only `isPlaying` changes, and it flips |
| KnowledgeGraph.KnowledgeGraphView.SetRotationSpeed | components/learning/knowledge-graph-3d.tsx:280-287 | the slider sets a speed in [0, 2] |
| KnowledgeGraph.FrameAfterReset | components/learning/knowledge-graph-3d.tsx:198-229 | after a reset every node lands at `centre + (x, y) * (300 / (300 + z)) * zoom` |
| JsText.TrimStart | components/data/data-processor.tsx:105 | removes exactly the leading JavaScript whitespace: what is removed is all whitespace, and what remains starts with a non-space |
| JsText.TrimEnd | components/data/data-processor.tsx:105 | removes exactly the trailing JavaScript whitespace |
| JsText.Trim | components/data/data-processor.tsx:105 | the trimmed text is the infix of the input left after removing the leading and the trailing whitespace and nothing else: what is cut off on either side is all whitespace, and the result neither starts nor ends with whitespace |
| JsText.TrimInfix | components/data/data-processor.tsx:105 | trimming the start and then the end leaves an infix of the input whose cut-off parts are whitespace and whose ends are not |
| JsText.BlankIffAllSpace | components/reports/multimodal-report-generator.tsx:39 | `!s.trim()` holds exactly when every character is whitespace |
| JsText.Split | components/data/data-processor.tsx:105 | `split` always yields at least one piece |
| JsText.SplitPiecesFree | components/data/data-processor.tsx:105 | no piece contains the separator |
| JsText.JoinSplit | components/data/data-processor.tsx:105 | joining the pieces with the separator gives back the text |
| JsText.SplitCount | components/data/data-processor.tsx:105-106 | there is one more piece than separators |
| JsText.OccurrencesZero | components/data/data-processor.tsx:106 | a character occurs zero times exactly when it is absent |
| JsText.MapTrim | components/data/data-processor.tsx:108 | each piece is trimmed, in order |
| JsText.IncludesAt | components/learning/intent-recognition.tsx:76 | a substring found at some position is included |
| JsText.IncludesWitness | components/learning/intent-recognition.tsx:76 | an included substring occurs at some position |
| JsText.IncludesEmpty | components/learning/knowledge-base.tsx:125 | every string includes the empty string |
| JsText.FirstCharAbsent | components/learning/intent-recognition.tsx:76 | a word whose first character is absent from the text is not included |
| JsText.LowerChar | components/learning/knowledge-base.tsx:125 | an upper-case ASCII letter maps to the lower-case letter 32 code points above it; everything else is kept |
| JsText.Lower | components/learning/knowledge-base.tsx:125 | lower-casing keeps the length and lowers each character |
| Common.RoundHalfUp | components/learning/learning-path-generator.tsx:154 | `Math.round(num / den)`: the integer nearest the quotient, halves rounded up |
| Common.RoundBounds | components/ai/intelligent-insights.tsx:248 | rounding a quotient in [0, 100] gives an integer in [0, 100] |
| Common.CountWhere | components/ai/intelligent-insights.tsx:242 | a filtered count is at most the list length |
| Common.CountWhereConcat | components/ai/intelligent-insights.tsx:242 | a filtered count over `a + b` is the count over `a` plus the count over `b` |
| Common.CountWhereSingle | components/ai/intelligent-insights.tsx:242 | a one-element list counts 1 exactly when its element passes the filter |
| Common.Positions | components/ai/intelligent-insights.tsx:242 | holds exactly the positions of the list whose element passes the filter |
| Common.CountWhereIndices | components/ai/intelligent-insights.tsx:242 | a filtered count is the number of positions whose element passes the filter |
| CsvProcessor.DigitRun | components/data/data-processor.tsx:115 | the maximal run of leading decimal digits |
| CsvProcessor.ExponentLength | components/data/data-processor.tsx:115 | an exponent part, when present, starts with `e` or `E` and lies within the text |
| CsvProcessor.UnsignedLiteralLength | components/data/data-processor.tsx:115 | a non-empty unsigned literal is `Infinity` or contains a digit |
| CsvProcessor.NumericPrefixLength | components/data/data-processor.tsx:115 | the prefix `parseFloat` consumes lies within the text, and the empty text has none (NaN) |
| CsvProcessor.DigitsAreNumeric | components/data/data-processor.tsx:115 | a non-empty run of digits is read whole as a number |
| CsvProcessor.NoDigitIsNaN | components/data/data-processor.tsx:115 | text with no digit and no `I` is NaN |
| CsvProcessor.TypeField | components/data/data-processor.tsx:115-116 | a field is a number exactly when `parseFloat` reads a non-empty prefix of it; otherwise the trimmed text itself is kept |
| CsvProcessor.CellAt | components/data/data-processor.tsx:113 | a field index past the end of the line gives `undefined`, and only such an index does |
| CsvProcessor.TypedFields | components/data/data-processor.tsx:112-116 | one typed cell per header index, cell k from field k |
| CsvProcessor.Assign | components/data/data-processor.tsx:112-117 | the row's keys are exactly the headers |
| CsvProcessor.AssignLastWins | components/data/data-processor.tsx:112-117 | a header gets the cell of its last occurrence |
| CsvProcessor.BuildRow | components/data/data-processor.tsx:110-117 | the row's keys are exactly the headers; extra fields are dropped |
| CsvProcessor.BuildRowLastWins | components/data/data-processor.tsx:110-117 | field i goes to header i unless a later header has the same name; a missing field gives `undefined` |
| CsvProcessor.ParseRow | components/data/data-processor.tsx:110-117 | the row of one data line has exactly the headers as keys, and the last header holds the trimmed, typed field at its own index |
| CsvProcessor.NumericColumns | components/data/data-processor.tsx:127 | the numeric columns are headers with a number in some row, no more of them than there are headers |
| CsvProcessor.CategoricalColumns | components/data/data-processor.tsx:128 | the categorical columns are headers with a string in every row, no more of them than there are headers |
| CsvProcessor.NumericColumnsMembers | components/data/data-processor.tsx:127 | a column is numeric exactly when it is a header and some row holds a number in it; each such header occurs as often as in the header list |
| CsvProcessor.NumericColumnsConcat | components/data/data-processor.tsx:127 | `filter` over a concatenation is the concatenation of the filters, so the numeric columns keep header order |
| CsvProcessor.NumericColumnsSingle | components/data/data-processor.tsx:127 | one header is kept exactly when some row holds a number in it |
| CsvProcessor.CategoricalColumnsMembers | components/data/data-processor.tsx:128 | a column is categorical exactly when it is a header and every row holds a string in it; each such header occurs as often as in the header list |
| CsvProcessor.CategoricalColumnsConcat | components/data/data-processor.tsx:128 | `filter` over a concatenation is the concatenation of the filters, so the categorical columns keep header order |
| CsvProcessor.CategoricalColumnsSingle | components/data/data-processor.tsx:128 | one header is kept exactly when every row holds a string in it |
| CsvProcessor.Summarize | components/data/data-processor.tsx:124-128 | the summary counts the rows and the headers, and no column is both numeric and categorical |
| CsvProcessor.MissingCellColumns | components/data/data-processor.tsx:127-128 | a column with an `undefined` cell is never categorical, and without any number it is in neither list |
| CsvProcessor.ParseCsv | components/data/data-processor.tsx:104-131 | `totalColumns` is the header count and `totalRows` the row count |
| CsvProcessor.ParseRows | components/data/data-processor.tsx:109-119 | one row per data line, row k parsed from line k |
| CsvProcessor.ParseCsvShape | components/data/data-processor.tsx:105-125 | the result is null exactly when the trimmed text has no line break; otherwise there is one row per line break |
| CsvProcessor.ParseCsvRows | components/data/data-processor.tsx:105-119 | the headers are the trimmed comma fields of the first line, and row k comes from line k + 1 |
| CsvProcessor.SampleColumnKinds | components/data/data-processor.tsx:145-154 | in the sample, the month column is all text and the other three hold numbers |
| CsvProcessor.SampleSummaryConsistent | components/data/data-processor.tsx:145-161 | the sample's hard-coded summary is the one `processCsvData` computes from its rows, order included |
| CsvProcessor.SummaryOfKinds | components/data/data-processor.tsx:124-128 | any rows with the sample's column kinds summarise to three numeric columns and one categorical column, in header order |
| CsvProcessor.ProcessSource | components/data/data-processor.tsx:141-162 | every source except a non-empty upload yields the sample; a non-empty upload yields `processCsvData` of the text (`ParseCsv`); the result is null exactly for a non-empty upload whose trimmed text has no line break |
| CsvProcessor.DataProcessor.constructor | components/data/data-processor.tsx:24-27 | no source selected, no text, idle, no result |
| CsvProcessor.DataProcessor.CanProcess | components/data/data-processor.tsx:232 | the button is enabled exactly when a source is selected and nothing is processing |
| CsvProcessor.DataProcessor.SelectSource | components/data/data-processor.tsx:192 | clicking a source selects it |
| CsvProcessor.DataProcessor.EditCsv | components/data/data-processor.tsx:216 | the text area sets the CSV text |
| CsvProcessor.DataProcessor.BeginProcessing | components/data/data-processor.tsx:134 | processing starts |
| CsvProcessor.DataProcessor.FinishProcessing | components/data/data-processor.tsx:139-169 | the stored result is the outcome of the source branch; processing ends; the callback receives the result exactly when it is non-null and a callback is given |
| CsvProcessor.DataProcessor.Deliver | components/data/data-processor.tsx:164-169 | store, stop, and call back only with a non-null result |
| Alerts.Messages | components/monitoring/alert-system.tsx:30-34 | each type has four messages |
| Alerts.Pick | components/monitoring/alert-system.tsx:36-39 | `Math.floor(Math.random() * n)` is a valid index below n |
| Alerts.Threshold | components/monitoring/alert-system.tsx:50 | 90, 75 and 50 exactly for critical, warning and info |
| Alerts.GenerateAlert | components/monitoring/alert-system.tsx:27-52 | an alert starts unacknowledged with value in [0, 100); the threshold is 90, 75 or 50, exactly for critical, warning or info; source and message come from the lists; the title is the source plus the type's suffix |
| Alerts.Prepended | components/monitoring/alert-system.tsx:62 | the new alert comes first, followed by the newest old alerts, with at most 20 in all |
| Alerts.PrependKeepsOrDropsOldest | components/monitoring/alert-system.tsx:62 | below the cap nothing is dropped; at the cap only the oldest alerts beyond 19 are dropped |
| Alerts.Acknowledged | components/monitoring/alert-system.tsx:75-77 | length and order are kept, and every alert differs only in its flag, which is set exactly for the matching id (a set flag stays set) |
| Alerts.AcknowledgeIdempotent | components/monitoring/alert-system.tsx:75-77 | acknowledging twice equals acknowledging once |
| Alerts.AcknowledgeOthersUnchanged | components/monitoring/alert-system.tsx:76 | alerts with another id are untouched |
| Alerts.OpenCount | components/monitoring/alert-system.tsx:105-106 | the `filter(type && !acknowledged).length` of a badge, as a `CountWhere`; at most the list length |
| Alerts.OpenCountIndices | components/monitoring/alert-system.tsx:105-106 | a badge counts exactly the positions holding an unacknowledged alert of its type |
| Alerts.OpenCountSnoc | components/monitoring/alert-system.tsx:105-106 | appending an alert raises a badge by one exactly when that alert is unacknowledged and of its type |
| Alerts.BadgeCountsBounded | components/monitoring/alert-system.tsx:105-106 | the critical and warning counts together are at most the list length |
| Alerts.ShowsConfirm | components/monitoring/alert-system.tsx:193 | the confirm button shows exactly when the alert counts towards the unacknowledged badge of its type |
| Alerts.AcknowledgeLowersCounts | components/monitoring/alert-system.tsx:75-77 | acknowledging never raises a count and removes the confirm button of every matching alert |
| Alerts.AlertMonitor.constructor | components/monitoring/alert-system.tsx:54-56 | mounting shows five generated alerts, with sound and auto-refresh on |
| Alerts.AlertMonitor.IntervalTick | components/monitoring/alert-system.tsx:59-70 | an alert is prepended exactly when auto-refresh is on and the draw exceeds 0.7; the sound plays only for such a critical alert with sound enabled |
| Alerts.AlertMonitor.Acknowledge | components/monitoring/alert-system.tsx:75-77 | the list becomes its acknowledged version and stays within the cap |
| Alerts.AlertMonitor.ClearAll | components/monitoring/alert-system.tsx:79-81 | the list becomes empty |
| Alerts.AlertMonitor.ToggleSound | components/monitoring/alert-system.tsx:55-73 | the sound flag flips and, because the effect re-runs, the list is replaced by five new alerts |
| Alerts.AlertMonitor.CriticalCount | components/monitoring/alert-system.tsx:105 | the critical badge count is at most the list length |
| Alerts.AlertMonitor.WarningCount | components/monitoring/alert-system.tsx:106 | the warning badge count is at most the list length |
| KnowledgeBase.MatchesSearch | components/learning/knowledge-base.tsx:124-127 | the empty term matches every item, and a match in the description or in a tag is enough |
| KnowledgeBase.MatchesCategory | components/learning/knowledge-base.tsx:128 | the "all" tab shows every item; any other tab exactly the items of its category |
| KnowledgeBase.Visible | components/learning/knowledge-base.tsx:124-129 | with an empty term only the tab decides; on the "all" tab only the search decides |
| KnowledgeBase.FilteredItems | components/learning/knowledge-base.tsx:123-130 | the result is no longer than the list, and an item is in it exactly when it is listed and passes both tests |
| KnowledgeBase.FilteredItemsConcat | components/learning/knowledge-base.tsx:123-130 | filtering a concatenation filters each part in turn, so the result keeps list order |
| KnowledgeBase.FilteredItemsSingle | components/learning/knowledge-base.tsx:123-130 | a single item is kept exactly when it passes both tests |
| KnowledgeBase.FilterKeepsAll | components/learning/knowledge-base.tsx:123-130 | when every item passes, the list is returned unchanged, order included |
| KnowledgeBase.EmptyTermMatchesAll | components/learning/knowledge-base.tsx:124-127 | the empty search term matches every item |
| KnowledgeBase.LowerIdempotent | components/learning/knowledge-base.tsx:125 | lower-casing twice equals lower-casing once |
| KnowledgeBase.SearchIgnoresCase | components/learning/knowledge-base.tsx:124-127 | a term matches exactly when its lower-cased form does |
| KnowledgeBase.CategoryNarrowsAll | components/learning/knowledge-base.tsx:128-129 | a category's result is the "all" result filtered by category, in the same order |
| KnowledgeBase.PlaceholderIffNoMatch | components/learning/knowledge-base.tsx:199 | the placeholder is shown exactly when no item passes both tests |
| KnowledgeBase.SampleAllTab | components/learning/knowledge-base.tsx:123-130 | the initial "all" tab with an empty search shows every item |
| Intent.Classify | components/learning/intent-recognition.tsx:76-108 | never `export`; with a trend word a 0.92 `create_line_chart` with a time axis; else with a proportion word a 0.88 `create_pie_chart`; else with a learning word a 0.85 `generate_learning_path` whose topic is the input; otherwise a 0.75 `analyze_data` whose query is the input |
| Intent.ConfidenceValues | components/learning/intent-recognition.tsx:76-108 | the confidence is one of 0.92, 0.88, 0.85 and 0.75 |
| Intent.TrendBeatsLaterRules | components/learning/intent-recognition.tsx:76-83 | an input with any of the trend words is a 0.92 line chart with a time axis, whatever else it contains |
| Intent.ProportionBeatsLearning | components/learning/intent-recognition.tsx:84-91 | without a trend word, any of the proportion words gives a 0.88 pie chart, even when a learning word occurs |
| Intent.NoKeyword | components/learning/intent-recognition.tsx:100-108 | an input containing no first character of any keyword matches none of them |
| Intent.SalesTrendPrompt | components/learning/intent-recognition.tsx:35 | "显示销售趋势" is classified as visualization |
| Intent.UserBehaviourPrompt | components/learning/intent-recognition.tsx:36 | "分析用户行为" falls through to analysis |
| Intent.PieChartPrompt | components/learning/intent-recognition.tsx:37 | "创建饼图" is classified as visualization |
| Intent.LearnPrompt | components/learning/intent-recognition.tsx:38 | "学习数据可视化" is classified as learning |
| Intent.PromptClassified | components/learning/intent-recognition.tsx:34-39 | quick prompt k is classified as the type it is advertised with |
| Intent.PromptsClassifiedAsAdvertised | components/learning/intent-recognition.tsx:34-39 | every quick prompt is classified as its advertised type |
| Intent.IntentPanel.constructor | components/learning/intent-recognition.tsx:28-32 | empty input, no intent, idle, suggestions hidden |
| Intent.IntentPanel.Type | components/learning/intent-recognition.tsx:169 | typing sets the input |
| Intent.IntentPanel.BeginRecognition | components/learning/intent-recognition.tsx:68-69 | recognition marks processing and hides the suggestions |
| Intent.IntentPanel.CompleteRecognition | components/learning/intent-recognition.tsx:110-111 | the stored intent is the classification of the input, and processing ends |
| Intent.IntentPanel.SubmitEnabled | components/learning/intent-recognition.tsx:175 | the button is enabled exactly while idle with a non-empty input; a whitespace-only input counts as non-empty |
| Intent.IntentPanel.Submit | components/learning/intent-recognition.tsx:170-174 | recognition starts exactly when the input is non-empty; otherwise nothing changes |
| Intent.IntentPanel.PromptClick | components/learning/intent-recognition.tsx:114-118 | the input becomes the prompt text, which is classified; the panel ends idle with suggestions hidden |
| Intent.IntentPanel.ToggleSuggestions | components/learning/intent-recognition.tsx:184 | the suggestions flag flips |
| CanvasZoom.ZoomedIn | components/charts/visualization-canvas.tsx:18 | plus 10 when that stays at or below 200, otherwise 200; a reachable zoom stays reachable and never decreases |
| CanvasZoom.ZoomedOut | components/charts/visualization-canvas.tsx:19 | minus 10 when that stays at or above 50, otherwise 50; a reachable zoom stays reachable and never increases |
| CanvasZoom.InThenOut | components/charts/visualization-canvas.tsx:18-19 | zoom-in then zoom-out returns to any reachable zoom below 200 |
| CanvasZoom.OutThenIn | components/charts/visualization-canvas.tsx:18-19 | zoom-out then zoom-in returns to any reachable zoom above 50 |
| CanvasZoom.AfterPresses | components/charts/visualization-canvas.tsx:16-19 | any sequence of presses from 100 keeps the zoom a multiple of 10 in [50, 200] |
| CanvasZoom.ZoomInSaturates | components/charts/visualization-canvas.tsx:16-18 | n zoom-in presses from 100 give `min(100 + 10 n, 200)` |
| CanvasZoom.Scale | components/charts/visualization-canvas.tsx:49 | the applied scale `zoom / 100` lies in [0.5, 2] and is 1 exactly at the initial zoom |
| CanvasZoom.VisualizationCanvas.constructor | components/charts/visualization-canvas.tsx:16 | the zoom starts at 100 |
| CanvasZoom.VisualizationCanvas.ZoomIn | components/charts/visualization-canvas.tsx:18 | the zoom-in rule is applied and the zoom stays reachable |
| CanvasZoom.VisualizationCanvas.ZoomOut | components/charts/visualization-canvas.tsx:19 | the zoom-out rule is applied and the zoom stays reachable |
| CanvasZoom.VisualizationCanvas.ContentScale | components/charts/visualization-canvas.tsx:49 | the content scale lies in [0.5, 2] |
| LearningExperience.EmotionOf | components/learning/enhanced-learning-experience.tsx:35-50 | achieving gives happy, focused gives calm, struggling gives encouraging and exploring gives default; sad never occurs |
| LearningExperience.EmotionDeterminesMood | components/learning/enhanced-learning-experience.tsx:35-50 | the mood-to-emotion map is one-to-one |
| LearningExperience.NewProgress | components/learning/enhanced-learning-experience.tsx:59 | `min(100, progress + increment)`: never above 100 |
| LearningExperience.MoodAfter | components/learning/enhanced-learning-experience.tsx:62-70 | struggling exactly for a non-positive increment; otherwise achieving exactly from 90 up and focused below; never exploring |
| LearningExperience.DifficultyColor | components/learning/enhanced-learning-experience.tsx:77-88 | green, blue and purple exactly for beginner, intermediate and advanced |
| LearningExperience.MoodBadge | components/learning/enhanced-learning-experience.tsx:91-104 | 专注学习中, 需要帮助, 表现优秀 and 探索新知 exactly for focused, struggling, achieving and exploring; orange exactly for struggling, the other moods reusing the difficulty palette |
| LearningExperience.ProgressAfter | components/learning/enhanced-learning-experience.tsx:57-74 | after at least one update the progress is at most 100 |
| LearningExperience.HelpPressesHaveNoFloor | components/learning/enhanced-learning-experience.tsx:245 | n presses of −5 lower the progress by exactly 5n, with no floor |
| LearningExperience.InitialProgressGoesNegative | components/learning/enhanced-learning-experience.tsx:59 | fourteen −5 presses from the initial 65 reach −5 |
| LearningExperience.LearningExperience.constructor | components/learning/enhanced-learning-experience.tsx:22-54 | progress 65, focused, and the mount effect sets the emotion to calm |
| LearningExperience.LearningExperience.UpdateProgress | components/learning/enhanced-learning-experience.tsx:57-74 | progress and mood follow the rules above; title, difficulty and achievements are kept; `onEmotionChange` fires exactly when the mood changed, with the new emotion |
| LearningExperience.LearningExperience.Explore | components/learning/enhanced-learning-experience.tsx:262 | mood becomes exploring with the default emotion and untouched progress; the callback fires only if the mood was not already exploring |
| LearningExperience.LearningExperience.DifficultyBadge | components/learning/enhanced-learning-experience.tsx:138 | the badge colour is the session difficulty's: green, blue or purple |
| LearningExperience.FirstExercise | components/learning/enhanced-learning-experience.tsx:228 | the first +10 reaches 75, stays focused and calm, and reports no emotion change |
| PptGenerator.Overall | components/reports/ppt-generator.tsx:114 | the overall progress is never negative |
| PptGenerator.Schedule | components/reports/ppt-generator.tsx:112-114 | a run of n steps publishes 11 n overall values |
| PptGenerator.ScheduleAt | components/reports/ppt-generator.tsx:114 | value 11 i + t of the run is `(i * 100 + 10 t) / n` |
| PptGenerator.ScheduleNondecreasing | components/reports/ppt-generator.tsx:114 | the published overall progress never decreases |
| PptGenerator.ScheduleEndsAtHundred | components/reports/ppt-generator.tsx:114 | the last published value is exactly 100 |
| PptGenerator.AllStepsDone | components/reports/ppt-generator.tsx:114 | n completed steps make exactly 100 |
| PptGenerator.CompletedUpTo | components/reports/ppt-generator.tsx:119 | completing steps keeps the number of steps |
| PptGenerator.StepSnapshots | components/reports/ppt-generator.tsx:105-120 | one pass publishes 13 lists: step i processing first, then at progress 0 to 100, and the list with the first i + 1 steps completed last; step i is the running one throughout |
| PptGenerator.RunSnapshots | components/reports/ppt-generator.tsx:103-121 | m passes publish 13 m lists |
| PptGenerator.RunSnapshotsRunning | components/reports/ppt-generator.tsx:103-121 | every list of the first m passes shows a step below m running, and the running step never goes back |
| PptGenerator.RunNeverErrs | components/reports/ppt-generator.tsx:105-119 | no published step list holds an error status |
| PptGenerator.RunFinishes | components/reports/ppt-generator.tsx:103-121 | after a run every step is completed at 100 with its id and name |
| PptGenerator.RunEndsAtRest | components/reports/ppt-generator.tsx:103-121 | a run takes resting steps to resting steps, so runs can repeat |
| PptGenerator.PptGenerator.constructor | components/reports/ppt-generator.tsx:42-55 | five pending steps at 0, idle, no slides, empty fields |
| PptGenerator.PptGenerator.EditInputs | components/reports/ppt-generator.tsx:173-202 | the two text fields are set |
| PptGenerator.PptGenerator.ButtonEnabled | components/reports/ppt-generator.tsx:209 | enabled exactly while idle with both fields non-blank |
| PptGenerator.PptGenerator.RunStep | components/reports/ppt-generator.tsx:104-120 | step i goes processing, its progress runs 0 to 100 while its 11 overall values are published, and it ends completed; earlier steps stay completed and later ones untouched; the published lists are exactly those of the pass |
| PptGenerator.PptGenerator.RunAllSteps | components/reports/ppt-generator.tsx:103-121 | the loop completes every step in order, publishes the whole non-decreasing schedule and ends at 100; the published lists are exactly those of all passes, in order |
| PptGenerator.PptGenerator.Run | components/reports/ppt-generator.tsx:96-125 | a run starts at 0, completes every step, ends at 100 with the four sample slides, and is idle again |
| PptGenerator.PptGenerator.Generate | components/reports/ppt-generator.tsx:93-126 | a blank field changes nothing; otherwise a complete run |
| PptGenerator.PptGenerator.Start | components/reports/ppt-generator.tsx:96-98 | busy, progress 0, no slides |
| PptGenerator.PptGenerator.Finish | components/reports/ppt-generator.tsx:124-125 | the sample slides are shown and the generator is idle |
| ReportGenerator.MarkGenerating | components/reports/multimodal-report-generator.tsx:59-61 | only section i changes, to generating at 50 |
| ReportGenerator.MarkCompleted | components/reports/multimodal-report-generator.tsx:67-78 | only section i changes, to completed at 100 with content naming its own title |
| ReportGenerator.IterationSteps | components/reports/multimodal-report-generator.tsx:59-78 | one iteration takes i finished sections to i + 1, passing through section i generating |
| ReportGenerator.PhaseShape | components/reports/multimodal-report-generator.tsx:56-81 | in every published list at most section i is generating, those before it are completed and those after it pending |
| ReportGenerator.PreviewReady | components/reports/multimodal-report-generator.tsx:221 | the preview needs at least one section, and none pending or generating |
| ReportGenerator.PreviewOnlyAtTheEnd | components/reports/multimodal-report-generator.tsx:221 | the preview is ready exactly at the end of the run, never earlier |
| ReportGenerator.PhaseSnapshots | components/reports/multimodal-report-generator.tsx:57-80 | iteration i sets two lists: the first is the `MarkGenerating` update of the list with i sections finished, the second the `MarkCompleted` update of the first |
| ReportGenerator.SectionLog | components/reports/multimodal-report-generator.tsx:53-81 | the section lists of the first m iterations: 2 m + 1 of them, starting with the new sections and ending with the first m finished |
| ReportGenerator.SectionLogStep | components/reports/multimodal-report-generator.tsx:56-81 | one more iteration appends its two lists to the log |
| ReportGenerator.SectionLogInPhase | components/reports/multimodal-report-generator.tsx:56-81 | every list of the log has the phase shape of the section it is tagged with, and no tag passes the iteration count |
| ReportGenerator.SectionLogInOrder | components/reports/multimodal-report-generator.tsx:56-81 | the tags never go back: the sections are worked on one at a time, in order |
| ReportGenerator.PhaseSnapshotsInPhase | components/reports/multimodal-report-generator.tsx:57-80 | both lists of an iteration have the phase shape |
| ReportGenerator.InPhaseConcat | components/reports/multimodal-report-generator.tsx:56-81 | the phase shape of every list carries over to the concatenation of two logs |
| ReportGenerator.Milestone | components/reports/multimodal-report-generator.tsx:63 | the overall progress is never negative |
| ReportGenerator.Milestones | components/reports/multimodal-report-generator.tsx:63-80 | a run over n sections publishes 2 n + 1 values |
| ReportGenerator.MilestonesStep | components/reports/multimodal-report-generator.tsx:63-80 | each iteration extends the published prefix by its two milestones |
| ReportGenerator.HalfwayMilestone | components/reports/multimodal-report-generator.tsx:63 | `((i + 0.5) / n) * 100` is milestone 2 i + 1 |
| ReportGenerator.FullMilestone | components/reports/multimodal-report-generator.tsx:80 | `((i + 1) / n) * 100` is milestone 2 i + 2 |
| ReportGenerator.MilestonesIncrease | components/reports/multimodal-report-generator.tsx:63-80 | the overall progress strictly increases |
| ReportGenerator.MilestonesEnd | components/reports/multimodal-report-generator.tsx:80 | and it ends at exactly 100 |
| ReportGenerator.StatusVariant | components/reports/multimodal-report-generator.tsx:103-114 | the secondary badge exactly for pending sections |
| ReportGenerator.ReportGenerator.constructor | components/reports/multimodal-report-generator.tsx:24-29 | empty title and description, idle, progress 0, no sections |
| ReportGenerator.ReportGenerator.EditTitle | components/reports/multimodal-report-generator.tsx:145 | the title field is set |
| ReportGenerator.ReportGenerator.ButtonEnabled | components/reports/multimodal-report-generator.tsx:178 | enabled exactly for a non-blank title while idle; the description plays no part |
| ReportGenerator.ReportGenerator.RunSection | components/reports/multimodal-report-generator.tsx:57-80 | one iteration publishes section i generating at milestone 2 i + 1, then i + 1 sections finished at milestone 2 i + 2 |
| ReportGenerator.ReportGenerator.RunSections | components/reports/multimodal-report-generator.tsx:56-81 | the loop finishes every section and publishes exactly the increasing milestones; the section lists it sets are exactly `SectionLog`: the initial list, then for each section in turn that section generating and then completed |
| ReportGenerator.ReportGenerator.GenerateReport | components/reports/multimodal-report-generator.tsx:38-84 | a blank title changes nothing; otherwise all five sections end completed, the progress values are the milestones ending at 100, the section lists set are exactly `SectionLog` of the five sections, and the generator is idle |
| ReportGenerator.ReportGenerator.Produce | components/reports/multimodal-report-generator.tsx:41-83 | starting from the five pending sections at progress 0, every section ends completed, the published progress values are exactly the milestones ending at 100, the section lists set are exactly `SectionLog`, and the generator is idle |
| ReasoningEngine.BuiltSteps | components/learning/reasoning-engine.tsx:32-61 | four steps, all pending |
| ReasoningEngine.FirstStepQuotesQuery | components/learning/reasoning-engine.tsx:36 | the first step's content quotes the query |
| ReasoningEngine.SetStatus | components/learning/reasoning-engine.tsx:67 | only step i changes, and only its status |
| ReasoningEngine.IterationSnapshots | components/learning/reasoning-engine.tsx:64-76 | iteration 0 publishes two empty lists and then the built list with step 0 completed; a later iteration i publishes step i processing, then the first i + 1 steps completed |
| ReasoningEngine.RunLog | components/learning/reasoning-engine.tsx:64-76 | m iterations publish 2 m + 1 lists (none for m = 0), each from an iteration below m and of an allowed shape |
| ReasoningEngine.RunLogInOrder | components/learning/reasoning-engine.tsx:64-76 | the published lists come from non-decreasing iterations: no list of iteration i is published after one of iteration j > i |
| ReasoningEngine.UpdatesOnEmptyListVanish | components/learning/reasoning-engine.tsx:67-71 | the first iteration's updates map over an empty list and leave it empty |
| ReasoningEngine.PublishedShape | components/learning/reasoning-engine.tsx:64-76 | every published list keeps the built titles, contents and confidences, never shows step 0 processing, and shows at most one step processing |
| ReasoningEngine.ResultText | components/learning/reasoning-engine.tsx:80-90 | the result starts with the fixed heading |
| ReasoningEngine.ResultQuotesQuery | components/learning/reasoning-engine.tsx:80 | the result quotes the query |
| ReasoningEngine.RunCompletesEveryStep | components/learning/reasoning-engine.tsx:32-76 | after a run all four steps are completed, with what was built for them |
| ReasoningEngine.ReasoningEngine.constructor | components/learning/reasoning-engine.tsx:19-22 | empty query, idle, no steps, no result |
| ReasoningEngine.ReasoningEngine.EditQuery | components/learning/reasoning-engine.tsx:120 | the query field is set |
| ReasoningEngine.ReasoningEngine.ButtonEnabled | components/learning/reasoning-engine.tsx:123 | enabled exactly while idle with a non-blank query |
| ReasoningEngine.ReasoningEngine.Iterate | components/learning/reasoning-engine.tsx:64-76 | iteration i ends with the first i + 1 steps completed, and publishes exactly the lists of that iteration |
| ReasoningEngine.ReasoningEngine.RunSteps | components/learning/reasoning-engine.tsx:64-76 | the loop completes every step and publishes exactly the lists of all four iterations, in order |
| ReasoningEngine.ReasoningEngine.Run | components/learning/reasoning-engine.tsx:27-92 | the steps are built from the query and all completed, with the whole iteration log published; then the result is set and processing ends |
| ReasoningEngine.ReasoningEngine.Reason | components/learning/reasoning-engine.tsx:24-93 | a blank query changes nothing; otherwise a complete run |
| Insights.RangeLabel | components/ai/intelligent-insights.tsx:57 | 7天 exactly for "7d", 30天 exactly for "30d", 90天 for anything else |
| Insights.ChartLabel | components/ai/intelligent-insights.tsx:87 | 柱状图 exactly for "bar", 折线图 exactly for "line", 饼图 for anything else |
| Insights.GenerateInsights | components/ai/intelligent-insights.tsx:51-96 | four insights (trend, anomaly, prediction, recommendation) with confidences in [0, 100]; the recommendation echoes the selected chart |
| Insights.StageLabel | components/ai/intelligent-insights.tsx:169-175 | each stage label holds exactly on its threshold band |
| Insights.ConfidenceSum | components/ai/intelligent-insights.tsx:248 | with every confidence a percentage, the sum lies between 0 and 100 per insight |
| Insights.Summarize | components/ai/intelligent-insights.tsx:237-253 | the total is the list length; the high-impact and actionable figures count the insights passing `impact === "high"` and `actionable`; the mean `m` is `Math.round(sum / total)`, i.e. `2 total m <= 2 sum + total < 2 total m + 2 total`, and lies in [0, 100] |
| Insights.SummaryCountsAdd | components/ai/intelligent-insights.tsx:237-253 | summarising two lists together adds their totals, high-impact counts and actionable counts |
| Insights.GeneratedSummary | components/ai/intelligent-insights.tsx:237-253 | the generated insights summarise as 4, 2, 88 (87.5 rounded up) and 3 |
| Insights.Tick | components/ai/intelligent-insights.tsx:37-45 | below 100 a tick adds 10; at 100 or more it pins the progress at 100 and stops |
| Insights.TickerTimeline | components/ai/intelligent-insights.tsx:36-46 | after a restart, tick n gives 10 n up to n = 10, and the eleventh tick ends the analysis |
| Insights.IntelligentInsights.constructor | components/ai/intelligent-insights.tsx:32-34 | mounting starts the analysis at 0 with no insights |
| Insights.IntelligentInsights.Restart | components/ai/intelligent-insights.tsx:32-49 | a new chart or range restarts the analysis at 0 and keeps the old insights |
| Insights.IntelligentInsights.TickOnce | components/ai/intelligent-insights.tsx:37-45 | the tick rule applies; the tick that sees 100 generates the insights for the current chart and range, and the summary then shows |
| Insights.IntelligentInsights.SummaryShown | components/ai/intelligent-insights.tsx:226 | the summary shows only when the analysis is over and there are insights |
| Insights.IntelligentInsights.Stage | components/ai/intelligent-insights.tsx:169-175 | the final stage label shows exactly from 90 up |
| LearningPath.Percentage | components/learning/learning-path-generator.tsx:154 | `Math.round(completed / total * 100)` from the stored counters; it lies in [0, 100] when the counters are consistent |
| LearningPath.CompletedCount | components/learning/learning-path-generator.tsx:172 | the number of completed nodes is at most the number listed |
| LearningPath.MockPercentage | components/learning/learning-path-generator.tsx:32-76 | the mock path shows 33 % (2 of 6 stored), whereas its three listed nodes, two of them completed, would give 67 % |
| LearningPath.StateOf | components/learning/learning-path-generator.tsx:172-181 | completed first, then started (progress above 0), then not started; exactly one holds |
| LearningPath.CardClass | components/learning/learning-path-generator.tsx:171-177 | the card colour follows the same precedence, each colour exactly on its case |
| LearningPath.CircleClass | components/learning/learning-path-generator.tsx:180-182 | the badge colour follows the same precedence |
| LearningPath.ButtonLabel | components/learning/learning-path-generator.tsx:230 | the label follows the same precedence: 已完成, 继续学习, 开始学习 |
| LearningPath.LaddersAgree | components/learning/learning-path-generator.tsx:171-230 | the card, the badge and the label always agree |
| LearningPath.ShowsProgressBar | components/learning/learning-path-generator.tsx:211 | the bar shows exactly for progress strictly between 0 and 100 |
| LearningPath.FlagAndProgressIndependent | components/learning/learning-path-generator.tsx:211-230 | an uncompleted node at 100 reads "continue" with no bar; a completed node below 100 still shows its bar |
| LearningPath.Connectors | components/learning/learning-path-generator.tsx:166 | a connector is drawn under every node except the last |
| LearningPath.ConnectorCount | components/learning/learning-path-generator.tsx:166 | a non-empty path has one connector fewer than nodes |
| LearningPath.LearningPathGenerator.constructor | components/learning/learning-path-generator.tsx:79-81 | no path, idle, the two initial skills |
| LearningPath.LearningPathGenerator.ButtonEnabled | components/learning/learning-path-generator.tsx:127 | disabled exactly while generating |
| LearningPath.LearningPathGenerator.Generate | components/learning/learning-path-generator.tsx:83-88 | busy during the wait, then the first mock path is selected and the generator is idle |
| LearningPath.LearningPathGenerator.ShownPercentage | components/learning/learning-path-generator.tsx:153-155 | nothing before a path is chosen; 33 for the mock path |
| InsightPanel.Toggle | components/ui/ai-insight-panel.tsx:122 | a click clears the selection exactly when that insight is active, and otherwise selects it |
| InsightPanel.ToggleTwice | components/ui/ai-insight-panel.tsx:122 | clicking twice restores the selection exactly when nothing or that insight was selected; otherwise it ends with nothing selected |
| InsightPanel.Highlighted | components/ui/ai-insight-panel.tsx:118-120 | an item is highlighted exactly when it is the active one |
| InsightPanel.AtMostOneHighlighted | components/ui/ai-insight-panel.tsx:113-122 | with distinct ids at most one item is highlighted |
| InsightPanel.ImpactLabel | components/ui/ai-insight-panel.tsx:152 | each label exactly for its impact |
| InsightPanel.ImpactColor | components/ui/ai-insight-panel.tsx:64-73 | red, yellow and green exactly for high, medium and low |
| InsightPanel.AIInsightPanel.constructor | components/ui/ai-insight-panel.tsx:26-36 | nothing selected; when mounted loading, the animation runs with its timer pending |
| InsightPanel.AIInsightPanel.SpinnerShown | components/ui/ai-insight-panel.tsx:92 | the spinner shows exactly while loading or animating |
| InsightPanel.AIInsightPanel.ListShown | components/ui/ai-insight-panel.tsx:104 | the list shows exactly when the spinner does not |
| InsightPanel.AIInsightPanel.PlaceholderShown | components/ui/ai-insight-panel.tsx:106-111 | the placeholder shows exactly when the list would show and there are no insights |
| InsightPanel.AIInsightPanel.SetLoading | components/ui/ai-insight-panel.tsx:30-36 | a change to loading starts the animation and its timer; a change back clears the timer but leaves the animation running |
| InsightPanel.AIInsightPanel.TimerFires | components/ui/ai-insight-panel.tsx:33 | the timer ends the animation, and the list shows unless loading |
| InsightPanel.AIInsightPanel.Refresh | components/ui/ai-insight-panel.tsx:83 | refresh starts the animation and hides the list |
| InsightPanel.AIInsightPanel.Click | components/ui/ai-insight-panel.tsx:122 | the selection is toggled and stays one of the listed insights |
| InsightPanel.IdleRefresh | components/ui/ai-insight-panel.tsx:83-104 | refreshing an idle panel hides the list with no timer pending to show it again |
| InsightPanel.ShortLoading | components/ui/ai-insight-panel.tsx:30-36 | loading that ends before its timer fires leaves the list hidden, nothing loading and no timer pending |
| Sidebar.ProgressColor | components/navigation/sidebar-navigation.tsx:61-66 | completed is green and processing yellow, whatever the progress; any other status is blue exactly from 80 and gray below |
| Sidebar.ProgressMattersOnlyForOtherStatuses | components/navigation/sidebar-navigation.tsx:61-66 | two progress values give different colours only for another status and on opposite sides of 80 |
| Sidebar.ItemColors | components/navigation/sidebar-navigation.tsx:18-66 | the five bars are green, blue, green, yellow and blue |
| Sidebar.Highlighted | components/navigation/sidebar-navigation.tsx:95 | an item is highlighted exactly when its href equals the path |
| Sidebar.HighlightedItems | components/navigation/sidebar-navigation.tsx:15-95 | at most one item is highlighted; the default "/" highlights home alone; an unknown path highlights none |
| Sidebar.SidebarNavigation.constructor | components/navigation/sidebar-navigation.tsx:15-16 | the path defaults to "/", and nothing is hovered |
| Sidebar.SidebarNavigation.IsActive | components/navigation/sidebar-navigation.tsx:95 | item k is active exactly when the path equals its href, and then no other item is |
| Sidebar.SidebarNavigation.Enter | components/navigation/sidebar-navigation.tsx:97 | the item becomes hovered and shows the chevron |
| Sidebar.SidebarNavigation.Leave | components/navigation/sidebar-navigation.tsx:98 | the hover is cleared and no chevron shows |
| Sidebar.SidebarNavigation.ChevronShown | components/navigation/sidebar-navigation.tsx:119 | the chevron shows exactly on the hovered item, and the ids are distinct |

## Left out

- Canvas drawing calls, `requestAnimationFrame`/`cancelAnimationFrame` scheduling, canvas resizing and `getBoundingClientRect`. A frame is a list of abstract draw commands. The canvas size and the click position relative to the canvas are parameters.
- `Math.cos` and `Math.sin` are a parameter (`Projection.Trig`), constrained only by their values at 0 and by cos² + sin² = 1.
- KnowledgeGraph.Hit: compares squared distances with the squared radius instead of calling `Math.sqrt`. The two agree because a square root is never negative.
- Randomness is a parameter: the alert draws and id (`Alerts.Draws`), the interval's 0.7 chance, the ppt step delays and the floating-prompt positions.
- The clock is a parameter: alert timestamps.
- Timers and `await` delays become sequential steps. Real concurrency is not modelled: overlapping runs, a handler firing during a delay, React's batching of state updates.
- Floating-point arithmetic is not modelled. Zoom steps, rotation and progress use exact `real`, and integer progress uses `int`. JavaScript's 0.1-step drift and binary64 rounding are out.
- CsvProcessor.TypeField: a number cell keeps the literal text `parseFloat` consumed (sign, digits, fraction, exponent or `Infinity`), not its binary64 value. The summary only depends on whether a cell is a number.
- CsvProcessor.Assign: a row is a map from header to cell. JavaScript object-key quirks (`__proto__`, numeric-key ordering) are not modelled.
- The sample table's numbers are kept as their literal text.
- JsText.Lower: lower-cases ASCII letters only. Unicode case mapping in `toLowerCase` is not modelled.
- LearningPath.Percentage: returns None for zero announced nodes. JavaScript shows `NaN%` when the completed count is also 0, `Infinity%` when it is positive and `-Infinity%` when it is negative.
- The learning path's `getDifficultyColor` badge colours are not modelled. They are styling only.
- The ppt template selection has no effect on the generated slides, so it is not modelled.
- The floating prompts in intent recognition are not modelled. They are an animation of positions drawn at random.
- The report type selector and the section icons are presentation only.
- The insight panel's insights are fixed at construction. The `insights` prop changing later is not modelled.
- LearningExperience.LearningExperience.constructor: the `onEmotionChange` call the mount effect makes is not returned.
- LearningExperience.LearningExperience.UpdateProgress and LearningExperience.LearningExperience.Explore: the notification "exactly when the mood changes" assumes the parent passes a stable `onEmotionChange` (components/learning/enhanced-learning-experience.tsx:54 lists that prop as an effect dependency, so a new callback on each render re-fires the notification without a mood change); callback identity is not modelled.
- Animations, icons and JSX styling are not modelled beyond the colour and label ladders listed above.
- Web Audio is not modelled: the critical alert "sound" is reported as a boolean.
