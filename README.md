# DSGTools bookkeeping core, modelled in Dafny

DSGTools is a QGIS plugin for producing military-cartography data. Most of it
is made of Qt dialogs and calls into QGIS. This project models the pieces of
plain logic inside those dialogs and proves properties of them:

- `db_converter.dfy`: the datasource converter's bookkeeping.
  - It counts conversion steps and lists the unique input and output datasources.
  - It parses `driver:rest` datasource strings and PostGIS `USER@HOST:PORT.DATABASE` connection strings.
  - It looks up the driver and the spatial-filter behaviour code.
  - It creates each requested output dataset once, recording it in the `success` dict or the `fail` dict.
- `db_creator.dfy`: the database creator.
  - It builds names joined with `_`, including auto-incremented name lists.
  - It runs the batch loop, where the first successful creation becomes the template of every later call.
  - It collects results and accumulated error messages in two dicts.
  - It creates databases from a list of map-sheet indices (MI), with an optional frame.
- `inspect_features.dfy`: the feature-inspection toolbar.
  - Wrap-around stepping through a layer's sorted feature ids.
  - The per-layer stored index (`allLayers`), the spin box's range and suffix.
  - The rule that enables the navigation controls.
- `ordered_structure.dfy`: the ordered rule list, a one-column Qt table.
  - Adding a row, removing the selected rows, moving selections up and down through Qt's insert/remove sequence.
  - Validation, the numbered error report and the numbered parameter dict.
- `inom_dialog.dfy`: the dialog that builds a map-sheet index (INOM) from combo-box selections, and enables the subdivision combo boxes.
- `distance_tooltip.dfy`: the tooltip that shows the measured length while a segment is being drawn.

Shared modules:

- `text.dfy`: Python's `str.split` on one character, `join`, and `str` of a natural number.
- `sequences.dfy`: order-keeping de-duplication.
- `sorting.dfy`: in-place `list.sort`, ascending or reversed, on integers.
- `values.dfy`: Python values: `None`-or-value, dict values, driver enums, and what a creation returns or raises.

Each Python object whose fields change is a Dafny class whose methods change those fields. Each Qt widget the code reads or writes is a field:

- the table rows;
- the combo boxes and their enabled flags;
- the spin box's range and suffix;
- the enabled flags of the buttons.

Each loop in the source is a `while` or `for` loop, proved against a function that specifies it:

- a step sequence (`CreateAll`, `Run`);
- a pass over the selected rows (`UpPass`, `DownPass`, `RemoveAll`);
- an INOM (`Inom`);
- a transition system (`Move`, `Run` of the tooltip).

Properties are then proved about these functions. Exceptions the source raises and catches are modelled as values:

- a Python `KeyError`, `ValueError` or `NameError` is the `Err` of a `Result`, or a `Raised(args)` creation;
- an `AttributeError` on a missing widget or layer is its own outcome.

Four things are given to the model as parameters. Each of them may succeed or fail on every call:

- QGIS dataset creation (`createDataset`);
- database creation (`createDb`, which also gets the call's position in the run);
- frame creation;
- driver connections.

Qt's own behaviour is modelled explicitly:

- `insertRow(r)` does nothing unless `0 <= r <= rowCount`;
- `removeRow(r)` and `setCellWidget(r, ...)` do nothing unless `0 <= r < rowCount`;
- `cellWidget` outside the table is `None`;
- `itemText` of an index outside a combo box is `""`.

## Model

| member | source | states |
|---|---|---|
| DbConverter.GetConversionCount | core/DbTools/dbConverter.py:58-69 | the count is the sum of the lengths of every entry's step list, i.e. the number of steps of the map; 0 for an empty map |
| DbConverter.GetAllUniqueInputDb | core/DbTools/dbConverter.py:71-84 | the input datasources in map order with repeats dropped; for a map with distinct keys (every Python dict) exactly its keys in iteration order |
| DbConverter.UniqueInputsOfWellFormed | core/DbTools/dbConverter.py:80-84 | for a map with distinct keys, dropping repeats from its keys leaves them unchanged |
| DbConverter.GetAllUniqueOutputDb | core/DbTools/dbConverter.py:86-101 | the `outDs` of all steps in first-occurrence order, without duplicates, no more of them than steps, and containing the output of every step of every entry |
| DbConverter.AddUniqueOutputs | core/DbTools/dbConverter.py:97-100 | appending the outputs of one entry's steps not yet listed keeps the list equal to the first-occurrence, duplicate-free outputs of all steps so far |
| DbConverter.UniqueOutputsCoverSteps | core/DbTools/dbConverter.py:86-101 | the output of every step of every entry is among the de-duplicated outputs |
| DbConverter.SplitPair | core/DbTools/dbConverter.py:176-178 | unpacking `s.split(c)` into two names succeeds exactly when `c` occurs once, and then the two parts rejoin to `s`; otherwise it is the `ValueError` for `Count + 1` pieces |
| DbConverter.ParsePgConnection | core/DbTools/dbConverter.py:169-178 | a parsed connection string is reassembled as `user@host:port.db` and no field holds the separator it was cut at; every other string is an unpacking error |
| DbConverter.PgConnectionRoundTrip | core/DbTools/dbConverter.py:169-178 | parsing the string of any connection whose fields hold no separators gives that connection back |
| DbConverter.GetPgParameters | core/DbTools/dbConverter.py:169-178 | succeeds exactly when the connection string parses; then `username`, `host`, `port` and `db` are added with the parsed values and every other key keeps its value |
| DbConverter.DriverNamed | core/DbTools/dbConverter.py:186-199 | exactly `pg`, `sqlite`, `shp` and `gpkg` name a driver: PostGIS, SpatiaLite, Shapefile and Geopackage respectively |
| DbConverter.ConnectionPart | core/DbTools/dbConverter.py:193-194 | the driver prefix, `:` and the connection part rebuild the datasource when it holds a `:`; the part is empty otherwise |
| DbConverter.ParseDatasourcePath | core/DbTools/dbConverter.py:180-200 | an unknown prefix is a `KeyError` naming it; a result always has the driver; a non-`pg` result is exactly the driver and `path` = everything after the first `:`; a `pg` datasource parses exactly when its connection string does |
| DbConverter.FileDatasourceRoundTrip | core/DbTools/dbConverter.py:180-200 | for `sqlite`, `shp` and `gpkg`, driver + `:` + path is the datasource |
| DbConverter.PgDatasourceRoundTrip | core/DbTools/dbConverter.py:180-200 | `pg:` followed by a connection string yields exactly its four fields and the PostGIS driver |
| DbConverter.ConnectToDb | core/DbTools/dbConverter.py:249-262 | a missing `driver` key is a `KeyError`; a driver outside the four supported is `None`; a supported driver gets exactly its connector's result for the parameters |
| DbConverter.ParsedDatasourceConnects | core/DbTools/dbConverter.py:180-262 | connecting to a parsed datasource hands its parameters to the connector of the driver its prefix names |
| DbConverter.BehaviourCode | core/DbTools/dbConverter.py:272-276 | a code exists exactly for `Intersects`, `Clip` and `Buffer`, which get 1, 2 and 3 respectively |
| DbConverter.BehaviourCodeInjective | core/DbTools/dbConverter.py:272-276 | different filter names never share a code |
| DbConverter.GetSpatialFilterBehaviour | core/DbTools/dbConverter.py:264-276 | a `KeyError` exactly when `filter_type` is missing; otherwise the behaviour code of the filter type, `None` for any other name |
| DbConverter.SpatialFilterBehaviourInjective | core/DbTools/dbConverter.py:264-276 | two filters with the same known behaviour code have the same `filter_type` |
| DbConverter.LastIndexOf | core/DbTools/dbConverter.py:163 | the position of the last occurrence of a character, -1 when none (used by the path functions) |
| DbConverter.SplitExtRoot | core/DbTools/dbConverter.py:163 | `os.path.splitext(p)[0]` for a POSIX path: a prefix of `p` |
| DbConverter.SplitExtRootCut | core/DbTools/dbConverter.py:163 | when `splitext` cuts something off, the cut starts at a `.`, holds no other `.` and no `/`, and some character of the last component before it is not a `.` |
| DbConverter.SplitExtRootKeeps | core/DbTools/dbConverter.py:163 | `splitext` cuts nothing off exactly when every `.` of the last component has only dots before it there |
| DbConverter.BasenameIsLastComponent | core/DbTools/dbConverter.py:163 | `os.path.basename(p)` is a suffix of `p` without `/` that is preceded by a `/` unless it is the whole path, i.e. the text after the last `/` |
| DbConverter.EdgvTemplate | core/DbTools/dbConverter.py:155-161 | a version and template exist exactly for the four EDGV labels, with the (version, template name) pair the source lists for each |
| DbConverter.FillCreationParameters | core/DbTools/dbConverter.py:153-163 | the keys are those of the input plus `srid`, `isTemplateEdgv`, `version`, `templateName`, and `db` when there is a `path`; these carry the given values, `isTemplateEdgv` is true, and `db` is the file name of `path` without its extension |
| DbConverter.FillCreationParametersKeepsOthers | core/DbTools/dbConverter.py:153-163 | every other key, and `db` when there is no `path`, keeps its value |
| DbConverter.CreationParameters | core/DbTools/dbConverter.py:151-163 | a datasource error propagates; an unknown EDGV label is a `KeyError` naming it; otherwise the result is the parsed datasource filled with the last `:` piece of the CRS as `srid` and the label's EDGV version and template, and it holds every key creation needs |
| DbConverter.AttemptOutcomes | core/DbTools/dbConverter.py:150-166 | an attempt succeeds exactly when the parameters build and the creation returns a dataset; an unknown EDGV label and an unknown driver fail with that label or prefix as the message, not propagated |
| DbConverter.Record | core/DbTools/dbConverter.py:164-166 | recording puts the output in `success` or in `fail` by the outcome and leaves the other dict alone |
| DbConverter.CreateAllSnoc | core/DbTools/dbConverter.py:146-149 | one more step attempts its output exactly when it asks for creation and the output is in neither dict |
| DbConverter.CreateAllAttemptsEachOnce | core/DbTools/dbConverter.py:145-167 | the outputs attempted are the requested ones, each once, in order of first request; `success` and `fail` are disjoint and hold exactly those |
| DbConverter.FirstRequestDecides | core/DbTools/dbConverter.py:148-166 | the outcome recorded for an output is that of the first step requesting it |
| DbConverter.NotYetRequested | core/DbTools/dbConverter.py:148-149 | an output no step requested is in neither dict |
| DbConverter.CheckAndCreateDatabases | core/DbTools/dbConverter.py:135-167 | the two dicts are those of going through every step of every entry in map order |
| DbCreator.BuildDatabaseName | Factories/DbCreatorFactory/dbCreator.py:52-59 | prefix, base and suffix joined with `_`, a falsy prefix or suffix left out; the base itself when both are falsy |
| DbCreator.JoinAttrNames | Factories/DbCreatorFactory/dbCreator.py:53-59 | `'_'.join` of the name list is that concatenation |
| DbCreator.BuildDatabaseNameInjective | Factories/DbCreatorFactory/dbCreator.py:52-59 | with the same prefix and suffix, different bases give different names |
| DbCreator.BuildAutoIncrementingDbNameList | Factories/DbCreatorFactory/dbCreator.py:61-66 | exactly `numberOfDatabases` names (none for a negative count), the i-th built from the base followed by `str(i+1)` |
| DbCreator.AutoIncrementingNamesDistinct | Factories/DbCreatorFactory/dbCreator.py:61-66 | the auto-incremented names are all different |
| DbCreator.SheetDepthIsPartCount | Factories/DbCreatorFactory/dbCreator.py:106 | the depth of an MI is the number of its `-`-separated parts |
| DbCreator.FrameScale | Factories/DbCreatorFactory/dbCreator.py:42 | the scale table is defined exactly for 1..7 parts and gives that entry of `scaleMIDict`; other counts are a `KeyError` naming the count |
| DbCreator.FrameScaleInjective | Factories/DbCreatorFactory/dbCreator.py:42 | different part counts have different scales |
| DbCreator.CallParams | Factories/DbCreatorFactory/dbCreator.py:74-79 | a call gets the caller's dict with `templateDb` set when a template exists, and the dict untouched otherwise |
| DbCreator.AddError | Factories/DbCreatorFactory/dbCreator.py:110-113 | a new name gets the message, a known one gets `'\n'` and the message appended; other names keep theirs |
| DbCreator.RunSnoc | Factories/DbCreatorFactory/dbCreator.py:72-86 | running one more name is one more pass of the loop body |
| DbCreator.StepKeys | Factories/DbCreatorFactory/dbCreator.py:80-85 | a pass adds at most its own key to the results and its own name to the errors, keeps every earlier key, and adds one of the two |
| DbCreator.StepOthers | Factories/DbCreatorFactory/dbCreator.py:80-85 | a pass leaves the entries of other keys and names as they were |
| DbCreator.RunKeys | Factories/DbCreatorFactory/dbCreator.py:72-86 | every result key is some pass's key, every error key some pass's name, and every pass ends in one of the two dicts |
| DbCreator.DistinctJobOutcome | Factories/DbCreatorFactory/dbCreator.py:72-86 | for a name used once, it is among the results, holding the created database, exactly when its pass did not fail; otherwise its error is that pass's message |
| DbCreator.NotYetKeyed | Factories/DbCreatorFactory/dbCreator.py:80-85 | no pass for a key or name means no entry for it |
| DbCreator.TemplateIsFirstSuccess | Factories/DbCreatorFactory/dbCreator.py:74-80 | the template is set exactly when an earlier creation succeeded, it is the first such name, and until then the caller's dict is untouched |
| DbCreator.StepTemplate | Factories/DbCreatorFactory/dbCreator.py:74-79 | a pass sets the template to its name when it creates and none is set, and passes the dict with the template in it |
| DbCreator.LaterCallsGetTemplate | Factories/DbCreatorFactory/dbCreator.py:77-79 | every call after the first success receives `templateDb` equal to its name |
| DbCreator.EarlyCallsGetCallersDict | Factories/DbCreatorFactory/dbCreator.py:74-75 | every call up to the first success receives the caller's dict unchanged |
| DbCreator.ErrorsAccumulate | Factories/DbCreatorFactory/dbCreator.py:81-85 | a name is among the errors exactly when one of its passes failed, and its entry is those passes' messages in order joined by `'\n'` |
| DbCreator.BatchJobs | Factories/DbCreatorFactory/dbCreator.py:72 | one pass per name, in order, keyed and named by it, with no frame |
| DbCreator.CallCreateDb | Factories/DbCreatorFactory/dbCreator.py:74-79 | the dict a call receives, the creation it makes with it, and the template afterwards |
| DbCreator.BatchCreateDb | Factories/DbCreatorFactory/dbCreator.py:68-86 | both dicts and the caller's dict afterwards are those of the run over the names |
| DbCreator.BatchCoverage | Factories/DbCreatorFactory/dbCreator.py:72-86 | exactly the names of the list are keys of the two dicts; for distinct names each is in exactly one |
| DbCreator.NoFailureForDistinct | Factories/DbCreatorFactory/dbCreator.py:81-85 | a name used once whose pass succeeded has no error messages |
| DbCreator.NoMessagesYet | Factories/DbCreatorFactory/dbCreator.py:81-85 | a name no pass used has no error messages |
| DbCreator.CreateDbWithAutoIncrementingName | Factories/DbCreatorFactory/dbCreator.py:88-90 | the batch run over the auto-incremented names, which are all distinct |
| DbCreator.MIJobs | Factories/DbCreatorFactory/dbCreator.py:96-108 | one pass per MI: its result keyed by the MI, its error by the built name, with the MI's frame when frames are asked for |
| DbCreator.CreateDbFromMIListAsWritten | Factories/DbCreatorFactory/dbCreator.py:92-114 | with the unbound `srid`, no database is created and every built name is among the errors |
| DbCreator.MIListAsWrittenFails | Factories/DbCreatorFactory/dbCreator.py:98-113 | under the unbound `srid` every pass ends in the errors, the template is never set and the caller's dict is untouched |
| DbCreator.MIListAsWrittenLosesSheet | Factories/DbCreatorFactory/dbCreator.py:100 | for `["SF-23"]` the code as written records only an error where a bound `srid` creates the database |
| DbCreator.CreateDbFromMIList | Factories/DbCreatorFactory/dbCreator.py:92-114 | with `srid` given, both dicts and the caller's dict are those of the run over the MI passes |
| DbCreator.PassFailure | Factories/DbCreatorFactory/dbCreator.py:98-113 | a pass fails with the creation's message when it raised, and otherwise as the frame step says |
| DbCreator.MIListKeys | Factories/DbCreatorFactory/dbCreator.py:96-113 | results are keyed by MI strings of the list, errors by built names of the list, and every MI lands in one of them |
| Inspect.TestIndexForward | gui/ProductionTools/Toolbars/InspectFeatures/inspectFeatures.py:136-143 | index + 1, or the minimum once that passes the maximum; an index in range stays in range |
| Inspect.TestIndexBackward | gui/ProductionTools/Toolbars/InspectFeatures/inspectFeatures.py:145-152 | index - 1, or the maximum once that falls below the minimum; an index in range stays in range |
| Inspect.StepsAreInverse | gui/ProductionTools/Toolbars/InspectFeatures/inspectFeatures.py:136-152 | in range, a step back undoes a step forward and the other way round |
| Inspect.ForwardStepsAhead | gui/ProductionTools/Toolbars/InspectFeatures/inspectFeatures.py:136-143 | k forward steps that do not reach past the maximum reach index + k |
| Inspect.ForwardStepsCompose | gui/ProductionTools/Toolbars/InspectFeatures/inspectFeatures.py:136-143 | a steps forward then b steps forward is a + b steps forward |
| Inspect.FullCycle | gui/ProductionTools/Toolbars/InspectFeatures/inspectFeatures.py:136-143 | as many forward steps as there are indices come back to the start |
| Inspect.NextIndexBounds | gui/ProductionTools/Toolbars/InspectFeatures/inspectFeatures.py:222-242 | the stored index is never negative, and it is within the list on a first visit or when the stored one was |
| Inspect.ShrunkListBackward | gui/ProductionTools/Toolbars/InspectFeatures/inspectFeatures.py:228-245 | an index stored for a longer list steps back past the end of a shorter one (5 to 4 for three ids), while forward wraps to 0 |
| Inspect.Suffix | gui/ProductionTools/Toolbars/InspectFeatures/inspectFeatures.py:241 | definition: the suffix ` (index+1/len)`; it starts with ` (` and ends with `)` |
| Inspect.SuffixInjective | gui/ProductionTools/Toolbars/InspectFeatures/inspectFeatures.py:241 | different indices show different suffixes |
| Inspect.InspectFeatures.constructor | gui/ProductionTools/Toolbars/InspectFeatures/inspectFeatures.py:53-60 | without an active layer the controls start disabled; the index map starts empty |
| Inspect.InspectFeatures.EnableTool | gui/ProductionTools/Toolbars/InspectFeatures/inspectFeatures.py:104-113 | back, next and the spin box are enabled exactly when the argument is a vector layer and the inspect button is checked; nothing else changes |
| Inspect.InspectFeatures.GetFeatIdList | gui/ProductionTools/Toolbars/InspectFeatures/inspectFeatures.py:193-206 | the layer's ids, or the filtered ones, in ascending order; `[]` for an invalid filter |
| Inspect.InspectFeatures.IterateFeature | gui/ProductionTools/Toolbars/InspectFeatures/inspectFeatures.py:208-253 | no layer is the `AttributeError` and a layer without ids the error message, both leaving the index map and spin box unchanged; otherwise the layer's index is stored (0 on the first visit, one step on later ones), the spin box's range is the first and last id and its suffix names the index, and the id at the index is shown or the index is past the end |
| Inspect.InspectFeatures.StoreNextIndex | gui/ProductionTools/Toolbars/InspectFeatures/inspectFeatures.py:222-242 | the stored index is 0 on the first visit and one step from the stored one afterwards, and only that entry changes |
| Inspect.InspectFeatures.OnNextInspectButtonClicked | gui/ProductionTools/Toolbars/InspectFeatures/inspectFeatures.py:128-134 | with the next button disabled nothing is shown and nothing of the widget's state changes; with it enabled the outcome and the new state are those of a forward `IterateFeature` |
| Inspect.InspectFeatures.OnBackInspectButtonClicked | gui/ProductionTools/Toolbars/InspectFeatures/inspectFeatures.py:155-161 | with the back button disabled nothing is shown and nothing of the widget's state changes; with it enabled the outcome and the new state are those of a backward `IterateFeature` |
| Sorting.SortInPlace | gui/ProductionTools/Toolbars/InspectFeatures/inspectFeatures.py:205 | the array ends sorted, ascending or reversed, and is a permutation of what it held |
| Sorting.Sorted | CustomWidgets/BasicInterfaceWidgets/orderedStructureWidget.py:73 | the sorted copy is ordered and a permutation of the input |
| OrderedStructure.MoveDownSwaps | CustomWidgets/BasicInterfaceWidgets/orderedStructureWidget.py:106-113 | for a row above the last, `moveDown` swaps it with the next row and keeps the row count |
| OrderedStructure.MoveDownLastRow | CustomWidgets/BasicInterfaceWidgets/orderedStructureWidget.py:106-113 | `moveDown` of the last row deletes it |
| OrderedStructure.MoveDownOutside | CustomWidgets/BasicInterfaceWidgets/orderedStructureWidget.py:106-113 | `moveDown` of a row outside the table changes nothing |
| OrderedStructure.MoveUpSwaps | CustomWidgets/BasicInterfaceWidgets/orderedStructureWidget.py:115-122 | for a row below the first, `moveUp` swaps it with the previous row and keeps the row count |
| OrderedStructure.MoveUpFirstRow | CustomWidgets/BasicInterfaceWidgets/orderedStructureWidget.py:115-122 | `moveUp` of row 0 deletes row 1 |
| OrderedStructure.UpPassPermutes | CustomWidgets/BasicInterfaceWidgets/orderedStructureWidget.py:89-90 | moving up rows that all lie below the first permutes the rows |
| OrderedStructure.DownPassPermutes | CustomWidgets/BasicInterfaceWidgets/orderedStructureWidget.py:102-103 | moving down rows that all lie above the last permutes the rows |
| OrderedStructure.MoveUpClickPermutes | CustomWidgets/BasicInterfaceWidgets/orderedStructureWidget.py:78-91 | for an ascending selection of rows, the move-up button permutes the rows |
| OrderedStructure.MoveDownClickPermutes | CustomWidgets/BasicInterfaceWidgets/orderedStructureWidget.py:95-104 | for an ascending selection of rows, the corrected move-down button permutes the rows |
| OrderedStructure.MoveUpOneRow | CustomWidgets/BasicInterfaceWidgets/orderedStructureWidget.py:78-91 | one selected row below the first changes place with the row above it |
| OrderedStructure.MoveDownOneRow | CustomWidgets/BasicInterfaceWidgets/orderedStructureWidget.py:95-104 | with the corrected guard, one selected row above the last changes place with the row below it, and the last row stays put |
| OrderedStructure.MoveDownClickAsWrittenLosesRow | CustomWidgets/BasicInterfaceWidgets/orderedStructureWidget.py:99-103 | as written, moving the last of three rows down deletes it |
| OrderedStructure.RemoveDescending | CustomWidgets/BasicInterfaceWidgets/orderedStructureWidget.py:73-75 | removing distinct rows from the highest down deletes exactly those rows and keeps the others in order |
| OrderedStructure.RemoveSortedSelection | CustomWidgets/BasicInterfaceWidgets/orderedStructureWidget.py:70-75 | the distinct selected rows, sorted from the highest down and removed one at a time, delete exactly the selected rows and keep the others in order |
| OrderedStructure.ReasonsAgreeWithValid | CustomWidgets/BasicInterfaceWidgets/orderedStructureWidget.py:124-135 | the report is produced exactly when every row has a widget, and is empty exactly when every row validates; otherwise it stops at the first row without a widget |
| OrderedStructure.ReasonsStop | CustomWidgets/BasicInterfaceWidgets/orderedStructureWidget.py:132-134 | a row without a widget after rows with widgets ends the report with its `AttributeError` |
| OrderedStructure.RuleKeyInjective | CustomWidgets/BasicInterfaceWidgets/orderedStructureWidget.py:150 | different rows get different `rule_#` keys |
| OrderedStructure.RuleKeysDistinct | CustomWidgets/BasicInterfaceWidgets/orderedStructureWidget.py:149-150 | the keys of the numbered entries never repeat, so no rule overwrites another |
| OrderedStructure.OrderedStructureWidget.AddItem | CustomWidgets/BasicInterfaceWidgets/orderedStructureWidget.py:52-62 | one row holding the new widget is appended at the end; earlier rows are untouched |
| OrderedStructure.OrderedStructureWidget.OnRemoveRulePushButtonClicked | CustomWidgets/BasicInterfaceWidgets/orderedStructureWidget.py:65-75 | the selection sorted from the highest down, removed one at a time; for distinct rows of the table exactly those rows go and the rest keep their order |
| OrderedStructure.OrderedStructureWidget.MoveDown | CustomWidgets/BasicInterfaceWidgets/orderedStructureWidget.py:106-113 | the table after Qt's insert, copy and remove of `moveDown` |
| OrderedStructure.OrderedStructureWidget.MoveUp | CustomWidgets/BasicInterfaceWidgets/orderedStructureWidget.py:115-122 | the table after Qt's insert, copy and remove of `moveUp` |
| OrderedStructure.OrderedStructureWidget.OnMoveRuleUpPushButtonClicked | CustomWidgets/BasicInterfaceWidgets/orderedStructureWidget.py:78-91 | nothing for an empty selection or one starting at row 0; otherwise `moveUp` of each selected row in order |
| OrderedStructure.OrderedStructureWidget.OnMoveRuleDownPushButtonClickedAsWritten | CustomWidgets/BasicInterfaceWidgets/orderedStructureWidget.py:95-104 | nothing for an empty selection or one whose last row + 1 exceeds the row count; otherwise `moveDown` of each selected row, last first |
| OrderedStructure.OrderedStructureWidget.OnMoveRuleDownPushButtonClicked | CustomWidgets/BasicInterfaceWidgets/orderedStructureWidget.py:95-104 | with the guard at the last row, the same loop, and for an ascending selection a permutation of the rows |
| OrderedStructure.OrderedStructureWidget.MoveSelectedDown | CustomWidgets/BasicInterfaceWidgets/orderedStructureWidget.py:102-103 | `moveDown` of each selected row, last first |
| OrderedStructure.OrderedStructureWidget.Validate | CustomWidgets/BasicInterfaceWidgets/orderedStructureWidget.py:124-128 | true exactly when every row validates; false at a first failing row; an `AttributeError` at a first row without a widget |
| OrderedStructure.OrderedStructureWidget.InvalidatedReason | CustomWidgets/BasicInterfaceWidgets/orderedStructureWidget.py:130-135 | the `Error for rule #i+1` messages of the failing rows in row order, or the `AttributeError` of the first row without a widget |
| OrderedStructure.OrderedStructureWidget.GetParameterDictAsWritten | CustomWidgets/BasicInterfaceWidgets/orderedStructureWidget.py:144-151 | always the `NameError` for the unimported `OrderedDict` |
| OrderedStructure.OrderedStructureWidget.GetParameterDict | CustomWidgets/BasicInterfaceWidgets/orderedStructureWidget.py:144-151 | entries `rule_#1` .. `rule_#n` in row order, each holding its row's parameter dict, or the `AttributeError` of the first row without a widget |
| InomDialog.CurrentText | LayerTools/ui_create_inom_dialog.py:96-98 | definition, with Qt's rule: the selected entry's text, or `""` when no entry is selected |
| InomDialog.Depth | LayerTools/ui_create_inom_dialog.py:100-120 | the number of subdivisions a scale index adds: none up to 0, the index up to 9, nine beyond |
| InomDialog.AddSubdivision | LayerTools/ui_create_inom_dialog.py:103-120 | one `if scale >= k` step takes the name from the first `k - 1` subdivisions (capped by the depth) to the first `k` |
| InomDialog.PartsPrefix | LayerTools/ui_create_inom_dialog.py:103-120 | fewer subdivisions give a prefix of the name with more |
| InomDialog.InomPrefix | LayerTools/ui_create_inom_dialog.py:95-120 | with the same selections, the INOM at scale s is a prefix of the INOM at scale s + 1 |
| InomDialog.InomPieces | LayerTools/ui_create_inom_dialog.py:95-120 | when no text holds `-`, splitting the INOM at `-` gives hemisphere and latitude, the longitude, and the first subdivisions in scale order |
| InomDialog.CreateInomDialog.constructor | LayerTools/ui_create_inom_dialog.py:33-54 | all nine subdivision combo boxes, in a new array of flags, disabled and the INOM and line edit built from the selections |
| InomDialog.CreateInomDialog.Disable | LayerTools/ui_create_inom_dialog.py:83-87 | combo box k enabled exactly when k < min; an `IndexError` exactly when min exceeds nine |
| InomDialog.CreateInomDialog.OnScaleComboBoxCurrentIndexChanged | LayerTools/ui_create_inom_dialog.py:90-93 | the scale box moves to `i` and the other combo boxes keep their selections; the first `i` subdivision boxes are enabled, `IndexError` exactly for `i` past nine, and otherwise the INOM and line edit are rebuilt from the unchanged selections at scale `i` |
| InomDialog.CreateInomDialog.ConstructInom | LayerTools/ui_create_inom_dialog.py:95-121 | the INOM is hemisphere and latitude, `-`, longitude, then `-` and the text of each of the first min(scale, 9) subdivision combo boxes; the line edit shows it |
| InomDialog.CreateInomDialog.GetInom | LayerTools/ui_create_inom_dialog.py:123-124 | definition: returns the INOM last built |
| DistanceToolTip.Color | ProductionTools/Acquisition/distanceToolTip.py:30-32 | red exactly below 4, green exactly from 4 on |
| DistanceToolTip.TipTextInjective | ProductionTools/Acquisition/distanceToolTip.py:33 | different distances give different tooltip texts |
| DistanceToolTip.MoveCases | ProductionTools/Acquisition/distanceToolTip.py:28-44 | hidden: a distance above 1 shows it and records the distance, any other changes nothing; shown: a new distance is redrawn and recorded, the same one changes nothing; a move never hides it |
| DistanceToolTip.RunFromInitial | ProductionTools/Acquisition/distanceToolTip.py:12-13 | from the start, the tooltip is showing exactly when some move exceeded 1 and exactly when something was shown; the last distance is the last one shown; no distance is shown twice in a row |
| DistanceToolTip.RunKeepsShowing | ProductionTools/Acquisition/distanceToolTip.py:28-35 | once shown, the tooltip stays shown through any moves and records the latest distance |
| DistanceToolTip.DistanceToolTip.constructor | ProductionTools/Acquisition/distanceToolTip.py:8-13 | hidden with last distance 0 |
| DistanceToolTip.DistanceToolTip.CanvasMoveEvent | ProductionTools/Acquisition/distanceToolTip.py:25-44 | the state after the move is the transition's, and the text shown, if any, is the coloured distance |
| DistanceToolTip.DistanceToolTip.Deactivate | ProductionTools/Acquisition/distanceToolTip.py:46-48 | hidden again, with the last distance kept |

## Left out

- The QGIS layer work of the converter is not modelled: the `connectTo*` bodies, `readInputLayers`, `readOutputLayers`, `prepareInputLayers`, `mapFeatures`, `fanOut` and `loadToOuput`. Their behaviour lives in QGIS, so `ConnectToDb` takes the connection as a parameter.
- `convertFromMap` is not modelled: it returns a constant pair.
- `removeExtraFields` is not modelled: it refers to names that are not defined.
- `createDataset` and `getDefaultPgDb` are not modelled: they call into the database factories, so dataset creation is a parameter that may raise.
- Python dicts are sequences of entries in insertion order. A conversion map with a repeated key is allowed, and its results are stated through de-duplication.
- `os.path.splitext` and `os.path.basename` are modelled for POSIX paths only.
- Exceptions are modelled by their message arguments. A creation that raises an exception without arguments is not modelled.
- ConversionStep: every step has `outDs`, `createDs`, `crs` and `edgv`. A step missing `outDs` or `createDs` raises a `KeyError` out of `checkAndCreateDatabases` (dbConverter.py:148-149, outside the `try`). A step missing `crs` or `edgv` gets its `KeyError` recorded in `fail` (lines 153, 161). Neither path is modelled: a step is a record with the four fields.
- Creation.Raised: the `args` of an exception raised during dataset creation are strings. An argument that is not a string, such as the errno of `OSError(2, 'x')`, makes `"; ".join(e.args)` at dbConverter.py:166 raise `TypeError` from inside the handler, which ends `checkAndCreateDatabases`. This is not modelled.
- CreateResult.Failed: the message is the `str` of the exception's first argument. Under Python 2, `str` of a non-ASCII unicode message raises `UnicodeEncodeError` from inside the handler at dbCreator.py:83 and 111, ending the loop. This is not modelled: messages are taken as text that converts.
- `DbCreator.createDb` and `newDb.createFrame` are abstract or foreign, so they are parameters. `createDb` is told which call of the run it is.
- The mutable default `paramDict` shared between calls is not modelled: each call gets the dict it is passed.
- Inspect.InspectFeatures.IterateFeature does not model the map: no zoom, no selection, no message box. The `idxChanged` signal, and `setNewId` which it triggers, are not modelled; the id it would send is the outcome `Shown(id)`.
- Inspect: the scale widget (`enableScale`), the toggle bar and `setValues` are not modelled; they are canvas UI.
- Inspect: expression filtering is not modelled. A layer is its name, a vector flag and its ids, and a filter is none, invalid, or the ids it matches.
- OrderedStructure: the selection range set after a move (`setRangeSelected`) is not modelled; it changes no row.
- OrderedStructure: `instantiateWidgetItem` and `populateInterface` belong to the concrete rule widgets, so a new row's widget is a parameter of `AddItem`.
- OrderedStructure: `validateJson` is not modelled; it has an empty body.
- OrderedStructure: selections are the list of selected row numbers Qt reports.
- DistanceToolTip: `calculateDistance` measures an ellipsoidal length in floating point; the model takes its truncation `m` as input. `int()` of a length is never negative, so `m` is a natural number.
- DistanceToolTip: the tooltip drawing of the `ToolTip` base class is modelled as the list of texts shown.
- Qt signal connections, `.ui` loading, icons and translations (`tr` is taken as the identity) are not modelled.

## Findings

| source | as written | input that shows it | evidently intended | confidence | as-written member | corrected member |
|---|---|---|---|---|---|---|
| Factories/DbCreatorFactory/dbCreator.py:100 | `createDbFromMIList` passes `srid`, a name bound nowhere in the method; the `NameError` is caught at line 109, so every database fails | `createDbFromMIList(["SF-23"])` with a `createDb` that always succeeds: no database, and an error for `SF-23` | take `srid` as a parameter, like `batchCreateDb` | not executed | DbCreator.CreateDbFromMIListAsWritten | DbCreator.CreateDbFromMIList |
| CustomWidgets/BasicInterfaceWidgets/orderedStructureWidget.py:24 | `getParameterDict` builds an `OrderedDict`, but only `deque` is imported from `collections` | any call: the `NameError` for `OrderedDict` | import `OrderedDict` and return the numbered entries | not executed | OrderedStructure.OrderedStructureWidget.GetParameterDictAsWritten | OrderedStructure.OrderedStructureWidget.GetParameterDict |
| CustomWidgets/BasicInterfaceWidgets/orderedStructureWidget.py:100 | the move-down guard returns only when the last selected row + 1 is greater than the row count, so a selection ending at the last row passes it; `moveDown` of the last row then inserts nothing, copies nothing and removes the row | rows `[A, B, C]` with row 2 selected: the table becomes `[A, B]` | guard with `>=`, so nothing moves when the selection ends at the last row | not executed | OrderedStructure.MoveDownClickAsWrittenLosesRow | OrderedStructure.MoveDownClickPermutes |
