# VISIR core in Dafny

VISIR shows a community model, such as the visitors of a museum and the artworks they
interacted with, as pairs of side-by-side network perspectives. Each perspective is a graph:
users are nodes, coloured, shaped and bordered by their explicit communities; edges carry
similarity values; and bounding boxes enclose the implicit communities. This project models the
logic behind that view and proves properties of the model. The logic covers the data-list
generator, the file validators, the perspective bookkeeping, the node and edge controllers,
and the state machines of the user-interface components. Rendering, vis.js, the network and
the filesystem stay outside the model.

Module by module:

- **DataList** (`public/data/createDataList.py`): the `dataList.json` builder. It reads a directory listing and keeps every entry whose name contains `.json` anywhere, its own output `dataList.json` included. Each entry's `id` is the name with every `.json` removed.
- **AuxTypes**: the shared reducers, which are the button-state array, the legend data and the selected object. **ViewOptions**: the view options and their reducer.
- **PerspectivesTypes**: the `PerspectivePair` class. **ViewDataManager**: the list of active perspective pairs.
- **Validation**, **ValidateFiles**, **PerspectiveValidation**: the validators of the data, configuration and perspective files, written over a small JSON model (**Json**). Each validator normalises its argument or reports the first error message.
- **ConfigToolUtils**: the configuration tool's dropdown builders, default names and configuration file. **CTranslation**: the translation validator, which fills missing keys from the default translation.
- **Boxes**, **BoxesController**, **BoundingBoxes**: the community bounding boxes and the hit test.
- **Nodes**: the palette getters, with modulo indexing. **NodeConstants**: the node constants, given as a record.
- **ManagerStrats**, **NodeDimensionStrat**, **NodeDimensionStat**: the managers' dimension strategies.
- **ControllerStrats**, **ControllerStrategies**: the controllers' dimension strategies.
- **DimensionMaps**: the value-to-palette maps that the strategies share. **UserRecords**: the user node record.
- **NodeExplicitComms**: the explicit-community collector. **NodeVisualsCtrl**: the node-visuals controller.
- **EdgeStore**: the edge data set, which the three edge controllers share. **EdgeVisualsCtrl**, **EdgeVisualCtrl**, **EdgeVisuals**: the three edge controllers.
- **DropMenu**, **AllVisirOptions**, **FileSourceDropdown**, **LayoutDropdown**, **SelectPerspectiveDropdown**, **SavePerspectives**, **App**, **Slider** / **TresholdSlider**, **BarPortion**, **DataColumn**: the UI components' state and decisions.
- Helper modules: **Wrappers** (Option, Result), **Strings**, **AssocMaps** (insertion-ordered maps, standing for JavaScript `Map`s and object keys), **JsOps** (JavaScript's truncating remainder), **PerspectiveIds**.

Objects whose fields the source updates in place are classes with `modifies` frames. Loops
over arrays are methods proved against specification functions. Pure code is functions and
lemmas.

## Model

| member | source | states |
|---|---|---|
| DataList.KeptFiles | public/data/createDataList.py:10-12 | the kept entries are exactly those whose name contains ".json", and there are no more of them than listing entries |
| DataList.KeptFilesAppend | public/data/createDataList.py:10-12 | the kept entries of a listing split in two are those of the first part followed by those of the second, and a single entry is kept alone or dropped, so the kept entries come in listing order |
| DataList.DataListOfSnoc | public/data/createDataList.py:10-14 | one more listing entry adds at most one record, at the end |
| DataList.DataListMatchesKept | public/data/createDataList.py:10-14 | one record per kept entry, in order; its id is the name with every ".json" removed and its name equals its id |
| DataList.UnkeptContributesNothing | public/data/createDataList.py:12 | an entry without ".json" in its name yields no record |
| DataList.IdsAreStrippedKeptNames | public/data/createDataList.py:12-14 | the emitted ids are exactly the stripped names of the kept entries |
| DataList.BuildDataList | public/data/createDataList.py:8-14 | the loop returns the list the specification function defines for the listing |
| DataList.MiddleExtensionIsKept | public/data/createDataList.py:12 | the test is a substring test: "a.json.bak" is kept |
| DataList.GlobalStrip | public/data/createDataList.py:13 | the replacement is global: "a.json.json" gives id "a" |
| DataList.RerunListsItsOwnOutput | public/data/createDataList.py:10-17 | a second run lists its own "dataList.json" and emits a record "dataList" for it |
| AuxTypes.LegendActionsChangeOneField | src/constants/auxTypes.ts:181-197 | dims, anon and anonGroup each change exactly their own field; reset gives the empty legend whatever the old state |
| AuxTypes.LegendActionIdempotent | src/constants/auxTypes.ts:181-197 | applying the same legend action twice equals applying it once |
| AuxTypes.LegendState.Reduce | src/constants/auxTypes.ts:181-197 | reset returns a fresh empty legend and leaves the object alone; the other actions assign their field in place and return a copy of the new state |
| AuxTypes.SelectedObjectReducerFrames | src/constants/auxTypes.ts:233-252 | position keeps object and source and replaces the position; object keeps the position and replaces object and source; clear gives undefined |
| AuxTypes.PositionSurvivesObjectChange | src/constants/auxTypes.ts:237-247 | a new position followed by a new object keeps that position |
| AuxTypes.ChangeOneFrame | src/constants/auxTypes.ts:292-295 | changeOne sets only position index; the length and every other entry are kept |
| AuxTypes.ActiveOneAtMostOne | src/constants/auxTypes.ts:297-301 | after activeOne every entry but index is unactive, so at most one entry differs from unactive |
| AuxTypes.ActiveOneIdempotent | src/constants/auxTypes.ts:297-301 | the same activeOne action twice gives the same array as once |
| AuxTypes.ResetIgnoresState | src/constants/auxTypes.ts:303-306 | reset gives index copies of the new state, whatever the old state |
| AuxTypes.BStateArrayReducer | src/constants/auxTypes.ts:288-310 | changeOne and activeOne edit the array in place and return a copy equal to the reducer function; reset returns a new filled array and leaves the old one alone |
| ViewOptions.FileSourceIndex | src/constants/viewOptions.ts:10-19 | Local has index 0 and Api index 1, both below two |
| ViewOptions.CollapseReducerCases | src/constants/viewOptions.ts:61-71 | from unCollapsed the action becomes the state; opposite collapses cancel; every other pair leaves the state as it is |
| ViewOptions.CollapseThenOppositeUndoes | src/constants/viewOptions.ts:61-71 | a collapse followed by the opposite button returns to unCollapsed |
| ViewOptions.Not | src/constants/viewOptions.ts:167 | JavaScript negation: a boolean is flipped and a map, always truthy, gives false |
| ViewOptions.ViewOptions.Set | src/constants/viewOptions.ts:165-173 | the named field takes the new value and every other field is kept |
| ViewOptions.NewViewOptions | src/constants/viewOptions.ts:76-142 | hideLabels true, hideEdges false, border false, threshold 0.5, deleteEdges 75, empty legend configuration |
| ViewOptions.ViewOptionsReducer | src/constants/viewOptions.ts:161-174 | without a value the named field is negated, otherwise it is replaced; no other field changes |
| ViewOptions.FieldsDetermineState | src/constants/viewOptions.ts:105-130 | two option states that agree on every field are equal |
| ViewOptions.ToggleTwiceRestores | src/constants/viewOptions.ts:164-168 | toggling a boolean field twice restores the original options |
| ViewOptions.ToggleNumberLosesValue | src/constants/viewOptions.ts:164-168 | toggling the numeric threshold twice does not restore it: 0.5 becomes false and then true |
| PerspectivesTypes.FirstFree | src/namespaces/perspectivesTypes.ts:139-145 | the index of the first available slot: every earlier slot is taken, and the result is the slot count when none is free |
| PerspectivesTypes.FirstHolding | src/namespaces/perspectivesTypes.ts:154-165 | the index of the first slot holding the id: no earlier slot holds it, and the result is the slot count when none does |
| PerspectivesTypes.Count | src/namespaces/perspectivesTypes.ts:116-118 | the number of held perspectives never exceeds the number of slots |
| PerspectivesTypes.CountUpdate | src/namespaces/perspectivesTypes.ts:141-157 | writing one slot changes the count by what the slot held and what it now holds |
| PerspectivesTypes.AddToSlotsSpec | src/namespaces/perspectivesTypes.ts:138-146 | adding fills only the first free slot and raises the count by one; with no free slot nothing changes |
| PerspectivesTypes.RemoveFromSlotsSpec | src/namespaces/perspectivesTypes.ts:153-167 | removing clears only the first slot holding the id and lowers the count by one; without a match nothing changes; the answer is true exactly when both slots end free |
| PerspectivesTypes.PerspectivePair.constructor | src/namespaces/perspectivesTypes.ts:125-132 | a new pair holds the perspective in slot 0, slot 1 free, with the given id |
| PerspectivesTypes.PerspectivePair.AddNewPerspective | src/namespaces/perspectivesTypes.ts:138-146 | the slots become those of the first-free insertion and the slot invariant is kept |
| PerspectivesTypes.PerspectivePair.RemovePerspective | src/namespaces/perspectivesTypes.ts:153-167 | the slots become those of the first-match removal, and the answer says whether the pair is now empty |
| PerspectivesTypes.PerspectivePair.HasEmptySpace | src/namespaces/perspectivesTypes.ts:173-180 | true exactly when some slot is free |
| PerspectivesTypes.PerspectivePair.GetSingle | src/namespaces/perspectivesTypes.ts:186-192 | undefined exactly when both slots are free, else the perspective of the first occupied slot |
| ViewDataManager.FirstWithSpace | src/managers/viewDataManager.ts:30-36 | the index of the first pair with a free slot; every earlier pair is full |
| ViewDataManager.TotalUpdate | src/managers/viewDataManager.ts:32 | replacing one pair changes the total by the difference of the two pairs' counts |
| ViewDataManager.TotalAppend | src/managers/viewDataManager.ts:39 | appending a pair adds its count to the total |
| ViewDataManager.AddToPairsSpec | src/managers/viewDataManager.ts:25-41 | adding fills the first pair with space, leaving the others, or appends a new pair; exactly one more perspective is stored |
| ViewDataManager.RemoveFromPairsSpec | src/managers/viewDataManager.ts:47-55 | pairs before the first emptied one lose the id, the emptied pair is dropped and every later pair is kept as it was |
| ViewDataManager.DropMatchesRemove | src/managers/viewDataManager.ts:50-53 | dropping the emptied pair after asking the earlier ones gives exactly the specified removal |
| ViewDataManager.PairWithoutIdUnchanged | src/namespaces/perspectivesTypes.ts:153-167 | a pair that does not hold the id is neither changed nor reported empty |
| ViewDataManager.ViewDataManager.Contents | src/managers/viewDataManager.ts:11 | the slots of every pair in list order, each a two-slot pair |
| ViewDataManager.ViewDataManager.constructor | src/managers/viewDataManager.ts:16-18 | a new manager holds no pairs |
| ViewDataManager.ViewDataManager.AddAt | src/managers/viewDataManager.ts:31-34 | fills a free slot of one pair and leaves every other pair as it was |
| ViewDataManager.ViewDataManager.AddPerspective | src/managers/viewDataManager.ts:25-41 | the contents become those of the first-fit insertion; a new pair's id is the old number of pairs |
| ViewDataManager.ViewDataManager.AppendPair | src/managers/viewDataManager.ts:38-40 | appends a pair holding only the perspective, with the old number of pairs as its id |
| ViewDataManager.ViewDataManager.RemoveAt | src/managers/viewDataManager.ts:50 | asks one pair to drop the id and leaves every other pair as it was |
| ViewDataManager.ViewDataManager.DropAt | src/managers/viewDataManager.ts:51 | takes one pair out of the list, keeping the order of the others |
| ViewDataManager.ViewDataManager.RemovePerspective | src/managers/viewDataManager.ts:47-55 | the contents become those of the specified removal |
| ViewDataManager.ViewDataManager.ClearPerspectives | src/managers/viewDataManager.ts:60-62 | afterwards the manager holds no pairs |
| Validation.Wrap | src/constants/ValidateFiles.ts:66-68 | a validator's catch re-throws with its own prefix: success passes through unchanged, a failure keeps its message after the prefix |
| Validation.AsString | src/constants/ValidateFiles.ts:47-53 | the `String()` coercion gives a string and leaves a string as it is |
| Validation.RequireString | src/constants/ValidateFiles.ts:347-357 | a required string field: accepted exactly when the record is an object holding the field, which then holds its string form; a missing field throws the given message; every other field is kept |
| Validation.RequireNumber | src/constants/ValidateFiles.ts:371-380 | a required number field: accepted exactly when the field is present and converts to a number; missing and NaN throw their own messages; every other field is kept |
| Validation.RequireObject | src/constants/ValidateFiles.ts:86-92 | a required object field: accepted exactly when it holds an object or array, and then gives that value; missing and non-object throw their own messages |
| Validation.Default | src/constants/ValidateFiles.ts:860-866 | a defaulted field: a missing field gets the default, a present one is kept, every other field is kept |
| Validation.Move | src/constants/ValidateFiles.ts:382-383 | `to = from; delete from`: the new field holds the old value, the old field is gone and every other field is kept |
| Validation.Loopable | src/constants/ValidateFiles.ts:118-120 | an indexed loop throws exactly on null or undefined and otherwise visits the array's elements |
| Validation.MapResult | src/constants/ValidateFiles.ts:118-120 | the loop `a[i] = valid(a[i])` succeeds exactly when every element is accepted, and then holds each element's validated value at its index |
| Validation.MapEach | src/constants/ValidateFiles.ts:118-120 | the element loop computes exactly `MapResult`: the first refused element's error, or the validated array |
| Validation.MapResultFirstError | src/constants/ValidateFiles.ts:118-120 | the error thrown is that of the first refused element |
| Validation.CheckObjects | src/constants/ValidateFiles.ts:632-669 | a run of required-object checks passes exactly when every named field holds an object, and leaves the record as it was |
| Validation.CheckEach | src/constants/ValidateFiles.ts:632-669 | the sequence of object checks computes exactly `CheckObjects` |
| Validation.RunEach | src/constants/ValidateFiles.ts:673-687 | the sequence of list loops computes exactly `RunStages` |
| Validation.StageLoop | src/constants/ValidateFiles.ts:673-675 | one list loop computes exactly `Stage` on the list value |
| Validation.RunStagesSpec | src/constants/ValidateFiles.ts:673-687 | running the list loops one after another succeeds exactly when every list's elements are accepted; each list then holds its validated elements (a non-array keeps its value) and every other field is untouched |
| Validation.ApplyCheck | src/constants/perspectiveValidation.ts:294-346 | one field check passes exactly when the field's value passes, coerces just that field and throws the message of the failing value |
| ValidateFiles.ValidatePerspectiveIdFile | src/constants/ValidateFiles.ts:20-69 | the loop over the perspective ids computes exactly the functional model of `validatePerspectiveIDfile` |
| ValidateFiles.IdEntrySpec | src/constants/ValidateFiles.ts:35-59 | an undefined entry and a non-object entry throw their messages; an entry is accepted exactly when it is an object with an id; the id becomes a string, a missing or non-string name becomes the id, the state becomes unactive, and nothing else changes |
| ValidateFiles.PerspectiveIdFileSpec | src/constants/ValidateFiles.ts:20-69 | a non-object file is refused; an array is accepted exactly when every entry is, and then holds every entry's normalised form in order; an object without `length` gets `length = 0` and is returned |
| ValidateFiles.CountList | src/constants/ValidateFiles.ts:318-332 | the implicit-attributes key loop succeeds exactly when every count is a number, and then holds one `{value, count}` per key in key order |
| ValidateFiles.BuildCountList | src/constants/ValidateFiles.ts:318-332 | the key loop computes exactly `CountList` |
| ValidateFiles.ValidateImplicitAttributes | src/constants/ValidateFiles.ts:295-341 | the implicit-attributes validation with its key loop computes exactly its functional model |
| ValidateFiles.ImplicitAttributesSpec | src/constants/ValidateFiles.ts:295-313 | an accepted implicit-attributes explanation has an object `explanation_data` with a label and an object `data`, and only `explanation_data` is rewritten |
| ValidateFiles.ImplicitAttributesData | src/constants/ValidateFiles.ts:315-335 | when accordion mode was unset it becomes false, the label becomes a string and `data` becomes one `{value, count}` per key of the old data, in order, each count rounded to two decimals |
| ValidateFiles.MedoidSpec | src/constants/ValidateFiles.ts:276-293 | a medoid explanation is accepted exactly when its `explanation_data` is an object with an id |
| ValidateFiles.MedoidValues | src/constants/ValidateFiles.ts:281-289 | an accepted medoid holds its id as a string and every other field of it and of the explanation as it was |
| ValidateFiles.ValidateExplanation | src/constants/ValidateFiles.ts:222-274 | the explanation validation computes exactly its functional model |
| ValidateFiles.ExplanationHeadFacts | src/constants/ValidateFiles.ts:224-251 | before the type switch: the type name is required and replaced by its enum member, `visible` defaults to false unless the type is explicit attributes, and every other field is kept |
| ValidateFiles.ExplanationTypedFacts | src/constants/ValidateFiles.ts:253-267 | the type switch keeps the type and the `visible` flag and sets `order` 0 for explicit attributes, 2 for a medoid and 1 for implicit attributes |
| ValidateFiles.ExplanationSpec | src/constants/ValidateFiles.ts:222-274 | an accepted explanation had a type; a known type name becomes its enum index, the order follows the type, and `visible` defaults to false for every type but explicit attributes |
| ValidateFiles.SortByOrderSorted | src/constants/ValidateFiles.ts:197 | the explanation sort gives a permutation of its input, in ascending order when every explanation has a numeric order |
| ValidateFiles.ValidateExplanations | src/constants/ValidateFiles.ts:193-195 | the explanation loop computes exactly `MapResult` of the explanation validator |
| ValidateFiles.ValidateCommunity | src/constants/ValidateFiles.ts:147-221 | the community validation with its explanation loop computes exactly its functional model |
| ValidateFiles.CommunitySpec | src/constants/ValidateFiles.ts:150-195 | an accepted community had an id, a name, users that are an object whose `length` is not 0, and an array of explanations every one of which is accepted |
| ValidateFiles.CommunityHeadFacts | src/constants/ValidateFiles.ts:150-172 | the checks before the loop turn id and name into strings, keep every other field, and hand on the explanations value as it was |
| ValidateFiles.CommunityOrderSpec | src/constants/ValidateFiles.ts:193-197 | the returned explanations are a permutation of the validated ones, sorted by order when every order is a number |
| ValidateFiles.CommunityTypeSpec | src/constants/ValidateFiles.ts:199-215 | `type` is inexistent (1) without a community type, the enum index of a known name, and implicit (0) for any other name |
| ValidateFiles.CommunityTypeOfFacts | src/constants/ValidateFiles.ts:199-215 | the three cases of the community type, stated on the type value alone |
| ValidateFiles.ReplaceEmptyValues | src/constants/ValidateFiles.ts:393-398 | the key loop over `explicit_community` computes exactly the placeholder rewrite of every field |
| ValidateFiles.PlaceholderFields | src/constants/ValidateFiles.ts:393-398 | every key is kept in place, an empty-string value becomes "(empty)" and any other value is kept |
| ValidateFiles.BuildEmotionList | src/constants/ValidateFiles.ts:467-477 | the emotions loop computes exactly the list of `{value, count}` records, one per key |
| ValidateFiles.ValidateInteraction | src/constants/ValidateFiles.ts:440-487 | the interaction validation with its emotions loop computes exactly its functional model |
| ValidateFiles.InteractionSpec | src/constants/ValidateFiles.ts:443-463 | an accepted interaction had an artwork id, now a string; missing feelings become "" and present ones a string |
| ValidateFiles.InteractionEmotionsSpec | src/constants/ValidateFiles.ts:465-477 | present extracted emotions become one `{value, count}` record per key, in key order |
| ValidateFiles.ValidateInteractionList | src/constants/ValidateFiles.ts:408-410 | the interaction loop computes exactly `MapResult` of the interaction validator |
| ValidateFiles.ValidateInteractions | src/constants/ValidateFiles.ts:400-415 | a user's interaction list validation computes exactly its functional model |
| ValidateFiles.Interactions | src/constants/ValidateFiles.ts:400-415 | a missing interaction list becomes `[]`; no other field is touched |
| ValidateFiles.ValidateUser | src/constants/ValidateFiles.ts:344-438 | the user validation with its loops computes exactly its functional model |
| ValidateFiles.ValidateUserInteractions | src/constants/ValidateFiles.ts:400-431 | both interaction lists of a user are validated as the functional model says |
| ValidateFiles.ValidateUserExplicit | src/constants/ValidateFiles.ts:385-431 | the explicit-community rewrite and the interaction lists computed as the functional model says |
| ValidateFiles.UserSpec | src/constants/ValidateFiles.ts:344-398 | an accepted user had an id, a label and a numeric group; id and label are strings, `group` has moved to `implicit_community` as a number, and every explicit-community key keeps its place with no empty-string value left, other values unchanged |
| ValidateFiles.UserInteractionsSpec | src/constants/ValidateFiles.ts:400-419 | missing community and no-community interaction lists become empty arrays |
| ValidateFiles.EdgeSpec | src/constants/ValidateFiles.ts:489-547 | an edge is accepted exactly when its value converts to a number and it has u1 and u2; it is dropped exactly when the two ends are equal; otherwise `similarity`, `from` and `to` replace `value`, `u1` and `u2` and every other field is kept |
| ValidateFiles.EdgeRenames | src/constants/ValidateFiles.ts:503-534 | the three rename steps give `similarity`, `from` and `to` and delete `value`, `u1` and `u2` |
| ValidateFiles.EdgeRenamesOthers | src/constants/ValidateFiles.ts:503-534 | the three rename steps leave every field they do not name |
| ValidateFiles.Stored | src/constants/ValidateFiles.ts:127-131 | a dropped edge leaves a hole and a kept edge gets its index as id |
| ValidateFiles.ValidateEdges | src/constants/ValidateFiles.ts:124-132 | the backwards similarity loop computes exactly the suffix model from index 0 |
| ValidateFiles.EdgeSuffixSpec | src/constants/ValidateFiles.ts:124-132 | the similarity loop succeeds exactly when every edge is accepted, and then holds at each index the hole or the edge with its index as id |
| ValidateFiles.LastRefusedEdgeReported | src/constants/ValidateFiles.ts:124-132 | since the loop runs backwards, the error thrown is that of the last refused edge |
| ValidateFiles.EdgeSuffixFailurePersists | src/constants/ValidateFiles.ts:124-132 | a failure at a later index is what every earlier start reports |
| ValidateFiles.ArtworkSpec | src/constants/ValidateFiles.ts:550-620 | an artwork is accepted exactly when it is an object with id, tittle, author, year and image |
| ValidateFiles.ArtworkValuesSpec | src/constants/ValidateFiles.ts:553-615 | an accepted artwork holds those five fields as strings and every other field as it was |
| ValidateFiles.ArtworkMessages | src/constants/ValidateFiles.ts:565-591 | a missing year throws "Year is undefined", while a missing tittle throws "Id is undefined" as written |
| ValidateFiles.ValidatePerspectiveData | src/constants/ValidateFiles.ts:80-145 | the perspective-data validation with its four loops computes exactly its functional model |
| ValidateFiles.ValidateDataLists | src/constants/ValidateFiles.ts:118-135 | the community loop and the loops after it compute exactly their functional model |
| ValidateFiles.DataHeadSpec | src/constants/ValidateFiles.ts:82-116 | the head checks pass exactly when communities, users, similarity and artworks all hold objects, and hand those four values on |
| ValidateFiles.DataListsSpec | src/constants/ValidateFiles.ts:118-135 | the four loops succeed exactly when each list is accepted; each list then holds its validated elements and every other field is kept |
| ValidateFiles.PerspectiveDataSpec | src/constants/ValidateFiles.ts:80-145 | the data file is accepted exactly when it is an object whose four lists are objects and whose communities, users, edges and artworks are all accepted; each list then holds its validated form |
| ValidateFiles.PerspectiveDataKeeps | src/constants/ValidateFiles.ts:80-145 | every field but the four lists is returned as it was |
| ValidateFiles.NameAndTypeSpec | src/constants/ValidateFiles.ts:727-760 | a name-and-type pair is accepted exactly when it has both fields, which become strings; nothing else changes |
| ValidateFiles.NameAndIdSpec | src/constants/ValidateFiles.ts:762-795 | a name-and-id pair is accepted exactly when it has both fields, which become strings; nothing else changes |
| ValidateFiles.AlgorithmSpec | src/constants/ValidateFiles.ts:846-872 | an algorithm is accepted exactly when it has a name, now a string; missing params become `[]`, a missing default becomes false, other fields are kept |
| ValidateFiles.InteractSimFuncSpec | src/constants/ValidateFiles.ts:797-844 | null and undefined are refused; the function is accepted exactly when its `sim_function` is an object with a name and valid on-attribute and interaction-object pairs; the result is that inner object with its name a string, params defaulted and both pairs validated |
| ValidateFiles.ArtworkAttributeSpec | src/constants/ValidateFiles.ts:698-725 | an artwork attribute is accepted exactly when its on-attribute pair is valid and its `sim_function` is an object or array whose elements are all valid algorithms |
| ValidateFiles.ArtworkAttributeValues | src/constants/ValidateFiles.ts:708-721 | the accepted attribute holds the validated pair and the validated algorithm list |
| ValidateFiles.ArtworkAttributeMessages | src/constants/ValidateFiles.ts:700-705 | a missing or non-object on-attribute throws the TypeError of reading `arg.arg.name`, not the message written after it |
| ValidateFiles.ValidateArtworkAttribute | src/constants/ValidateFiles.ts:698-725 | the attribute validation with its algorithm loop computes exactly its functional model |
| ValidateFiles.ValidateConfigurationSeed | src/constants/ValidateFiles.ts:626-696 | the seed validation with its five loops computes exactly its functional model |
| ValidateFiles.ConfigurationSeedSpec | src/constants/ValidateFiles.ts:626-696 | the seed is accepted exactly when it is an object whose five lists are objects whose elements are all accepted; each list then holds its validated elements and every other field is kept |
| ValidateFiles.SeedWithSpec | src/constants/ValidateFiles.ts:626-696 | the staged seed check passes exactly when the argument is an object whose staged lists are objects whose elements all pass; each such list is replaced by its validated elements and every other field is kept |
| ValidateFiles.DataUsersSpec | src/constants/ValidateFiles.ts:121-135 | once the communities are done, the users, similarity and artworks loops succeed exactly when each list is accepted; each list then holds its validated elements and every other field is kept |
| ValidateFiles.DataLinksSpec | src/constants/ValidateFiles.ts:124-135 | the similarity and artworks loops succeed exactly when both lists are accepted, replace both by their validated elements and keep every other field |
| ValidateFiles.DataArtworksSpec | src/constants/ValidateFiles.ts:133-135 | the artworks loop succeeds exactly when every artwork is accepted, replaces the list by the validated artworks and keeps every other field |
| PerspectiveValidation.ValidateAllPerspectivesDetails | src/constants/perspectiveValidation.ts:18-51 | the details-file validation computes exactly its functional model |
| PerspectiveValidation.DetailsHead | src/constants/perspectiveValidation.ts:20-30 | an undefined or non-object file is refused; an array passes exactly when it is not empty; a passing file is not changed |
| PerspectiveValidation.DetailsRefusesEmpty | src/constants/perspectiveValidation.ts:20-30 | an undefined file, a non-object and the empty list are all refused |
| PerspectiveValidation.AcceptedDetails | src/constants/perspectiveValidation.ts:18-51 | an accepted list is not empty, keeps its length and holds each perspective's validated form |
| PerspectiveValidation.ValidateDetailsList | src/constants/perspectiveValidation.ts:32-42 | the perspective loop computes exactly `MapResult` of the entry validator |
| PerspectiveValidation.DetailsEntry | src/constants/perspectiveValidation.ts:33-41 | an undefined or non-object entry is refused |
| PerspectiveValidation.ValidateDetailsEntry | src/constants/perspectiveValidation.ts:33-41 | one loop step computes exactly `DetailsEntry` |
| PerspectiveValidation.ValidatePerspectiveInfo | src/constants/perspectiveValidation.ts:55-116 | the perspective validation with its similarity-function loop computes exactly its functional model |
| PerspectiveValidation.InfoHeadSpec | src/constants/perspectiveValidation.ts:57-97 | the checks before the loop pass exactly when the id converts to a number, a name is present, the algorithm is valid and `similarity_functions` is an object; the id becomes a number, the name a string and the algorithm its validated form |
| PerspectiveValidation.InfoRestSpec | src/constants/perspectiveValidation.ts:68-97 | after the id: accepted exactly when a name is present, the algorithm is valid and the functions are an object; id and functions are kept |
| PerspectiveValidation.InfoTable | src/constants/perspectiveValidation.ts:68-86 | the name and algorithm checks pass exactly when a name is present and the algorithm is an object; they touch only the name |
| PerspectiveValidation.InfoAlgorithm | src/constants/perspectiveValidation.ts:88-97 | passes exactly when the algorithm is valid and the functions are an object, and then only the algorithm is replaced by its validated form |
| PerspectiveValidation.InfoAlgorithmFields | src/constants/perspectiveValidation.ts:88-97 | writing the algorithm back keeps id, name and functions |
| PerspectiveValidation.IdCheckKeeps | src/constants/perspectiveValidation.ts:57-66 | the id check makes the id a number and touches no other field |
| PerspectiveValidation.AcceptedPerspective | src/constants/perspectiveValidation.ts:55-116 | an accepted perspective has a numeric id, a string name and a validated algorithm, and each of its similarity functions is valid |
| PerspectiveValidation.InfoLoopParts | src/constants/perspectiveValidation.ts:99-110 | the similarity-function loop keeps id, name and algorithm and succeeds only when every function is valid |
| PerspectiveValidation.SimEntry | src/constants/perspectiveValidation.ts:100-108 | one loop step passes exactly when the element is an object whose `sim_function` is valid, and then replaces just that function by its validated form |
| PerspectiveValidation.Algorithm | src/constants/perspectiveValidation.ts:118-146 | an algorithm is accepted exactly when it has a name and an object of params; the name becomes a string and the params are kept |
| PerspectiveValidation.SimilarityFunctionSpec | src/constants/perspectiveValidation.ts:148-197 | a similarity function is accepted exactly when it has a name, object params, a valid on-attribute and a weight that converts to a number; the name becomes a string, the weight a number and the on-attribute its validated form |
| PerspectiveValidation.SimilarityRestSpec | src/constants/perspectiveValidation.ts:162-190 | the checks after the name, with the on-attribute validated, stated field by field |
| PerspectiveValidation.SimilarityTable | src/constants/perspectiveValidation.ts:162-190 | the params, on-attribute and weight checks pass exactly when both are objects and the weight converts to a number |
| PerspectiveValidation.OnAttributeSpec | src/constants/perspectiveValidation.ts:199-230 | an on-attribute is accepted exactly when `att_name` and `att_type` are present, and both then hold strings |
| PerspectiveValidation.ValidatePerspectiveData | src/constants/perspectiveValidation.ts:240-289 | the data validation with its three loops computes exactly its functional model. This uses the corrected edge check of the first finding, so an edge whose value is a numeric string such as "1" is accepted here and refused by the code as written. |
| PerspectiveValidation.ValidateDataWith | src/constants/perspectiveValidation.ts:240-289 | the object checks, the community and user loops and the numbering similarity loop compute exactly their functional model. The edge validator is a parameter; `ValidatePerspectiveData` passes the corrected one of the first finding. |
| PerspectiveValidation.NumberEdges | src/constants/perspectiveValidation.ts:276-279 | the similarity loop computes exactly the numbering model from index 0. The edge validator is a parameter; `ValidatePerspectiveData` passes the corrected one of the first finding. |
| PerspectiveValidation.NumberedIds | src/constants/perspectiveValidation.ts:276-279 | every edge the loop keeps was accepted and carries its index as `id`. The edge validator is a parameter; `ValidatePerspectiveData` passes the corrected one of the first finding. |
| PerspectiveValidation.CommunitySpec | src/constants/perspectiveValidation.ts:291-354 | a community is accepted exactly when its id converts to a number and it has a type, a name, an explanation and an object of users; the id becomes a number and the three texts strings |
| PerspectiveValidation.CommunityTable | src/constants/perspectiveValidation.ts:305-346 | the checks after the id pass exactly when type, name and explanation are present and users is an object; id and users are kept |
| PerspectiveValidation.UserSpec | src/constants/perspectiveValidation.ts:356-411 | a user is accepted exactly when it has an id, a label, a group that converts to a number and an object `explicit_community`; id and label become strings and the group becomes `implicit_community` |
| PerspectiveValidation.UserRestSpec | src/constants/perspectiveValidation.ts:372-404 | the checks after the id, stated field by field |
| PerspectiveValidation.UserTable | src/constants/perspectiveValidation.ts:372-393 | the label and group checks pass exactly when a label is present and the group converts to a number |
| PerspectiveValidation.UserCommunities | src/constants/perspectiveValidation.ts:395-404 | `group` moves to `implicit_community`, and the user passes exactly when `explicit_community` is an object |
| PerspectiveValidation.UserIdCheckKeeps | src/constants/perspectiveValidation.ts:359-370 | the id check makes the id a string and touches no other field |
| PerspectiveValidation.EdgeSpec | src/constants/perspectiveValidation.ts:413-464 | as intended (the corrected half of the first finding), an edge is accepted exactly when its value converts to a number and it has both ends; `u1` and `u2` become `from` and `to` and `label` is the value as text |
| PerspectiveValidation.EdgeFrom | src/constants/perspectiveValidation.ts:427-457 | the end checks pass exactly when both ends are present, which are then renamed to `from` and `to` as strings |
| PerspectiveValidation.EdgeTo | src/constants/perspectiveValidation.ts:442-457 | the second end check passes exactly when `u2` is present, which becomes `to` as a string |
| PerspectiveValidation.EdgeAsWrittenBody | src/constants/perspectiveValidation.ts:420-425 | as written, an accepted edge had a number value or an `ivalued` field that converts to a number |
| PerspectiveValidation.AsWrittenRefusesNonNumberValues | src/constants/perspectiveValidation.ts:420-425 | as written, every edge whose value is present but not a number is refused when it has no `ivalued` field |
| PerspectiveValidation.StringValueExample | src/constants/perspectiveValidation.ts:420-425 | the edge with value "1" is refused as written and accepted as intended |
| ConfigToolUtils.InitArtworksAttrDrop | src/constants/ConfigToolUtils.ts:48-61 | the nested loops build exactly the map from attribute name to the `default` flags of its similarity functions |
| ConfigToolUtils.DefaultsPointwise | src/constants/ConfigToolUtils.ts:51-55 | the flag list has one entry per similarity function, each that function's `default` |
| ConfigToolUtils.DropOfLastWins | src/constants/ConfigToolUtils.ts:57 | a name maps to the flags of the last attribute with that name, since a later `set` overwrites an earlier one |
| ConfigToolUtils.DropOfAbsent | src/constants/ConfigToolUtils.ts:48-61 | a name no attribute carries has no entry |
| ConfigToolUtils.InitAlgorythmDrop | src/constants/ConfigToolUtils.ts:63-73 | the result is the first algorithm flagged default, or the first algorithm when none is, and nothing for an empty list |
| ConfigToolUtils.FillUserAttributes | src/constants/ConfigToolUtils.ts:272-281 | the map walk emits exactly the model's list of checked attributes |
| ConfigToolUtils.SelectedUserAttributesExact | src/constants/ConfigToolUtils.ts:272-281 | a `(key, "String")` attribute is emitted exactly when the key is checked, no other type is ever emitted, and there are never more attributes than entries |
| ConfigToolUtils.InteractionEntry | src/constants/ConfigToolUtils.ts:241-270 | the pushed entry copies the selected function's params, on-attribute and interaction object; `Same` renames it to the identity comparison and `Different` flags it dissimilar |
| ConfigToolUtils.FillSimilarityFunctions | src/constants/ConfigToolUtils.ts:162-239 | the attribute walks push exactly the model's list of artwork similarity functions |
| ConfigToolUtils.SimilarEntriesSound | src/constants/ConfigToolUtils.ts:180-202 | under `Similar`, every pushed entry comes from a selected attribute with dropdown flags and one of its checked functions |
| ConfigToolUtils.SimilarEntriesComplete | src/constants/ConfigToolUtils.ts:180-202 | under `Similar`, every checked function of a selected attribute with dropdown flags is pushed |
| ConfigToolUtils.SimilarForSound | src/constants/ConfigToolUtils.ts:186-199 | each entry of one attribute's inner loop comes from one of its checked functions |
| ConfigToolUtils.SimilarForComplete | src/constants/ConfigToolUtils.ts:186-199 | every checked function of the attribute yields its entry |
| ConfigToolUtils.DifferentEntriesExact | src/constants/ConfigToolUtils.ts:219-238 | under `Different` there is one dissimilar entry per selected attribute, each naming a selected attribute |
| ConfigToolUtils.SimilarityFunctionsNonEmpty | src/constants/ConfigToolUtils.ts:162-239 | `Same` gives exactly the identity comparison; `Similar` is never empty, falling back to the identity comparison only when nothing was checked |
| ConfigToolUtils.GetDefaultName | src/constants/ConfigToolUtils.ts:110-160 | the name built step by step is exactly the model's default name |
| ConfigToolUtils.SelectedNamesExact | src/constants/ConfigToolUtils.ts:147-154 | the listed names are exactly the seed attributes whose checkbox is set |
| ConfigToolUtils.DefaultNameShape | src/constants/ConfigToolUtils.ts:110-160 | the name starts with the letter of the interaction similarity and a dash, then the attribute name when an interaction function exists; it ends with ")" exactly when a non-empty attribute list is appended under a similarity other than `Same`, and with "artworks" otherwise |
| ConfigToolUtils.CreateConfigurationFile | src/constants/ConfigToolUtils.ts:77-108 | the new configuration holds the checked user attributes, the one interaction entry and the artwork similarity functions; id equals name, which is the perspective name with spaces turned into underscores, or the default name when that is empty, and is never empty; the algorithm carries name, params and weight |
| CTranslation.ValidateTranslation | src/managers/CTranslation.ts:161-202 | an undefined translation gives the default one; otherwise the three nested loops compute exactly the model's fill of the new translation by the default's keys |
| CTranslation.FillSecondLevel | src/managers/CTranslation.ts:174-194 | the middle loop computes exactly the second-level fill |
| CTranslation.FillThirdLevel | src/managers/CTranslation.ts:181-188 | the innermost loop computes exactly the third-level fill, writing only missing keys |
| CTranslation.Write | src/managers/CTranslation.ts:186-198 | a key assignment succeeds exactly on an object, and the result is an object; on a word it is a TypeError |
| CTranslation.StepFrame | src/managers/CTranslation.ts:169-200 | one iteration changes at most its own key |
| CTranslation.FillErrSticks | src/managers/CTranslation.ts:169-200 | once an iteration throws, the rest of the loop never runs |
| CTranslation.FillAt | src/managers/CTranslation.ts:169-200 | after a successful loop each key holds what its own iteration gives: the default's value when the key was missing, the filled object one level down, or the present value untouched |
| CTranslation.FillEmpty | src/managers/CTranslation.ts:161-202 | a translation with no keys at all comes back as the default translation |
| CTranslation.MergeTopLevel | src/managers/CTranslation.ts:169-200 | a top-level key missing from the new translation takes the default's value; a key only the new translation has, or a word it holds, is kept |
| CTranslation.MergeSecondLevel | src/managers/CTranslation.ts:173-195 | under a key that both hold as objects, a missing second-level key is copied from the default and one only the new translation has is kept |
| CTranslation.MergeThirdLevel | src/managers/CTranslation.ts:180-189 | two levels down, a missing key is copied from the default and a present value, with everything below it, is left as it was |
| CTranslation.TextStaysText | src/managers/CTranslation.ts:178-193 | filling inside a word either throws or leaves the word as it is |
| CTranslation.WordWhereObjectExpectedThrows | src/managers/CTranslation.ts:173-192 | a word where the default has a non-empty object makes the merge throw |
| Boxes.NodeRect | src/controllers/boxesController.ts:65-70 | a node's box has width and height equal to its size plus twice the padding, and is centred on the node |
| Boxes.Extend | src/controllers/boxesController.ts:83-93 | moving each side out only when the node's box lies beyond it covers both the old box and the node's box |
| Boxes.ExtendIsLeast | src/controllers/boxesController.ts:83-93 | every box that covers the old box and the node's box covers the extended box, which is therefore the smallest such box |
| Boxes.ClickInsideBoxFacts | src/controllers/boxesController.ts:153-155 | a point strictly inside a box is inside every box covering it; no point on a side counts as inside |
| BoxesController.BoxColorOf | src/controllers/boxesController.ts:76-80 | an inexistent community gets the inexistent colour; any other community gets palette entry `number % 8` |
| BoxesController.AddNode | src/controllers/boxesController.ts:62-95 | after a node arrives its community has a box covering the node's box and the old box; an existing box keeps its colour and a new box gets the community's colour |
| BoxesController.FirstNodeSetsBox | src/controllers/boxesController.ts:72-74 | the first node of a community gives it exactly that node's padded box |
| BoxesController.AddNodeIsLeast | src/controllers/boxesController.ts:82-94 | the new box is the smallest box covering the old box and the node |
| BoxesController.BoxesController.constructor | src/controllers/boxesController.ts:53-56 | the controller keeps the community array itself, with no highlighted community |
| BoxesController.BoxesController.CalculateBoundingBoxes | src/controllers/boxesController.ts:62-95 | a community number past the end of the array throws the TypeError of reading `bb` of undefined and changes nothing; otherwise, in the shared community array, only the node's community entry changes, and it becomes `AddNode` of its old value |
| BoxesController.BoxesController.IsBoundingBoxClicked | src/controllers/boxesController.ts:134-144 | the answer is the first community whose box strictly contains the point, with every earlier box missing it; null means no box contains it; reaching a community without a box is a TypeError |
| BoundingBoxes.AddUser | src/controllers/boundingBoxes.ts:75-104 | after a user is processed its group has a box covering the user's box and the old box; an existing box keeps its colour and a new one gets `palette[group % 8]` |
| BoundingBoxes.Process | src/controllers/boundingBoxes.ts:73-105 | processing the users keeps the number of communities |
| BoundingBoxes.ProcessCovers | src/controllers/boundingBoxes.ts:73-105 | after all users, a group's box covers every one of its users' boxes and its old box, and a group without users is untouched |
| BoundingBoxes.ProcessColour | src/controllers/boundingBoxes.ts:86-89 | the first user of a group without a box fixes its colour as `palette[group % 8]`, and later users never change it |
| BoundingBoxes.FirstOutOfRange | src/controllers/boundingBoxes.ts:75-86 | the number of users before the first one whose group does not index the community list: every earlier group is in range, and it is the user count exactly when all groups are |
| BoundingBoxes.BoundingBoxes.constructor | src/controllers/boundingBoxes.ts:62-63 | the community array is shared, not copied |
| BoundingBoxes.BoundingBoxes.Create | src/controllers/boundingBoxes.ts:62-66 | `new BoundingBoxes(...)` processes the users into the shared array in order; it succeeds with a fresh controller on that array exactly when every group is in range, and otherwise throws the TypeError after the users before the first out-of-range one have been processed |
| BoundingBoxes.BoundingBoxes.CalculateBoundingBoxes | src/controllers/boundingBoxes.ts:73-105 | the `forEach` leaves the community array equal to `Process` of its old contents over the users before the first out-of-range group, and throws the TypeError of reading `bb` of undefined exactly when there is such a user |
| BoundingBoxes.BoundingBoxes.AddUserAt | src/controllers/boundingBoxes.ts:76-103 | the body of the `forEach` for a user whose group indexes the array changes only that group's entry, to `AddUser` of its old value: a new box for the user's padded square coloured by the group, or the old box extended side by side to cover it |
| BoundingBoxes.BoundingBoxes.IsBoundingBoxClicked | src/controllers/boundingBoxes.ts:135-145 | the answer is the first community whose box strictly contains the point, with every earlier box missing it; null means none does; a community without a box is a TypeError |
| Nodes.PaletteAt | src/namespaces/nodes.ts:114-118 | a non-negative index reads the palette at the index modulo its length; a negative index reads nothing unless it is a multiple of the length |
| Nodes.GetColorOfN | src/namespaces/nodes.ts:114-118 | the background colour for value index n, taken from the eight background colours |
| Nodes.GetShapeOfN | src/namespaces/nodes.ts:125-129 | the shape for value index n, taken from the seven available shapes |
| Nodes.GetBorderOfN | src/namespaces/nodes.ts:136-140 | the border colour for value index n, taken from the eight border colours |
| Nodes.GettersPeriodic | src/namespaces/nodes.ts:75-140 | each getter is defined on every non-negative index and repeats with period 8, 7 and 8 |
| Nodes.NegativeIndexUndefined | src/namespaces/nodes.ts:114-140 | index -1 yields undefined for all three getters, while -8 yields the first colour |
| Nodes.DefaultShapeIsFirst | src/namespaces/nodes.ts:55-98 | the default shape is the shape of index 0 |
| DimensionMaps.FirstWhere | src/controllers/nodeDimensions/genericStrat.ts:24 | the first attribute satisfying the filter, or none when no attribute does |
| DimensionMaps.FirstWhereIsFirst | src/controllers/nodeDimensions/genericStrat.ts:24 | no attribute before the picked one satisfies the filter |
| DimensionMaps.FillMap | src/controllers/nodeDimensions/genericStrat.ts:40-45 | the loop of sets builds the map the specification function defines |
| DimensionMaps.MapOfGet | src/controllers/nodeDimensions/genericStrat.ts:40-45 | the filled map knows exactly the attribute's values; a repeated value maps to the dimension of its last index |
| DimensionMaps.MappedValueOfFilledMap | src/controllers/nodeDimensions/colorStrat.ts:22-28 | a user's value for the key maps to the dimension of its last index, and to nothing when it is not one of the values |
| ControllerStrats.KeyOf | src/controllers/nodeDimensions/genericStrat.ts:22-33 | no key exactly when no attribute has the dimension; otherwise the key of the first such attribute |
| ControllerStrats.ColorAppliedFacts | src/controllers/nodeDimensions/colorStrat.ts:21-37 | change sets the default flag and replaces the colour object, with the mapped colour when a key is set and the default colour otherwise; nothing else changes |
| ControllerStrats.ColorClearedFacts | src/controllers/nodeDimensions/colorStrat.ts:43-47 | toColorless throws exactly when there is no colour object; otherwise it clears the flag, sets the no-focus background and keeps the border |
| ControllerStrats.ShapeAppliedFacts | src/controllers/nodeDimensions/shapeStrat.ts:21-50 | a mapped value sets the shape and both label offsets, an unmapped value leaves the record alone, no key gives the default shape; only shape and font change |
| ControllerStrats.ColorStrategy.constructor | src/controllers/nodeDimensions/colorStrat.ts:13-15 | the key and map are those of the first colour attribute, filled from the colour palette |
| ControllerStrats.ColorStrategy.Change | src/controllers/nodeDimensions/colorStrat.ts:21-37 | the record's visual fields become those of the colour rule |
| ControllerStrats.ColorStrategy.ToColorless | src/controllers/nodeDimensions/colorStrat.ts:43-47 | the record becomes the colourless one, or, on the TypeError, keeps only the cleared flag |
| ControllerStrats.ShapeStrategy.constructor | src/controllers/nodeDimensions/shapeStrat.ts:13-15 | the key and map are those of the first shape attribute, filled from the shape palette |
| ControllerStrats.ShapeStrategy.Change | src/controllers/nodeDimensions/shapeStrat.ts:21-50 | the shape rule is applied and the size is always reset to 20 |
| ControllerStrats.ShapeStrategy.ToColorless | src/controllers/nodeDimensions/shapeStrat.ts:56 | the record is unchanged |
| ControllerStrategies.KeyOf | src/controllers/nodeDimensions/dimensionStrat.ts:10-21 | no key exactly when no attribute has the dimension; otherwise the key of the first attribute with it |
| ControllerStrategies.ColorChangedFacts | src/controllers/nodeDimensions/colorStrategy.ts:14-33 | change zeroes both border widths, sets the default flag and the colour object, with the mapped or the default background; nothing else changes |
| ControllerStrategies.BorderChangedFacts | src/controllers/nodeDimensions/borderStrategy.ts:12-28 | change throws exactly when there is no colour object; otherwise it keeps the background and sets the mapped border with the coloured widths, or "transparent" with the plain widths |
| ControllerStrategies.BorderClearedFacts | src/controllers/nodeDimensions/borderStrategy.ts:30-32 | toColorless throws exactly without a colour object; otherwise it writes the no-focus border colour into the background and keeps the border |
| ControllerStrategies.ColorStrategy.constructor | src/controllers/nodeDimensions/colorStrategy.ts:9-11 | the key and map are those of the first colour attribute |
| ControllerStrategies.ColorStrategy.Change | src/controllers/nodeDimensions/colorStrategy.ts:14-33 | the record's visual fields become those of the colour rule with zero border widths |
| ControllerStrategies.ColorStrategy.ToColorless | src/controllers/nodeDimensions/colorStrategy.ts:35-39 | the record becomes the colourless one, or keeps only the cleared flag on the TypeError |
| ControllerStrategies.ShapeStrategy.constructor | src/controllers/nodeDimensions/shapeStrategy.ts:8-10 | the key and map are those of the first shape attribute |
| ControllerStrategies.ShapeStrategy.Change | src/controllers/nodeDimensions/shapeStrategy.ts:13-40 | the shape rule is applied without touching the size |
| ControllerStrategies.ShapeStrategy.ToColorless | src/controllers/nodeDimensions/shapeStrategy.ts:42 | the record is unchanged |
| ControllerStrategies.BorderStrategy.constructor | src/controllers/nodeDimensions/borderStrategy.ts:8-10 | the key and map are those of the first border attribute |
| ControllerStrategies.BorderStrategy.Change | src/controllers/nodeDimensions/borderStrategy.ts:12-28 | the record becomes the border rule's result, or is left untouched on the TypeError |
| ControllerStrategies.BorderStrategy.ToColorless | src/controllers/nodeDimensions/borderStrategy.ts:30-32 | the record becomes the border-clearing result, or is untouched on the TypeError |
| ManagerStrats.AttributeOf | src/managers/nodeDimensions/genericStrat.ts:24 | the picked attribute is the first one in the list with the dimension; none exactly when no attribute has the dimension |
| ManagerStrats.ColorChangedFacts | src/managers/nodeDimensions/colorStrat.ts:21-35 | change replaces the colour object, dropping any border; the background is the mapped colour exactly when the attribute is active and the user is not anonymous, else the default colour |
| ManagerStrats.ColorColorlessFacts | src/managers/nodeDimensions/colorStrat.ts:41-52 | toColorless leaves anonymous users alone and otherwise sets only the background to the no-focus colour, keeping an existing border |
| ManagerStrats.ColorStrategy.constructor | src/managers/nodeDimensions/colorStrat.ts:13-15 | the attribute is the first colour attribute and the map is filled from it |
| ManagerStrats.ColorStrategy.Change | src/managers/nodeDimensions/colorStrat.ts:21-35 | the record's visual fields become those of the colour rule |
| ManagerStrats.ColorStrategy.ToColorless | src/managers/nodeDimensions/colorStrat.ts:41-52 | the record's visual fields become those of the colourless rule |
| ManagerStrats.ShapeChangedFacts | src/managers/nodeDimensions/shapeStrat.ts:21-68 | the anonymous group and an inactive attribute get the default shape, other anonymous users the unknown-user image, the rest their mapped shape; the size rule always holds and colour and border are untouched |
| ManagerStrats.AnonymousSizeIncrease | src/managers/nodeDimensions/shapeStrat.ts:59-67 | an anonymous user is larger than the same user not anonymous by exactly the anonymous size increase |
| ManagerStrats.ShapeStrategy.constructor | src/managers/nodeDimensions/shapeStrat.ts:13-15 | the attribute is the first shape attribute and the map is filled from it |
| ManagerStrats.ShapeStrategy.Change | src/managers/nodeDimensions/shapeStrat.ts:21-68 | the record's visual fields become those of the shape rule |
| ManagerStrats.ShapeStrategy.ToColorless | src/managers/nodeDimensions/shapeStrat.ts:74-80 | the size is reset (with the anonymous increase) and a single anonymous user gets the colourless image |
| ManagerStrats.BorderChangedFacts | src/managers/nodeDimensions/borderStrat.ts:21-48 | change throws exactly without a colour object; otherwise it keeps the background and sets the mapped border when active, else black; an active border is 4 wide selected or not, an inactive unfocused one 0 |
| ManagerStrats.BorderStrategy.constructor | src/managers/nodeDimensions/borderStrat.ts:13-15 | the attribute is the first border attribute and the map is filled from it |
| ManagerStrats.BorderStrategy.Change | src/managers/nodeDimensions/borderStrat.ts:21-48 | the record becomes the border rule's result, or is untouched on the TypeError |
| ManagerStrats.BorderStrategy.ToColorless | src/managers/nodeDimensions/borderStrat.ts:54-61 | the record becomes the colourless border result, or is untouched on the TypeError |
| NodeDimensionStrat.DefaultColorsAndWidth | src/managers/nodeDimensionStrat.ts:48-52 | after nodeToDefault the background is the colour strategy's, the border colour the border strategy's, and the width never takes the focused-and-enlarged value |
| NodeDimensionStrat.DefaultIdempotent | src/managers/nodeDimensionStrat.ts:48-52 | nodeToDefault applied twice equals once |
| NodeDimensionStrat.ColorlessThrowsOnlyForUncoloredAnonymous | src/managers/nodeDimensionStrat.ts:58-62 | nodeToColorless throws exactly for an anonymous user without a colour object |
| NodeDimensionStrat.ColorlessIdempotent | src/managers/nodeDimensionStrat.ts:58-62 | nodeToColorless applied twice equals once |
| NodeDimensionStrat.DefinedAttributes | src/managers/nodeDimensionStrat.ts:68-78 | the collected attributes are the defined ones, in broadcast order, at most three |
| NodeDimensionStrat.EmptyValueRejectedAsWritten | src/managers/nodeDimensionStrat.ts:100-105 | as written, an attribute list holding the value "" is rejected even when compared with itself; the as-written check never accepts what the intended one rejects |
| NodeDimensionStrat.AsWrittenAgreesWithoutEmptyValues | src/managers/nodeDimensionStrat.ts:86-114 | without empty-string values the as-written and the intended checks agree |
| NodeDimensionStrat.FindByKey | src/managers/nodeDimensionStrat.ts:94-96 | the search loop returns the first attribute with the key |
| NodeDimensionStrat.NodeDimensionStrategy.constructor | src/managers/nodeDimensionStrat.ts:27-42 | builds the three strategies from the attributes, keeps the list and sends one legend action with it |
| NodeDimensionStrat.NodeDimensionStrategy.NodeToDefault | src/managers/nodeDimensionStrat.ts:48-52 | the record becomes the result of colour, shape and border change in order |
| NodeDimensionStrat.NodeDimensionStrategy.NodeToColorless | src/managers/nodeDimensionStrat.ts:58-62 | the record becomes the colourless result, and the error is the border step's TypeError |
| NodeDimensionStrat.NodeDimensionStrategy.ToggleBorderStat | src/managers/nodeDimensionStrat.ts:68-84 | only the border attribute's active flag changes, and the defined attributes are sent to the legend |
| NodeDimensionStrat.NodeDimensionStrategy.CheckAttrDiferences | src/managers/nodeDimensionStrat.ts:86-114 | as intended (the corrected half of the second finding, which differs from the code only on the value ""): true exactly when the new list is non-empty and every new attribute's key is known with all its values among the known ones |
| NodeDimensionStat.NodeDimensionStrategy.constructor | src/managers/nodeDimensionStat.ts:25-35 | builds the three strategies and passes the attribute list to the legend callback |
| NodeDimensionStat.NodeDimensionStrategy.NodeToDefault | src/managers/nodeDimensionStat.ts:41-45 | the record becomes the result of colour, shape and border change in order |
| NodeDimensionStat.NodeDimensionStrategy.NodeToColorless | src/managers/nodeDimensionStat.ts:51-55 | the record becomes the colourless result, and the error is the border step's TypeError |
| NodeDimensionStat.NodeDimensionStrategy.ToggleBorderStat | src/managers/nodeDimensionStat.ts:61-74 | only the border attribute's active flag changes, and the defined attributes go to the legend callback |
| NodeExplicitComms.AddValueFacts | src/controllers/nodeExplicitComms.ts:56-71 | after `updateExplicitData` the key holds the value, appended at the end of its values only when new; a new key starts with just that value; every other key keeps its values; the key list grows only by the new key, at its end |
| NodeExplicitComms.AddValueShape | src/controllers/nodeExplicitComms.ts:56-71 | entry by entry, `updateExplicitData` keeps an entry, appends the value to an entry that lacked it, or adds one last entry `(key, [value])`, and nothing else |
| NodeExplicitComms.AddValueKeepsKeysDistinct | src/controllers/nodeExplicitComms.ts:61-69 | `updateExplicitData` never collects the same key twice |
| NodeExplicitComms.AddValueKeepsWellCollected | src/controllers/nodeExplicitComms.ts:63-68 | `updateExplicitData` keeps keys distinct and each key's values free of repeats |
| NodeExplicitComms.AddValueGrows | src/controllers/nodeExplicitComms.ts:56-71 | no key-value pair collected before is lost |
| NodeExplicitComms.AddValueSkip | src/controllers/nodeExplicitComms.ts:61 | the search passes over an entry with another key without changing it |
| NodeExplicitComms.AddValueFound | src/controllers/nodeExplicitComms.ts:63-66 | the entry the search stops at takes the value unless it already has it |
| NodeExplicitComms.CountedIncrementsOne | src/controllers/nodeExplicitComms.ts:73-94 | `updateCommunitiesData` adds one to the count of the user's value for the key in the user's community (starting from 1 where there was no map or no entry) and changes no other count |
| NodeExplicitComms.CollectedAllContains | src/controllers/nodeExplicitComms.ts:41-54 | after a user is parsed without a dimension strategy, each of its key-value pairs is collected and everything collected before is kept |
| NodeExplicitComms.CountedAllCountsEachPairOnce | src/controllers/nodeExplicitComms.ts:41-54 | parsing a user adds one to the count of each of its key-value pairs in its community, and changes no other count |
| NodeExplicitComms.NodeExplicitComms.constructor | src/controllers/nodeExplicitComms.ts:36-39 | the controller starts with no explicit data and the given community data |
| NodeExplicitComms.NodeExplicitComms.ParseExplicitCommunity | src/controllers/nodeExplicitComms.ts:41-54 | the explicit data collects each of the user's pairs, in key order, only when no dimension strategy is defined; the community data counts each of them always; a user with keys whose implicit community does not index the community data throws a TypeError at its first key, after that key alone was collected and with no count changed |
| NodeExplicitComms.NodeExplicitComms.UpdateExplicitData | src/controllers/nodeExplicitComms.ts:56-71 | the explicit data becomes `AddValue` of the old data with the user's value for the key, the community data unchanged |
| NodeExplicitComms.NodeExplicitComms.UpdateCommunitiesData | src/controllers/nodeExplicitComms.ts:73-94 | the community data gets the one increment `Counted` describes, or, when the user's implicit community does not index it, the TypeError of reading `explicitCommunity` of undefined with nothing changed; the explicit data is unchanged |
| NodeExplicitComms.NodeExplicitComms.CountOne | src/controllers/nodeExplicitComms.ts:76-92 | the three branches of `updateCommunitiesData` (no object yet, no map for the key yet, a map) give the counts `CountedIn` describes, whose meaning `CountedIncrementsOne` states: one more for the value under the key |
| NodeVisualsCtrl.AnonymousUserShownAsWritten | src/controllers/nodeVisualsCtrl.ts:237-239 | with the legend hiding anonymous users, an anonymous user with no explicit community is hidden by the intended check but shown by the check as written; the two agree on users that are not anonymous |
| NodeVisualsCtrl.AttributesOf | src/controllers/nodeVisualsCtrl.ts:64-95 | the strategy's attributes are the first up to three explicit keys in order, with their values, as colour, shape and border; colour and shape are active, the border follows the border option |
| NodeVisualsCtrl.StrategyFollowsExplicitData | src/controllers/nodeVisualsCtrl.ts:64-95 | the strategy built from the explicit data has the first key as its colour attribute, the second as shape and the third as border, each absent when there are too few keys |
| NodeVisualsCtrl.LabelledFacts | src/controllers/nodeVisualsCtrl.ts:120-139 | the label colour is transparent exactly when labels are hidden, the label offsets and the rest of the node are kept, and the last call decides |
| NodeVisualsCtrl.SelectedLookFacts | src/controllers/nodeVisualsCtrl.ts:161-178 | a node the legend does not hide and that is selected or focused gets its default look (focused only when not selected); only an anonymous node without a colour can throw. This uses the corrected legend test of the third finding, so an anonymous user is hidden here when the legend hides anonymous users, which the code as written never does. |
| NodeVisualsCtrl.ExistingMembers | src/controllers/nodeVisualsCtrl.ts:159-182 | an id is returned exactly when some node with it is not hidden by the legend, not selected, and focused. This uses the corrected legend test of the third finding, so an anonymous user is hidden here when the legend hides anonymous users, which the code as written never does. |
| NodeVisualsCtrl.NodeVisualsCtrl.constructor | src/controllers/nodeVisualsCtrl.ts:42-55 | a new strategy, built from the explicit data, is made exactly when none is given or the view is unique; otherwise the given one is kept; the legend comes from the options and the selection starts empty |
| NodeVisualsCtrl.NodeVisualsCtrl.CreateDimensionStrategy | src/controllers/nodeVisualsCtrl.ts:64-95 | the new strategy's attributes are `AttributesOf` the explicit data and it sends them to the legend once |
| NodeVisualsCtrl.NodeVisualsCtrl.IsHidedByLegend | src/controllers/nodeVisualsCtrl.ts:222-242 | as intended (the corrected half of the third finding, which differs from the code only on anonymous users): the node is hidden exactly when the legend hides one of its key-value pairs, or it is anonymous and the legend hides anonymous users |
| NodeVisualsCtrl.NodeVisualsCtrl.UpdateNodeLabel | src/controllers/nodeVisualsCtrl.ts:120-139 | the node's look becomes `Labelled` of the old look: only the label colour changes |
| NodeVisualsCtrl.NodeVisualsCtrl.ColoredNodeVisuals | src/controllers/nodeVisualsCtrl.ts:210-212 | the node gets the strategy's default look, not focused |
| NodeVisualsCtrl.NodeVisualsCtrl.FocusedNodeVisuals | src/controllers/nodeVisualsCtrl.ts:214-216 | the node gets the strategy's default look, focused |
| NodeVisualsCtrl.NodeVisualsCtrl.HideNodeVisuals | src/controllers/nodeVisualsCtrl.ts:218-220 | the node gets the strategy's colourless look, and the call fails exactly when that look throws |
| NodeVisualsCtrl.NodeVisualsCtrl.SetNodeInitialVisuals | src/controllers/nodeVisualsCtrl.ts:97-105 | a node the legend hides is made colourless and any other coloured, then its label follows the option; a throw stops it before the label. This uses the corrected legend test of the third finding, so an anonymous user is hidden here when the legend hides anonymous users, which the code as written never does. |
| NodeVisualsCtrl.NodeVisualsCtrl.ToggleNodeLabels | src/controllers/nodeVisualsCtrl.ts:107-118 | every node of the data set gets the label colour of the option and nothing else changes |
| NodeVisualsCtrl.NodeVisualsCtrl.SelectNodes | src/controllers/nodeVisualsCtrl.ts:150-183 | the selection, focus and (when given) legend are stored; on success every node has its selected look and the result lists the ids shown in focus in data set order; on a throw, the first failing node is named, the nodes before it have their look and the ones after it are untouched. This uses the corrected legend test of the third finding, so an anonymous user is hidden here when the legend hides anonymous users, which the code as written never does. |
| NodeVisualsCtrl.NodeVisualsCtrl.SelectAll | src/controllers/nodeVisualsCtrl.ts:161-178 | the loop over the nodes gives every node its selected look and collects the ids shown in focus, or stops at the first node whose look throws. This uses the corrected legend test of the third finding, so an anonymous user is hidden here when the legend hides anonymous users, which the code as written never does. |
| NodeVisualsCtrl.NodeVisualsCtrl.SelectNode | src/controllers/nodeVisualsCtrl.ts:162-175 | one node gets the colourless look when hidden by the legend, the coloured look when selected, the focused look when focused, and is colourless otherwise; it is reported exactly in the focused case. This uses the corrected legend test of the third finding, so an anonymous user is hidden here when the legend hides anonymous users, which the code as written never does. |
| NodeVisualsCtrl.NodeVisualsCtrl.ColorAllNodes | src/controllers/nodeVisualsCtrl.ts:190-208 | selection and focus are cleared, the legend is stored when given, and every node is coloured unless the legend hides it; a throw stops the loop at the first failing node with the later nodes untouched. This uses the corrected legend test of the third finding, so an anonymous user is hidden here when the legend hides anonymous users, which the code as written never does. |
| NodeVisualsCtrl.NodeVisualsCtrl.ColorNode | src/controllers/nodeVisualsCtrl.ts:198-202 | one node is made colourless when the legend hides it and coloured otherwise. This uses the corrected legend test of the third finding, so an anonymous user is hidden here when the legend hides anonymous users, which the code as written never does. |
| EdgeStore.RemoveIds | src/controllers/edgeVisualsCtrl.ts:217 | removing ids from the data set leaves exactly the edges whose id is not listed |
| EdgeStore.RemoveIdsKeepsUnique | src/controllers/edgeVisualsCtrl.ts:217 | removing edges keeps the data set's ids distinct |
| EdgeStore.BelowIdsMembers | src/controllers/edgeVisualsCtrl.ts:210-215 | an id is collected for deletion exactly when an edge with it has a defined weight below the new threshold |
| EdgeStore.RemovesExactlyBelow | src/controllers/edgeVisualsCtrl.ts:207-217 | raising the threshold removes exactly the edges below it and keeps ids distinct |
| EdgeStore.ToAddMembers | src/controllers/edgeVisualsCtrl.ts:220-234 | a base edge is added back exactly when it is not below the threshold, not present, and no earlier base edge at or above the threshold was present (the `break`) |
| EdgeStore.ToAddKeepsUnique | src/controllers/edgeVisualsCtrl.ts:223-234 | the edges added back come from the base edges, in base order, with distinct ids |
| EdgeStore.LoweringKeepsUnique | src/controllers/edgeVisualsCtrl.ts:219-237 | lowering the threshold adds only edges that were absent, so the data set keeps distinct ids |
| EdgeStore.ThresholdedFacts | src/controllers/edgeVisualsCtrl.ts:206-240 | a higher threshold leaves exactly the old edges not below it; a lower or equal one keeps every old edge in place and appends only absent base edges that are not below it |
| EdgeStore.SelectFacts | src/controllers/edgeVisualsCtrl.ts:78-115 | after selecting a node, exactly its incident edges are selected, shown and given the selected colour; the other edges are hidden exactly when unselected edges are hidden; every returned node is a neighbour |
| EdgeStore.UnselectFacts | src/controllers/edgeVisualsCtrl.ts:154-171 | after unselecting, nothing is selected, every edge is hidden exactly when unselected edges are hidden, and shown edges get the unselected colour |
| EdgeStore.ToggleFacts | src/controllers/edgeVisualsCtrl.ts:177-198 | after the toggle, selected edges are shown and keep their colour, the others are hidden exactly when the new flag is set |
| EdgeStore.SelectLoop | src/controllers/edgeVisualsCtrl.ts:83-110 | the loop rewrites each edge as `Selected` says and collects the incident edges' ids and the other ends, in data set order |
| EdgeStore.SelectEdge | src/controllers/edgeVisualsCtrl.ts:84-107 | one edge gets the selected look and is shown when incident, else it is hidden or shown with the unselected look by the flag |
| EdgeStore.IncidentsStep | src/controllers/edgeVisualsCtrl.ts:84-98 | one more edge extends the selected ids and the returned nodes by its own entry exactly when it is incident |
| EdgeStore.UnselectLoop | src/controllers/edgeVisualsCtrl.ts:158-168 | the loop leaves the data set as `Unselected` of the old one |
| EdgeStore.ToggleLoop | src/controllers/edgeVisualsCtrl.ts:181-196 | the loop leaves the data set as `Toggled` of the old one |
| EdgeStore.BelowLoop | src/controllers/edgeVisualsCtrl.ts:210-215 | the loop collects exactly the ids of the edges below the threshold, in order |
| EdgeStore.ToAddLoop | src/controllers/edgeVisualsCtrl.ts:223-234 | the loop collects the base edges to add back, skipping those below the threshold and stopping at the first one already present |
| EdgeStore.ToAddStep | src/controllers/edgeVisualsCtrl.ts:225-232 | one step of the loop: skip a low edge, stop at a present one, keep any other |
| EdgeStore.WidthScaledFacts | src/controllers/edgeVisualCtrl.ts:145-155 | the width toggle touches only a defined maximum, which becomes the maximum or minimum width by the flag; the minimum is kept and the last call decides |
| EdgeVisualsCtrl.EdgeVisualsCtrl.constructor | src/controllers/edgeVisualsCtrl.ts:37-46 | the controller keeps the edges, base edges, hide option and threshold, with nothing selected |
| EdgeVisualsCtrl.EdgeVisualsCtrl.SelectEdges | src/controllers/edgeVisualsCtrl.ts:78-115 | the selection becomes the ids of the edges incident to the node, those edges get the selected look and are shown, the rest follow the hide flag, and the other ends are returned |
| EdgeVisualsCtrl.EdgeVisualsCtrl.UnselectEdges | src/controllers/edgeVisualsCtrl.ts:154-171 | the selection is emptied and every edge is hidden exactly when unselected edges are hidden |
| EdgeVisualsCtrl.EdgeVisualsCtrl.ToggleHideEdges | src/controllers/edgeVisualsCtrl.ts:177-198 | the flag is stored; selected edges stay shown and the others are hidden exactly when it is set |
| EdgeVisualsCtrl.EdgeVisualsCtrl.UpdateEdgesThreshold | src/controllers/edgeVisualsCtrl.ts:206-240 | the data set becomes `Thresholded` on the edges' similarity, with distinct ids, and the threshold is stored |
| EdgeVisualCtrl.EdgeVisualsCtrl.constructor | src/controllers/edgeVisualCtrl.ts:21-30 | the controller keeps the edges, base edges, hide option and threshold, with nothing focused |
| EdgeVisualCtrl.EdgeVisualsCtrl.SelectEdges | src/controllers/edgeVisualCtrl.ts:60-97 | the focused edges become those incident to the node, which get the selected look and are shown; the rest follow the hide flag; the other ends are returned |
| EdgeVisualCtrl.EdgeVisualsCtrl.UnselectEdges | src/controllers/edgeVisualCtrl.ts:125-142 | nothing stays focused and every edge is hidden exactly when unselected edges are hidden |
| EdgeVisualCtrl.EdgeVisualsCtrl.ToggleHideEdges | src/controllers/edgeVisualCtrl.ts:157-178 | the flag is stored; focused edges stay shown and the others are hidden exactly when it is set |
| EdgeVisualCtrl.EdgeVisualsCtrl.ToggleEdgeWidth | src/controllers/edgeVisualCtrl.ts:145-155 | a defined scaling maximum becomes the maximum width when the option is on and the minimum width otherwise; options without one are unchanged |
| EdgeVisualCtrl.EdgeVisualsCtrl.UpdateEdgesThreshold | src/controllers/edgeVisualCtrl.ts:180-213 | the data set becomes `Thresholded` on the edges' value, with distinct ids, and the threshold is stored |
| EdgeVisuals.HiddenUnselectedFacts | src/controllers/edgeVisuals.ts:67-97 | only the `hidden` flags change: with a non-empty selection, selected edges are shown and the others hidden exactly when edges are hidden; without one, every edge is hidden exactly when edges are hidden |
| EdgeVisuals.EdgeVisuals.constructor | src/controllers/edgeVisuals.ts:26-34 | the edges are narrowed, the hide option is applied with no selection, and the options' width follows the width option |
| EdgeVisuals.EdgeVisuals.NarrowEdges | src/controllers/edgeVisuals.ts:39-47 | exactly the edges with a defined value below the narrowing limit are removed, ids stay distinct |
| EdgeVisuals.EdgeVisuals.ChangeEdgeWidth | src/controllers/edgeVisuals.ts:54-61 | a defined scaling maximum becomes the maximum width when the option is on and the minimum width otherwise |
| EdgeVisuals.EdgeVisuals.HideLoop | src/controllers/edgeVisuals.ts:73-95 | the two loops leave the data set as `HiddenUnselected` of the old one |
| EdgeVisuals.EdgeVisuals.HideUnselectedEdges | src/controllers/edgeVisuals.ts:67-97 | the flag is stored, the selection is kept, and the edges' visibility becomes `HiddenUnselected` |
| EdgeVisuals.EdgeVisuals.SelectEdges | src/controllers/edgeVisuals.ts:103-109 | the selection is stored, and visibility is recomputed only when edges are hidden |
| EdgeVisuals.EdgeVisuals.UnselectEdges | src/controllers/edgeVisuals.ts:114-120 | the selection is cleared; when edges are hidden every edge ends hidden, otherwise nothing changes |
| Slider.GetContent | src/basicComponents/Slider.tsx:108-115 | no content gives an empty caption; without a unit the caption is the content and the value, with "0" and "1" widened to "0.0" and "1.0" |
| Slider.UnitCaption | src/basicComponents/Slider.tsx:114 | with a unit the "0" branch is the general one: the caption is always content, value and unit separated by spaces |
| TresholdSlider.GetContent | src/basicComponents/tresholdSlider.tsx:69-75 | no content gives an empty caption; without a unit any value other than "0" and "1" follows the content unchanged |
| TresholdSlider.AgreesWithSlider | src/basicComponents/tresholdSlider.tsx:69-75 | the threshold slider's caption equals the slider's on every input |
| BarPortion.BackgroundColor | src/basicComponents/BarPortion.tsx:108-130 | the Color dimension takes the palette colour of the index; there is no colour only outside Color and Shape when the order's remainder by 3 is negative |
| BarPortion.TextColor | src/basicComponents/BarPortion.tsx:133-156 | the text is white or black: white for the first Color index, and outside Color and Shape white exactly when the order's remainder by 3 is 1 |
| BarPortion.Symbol | src/basicComponents/BarPortion.tsx:159-175 | a figure is drawn exactly in the Shape dimension, with the shape of the index |
| BarPortion.HoverText | src/basicComponents/BarPortion.tsx:96 | an empty label reads "(empty)" followed by the percentage; any other label starts the text |
| BarPortion.ShapeTextContrasts | src/basicComponents/BarPortion.tsx:113-115 | in the Shape dimension background and text are black and white and always differ, and the figure has the text colour |
| BarPortion.DefaultColorsCycle | src/basicComponents/BarPortion.tsx:116-127 | outside Color and Shape, orders three apart look the same, and non-negative orders cycle yellow, red, blue |
| DataColumn.IsAllZero | src/components/DataColumn.tsx:408-418 | true exactly when every count is zero; false names a non-zero count |
| DropMenu.Clicked | src/basicComponents/DropMenu.tsx:123-138 | with `buttonFixatesState`, the click closes and unfixates an open fixated menu and opens and fixates it in every other state; without it the click does nothing |
| DropMenu.Hovered | src/basicComponents/DropMenu.tsx:101-107 | hovering never changes the fixation, and sets the shown flag to the hover direction only when hovering changes the state and the menu is not fixated |
| DropMenu.DocumentClicked | src/basicComponents/DropMenu.tsx:194-218 | a click outside the component while the listener is registered (the menu is shown and outside clicks close it) closes and unfixates the menu; any other click changes nothing |
| DropMenu.EventsKeepFixatedShown | src/basicComponents/DropMenu.tsx:88-138 | no event leaves a fixated menu hidden |
| DropMenu.ClickSequences | src/basicComponents/DropMenu.tsx:123-138 | two clicks from the closed menu close it again; a click on a menu opened by hovering fixates it and the next click closes it |
| DropMenu.FixatedIgnoresHover | src/basicComponents/DropMenu.tsx:101-107 | a fixated menu is unaffected by hovering |
| DropMenu.ExtraMenuStyle | src/basicComponents/DropMenu.tsx:220-241 | the menu is displayed as `flex` exactly when shown and `none` otherwise, and gets a top margin exactly when it opens to the right |
| DropMenu.DropMenu.constructor | src/basicComponents/DropMenu.tsx:73-92 | the component keeps its props and starts closed and not fixated |
| DropMenu.DropMenu.OnClick | src/basicComponents/DropMenu.tsx:123-138 | the menu state becomes `Clicked` of the old one |
| DropMenu.DropMenu.OnHover | src/basicComponents/DropMenu.tsx:101-107 | the menu state becomes `Hovered` of the old one |
| DropMenu.DropMenu.OnDocumentClick | src/basicComponents/DropMenu.tsx:196-201 | the menu state becomes `DocumentClicked` of the old one |
| DropMenu.DropMenu.MainButtonState | src/basicComponents/DropMenu.tsx:110-112 | a given `state` prop wins; otherwise the button is active exactly while the menu is shown and unactive otherwise |
| DropMenu.DropMenu.Render | src/basicComponents/DropMenu.tsx:109-183 | without items only a disabled button is rendered; otherwise the main button has `MainButtonState`, the menu is displayed exactly while shown, and it is wrapped in a row exactly when it opens to the right |
| FileSourceDropdown.Init | src/components/FileSourceDropdown.tsx:115-122 | one state per file source, the initial source active and every other unactive |
| FileSourceDropdown.ChangeThenLoaded | src/components/FileSourceDropdown.tsx:55-76 | changing source makes it the only loading entry, and the completion callback then gives exactly the states `init` would give for that source, whatever the states were before |
| FileSourceDropdown.FileSourceDropdown.constructor | src/components/FileSourceDropdown.tsx:45-53 | the menu starts with the states of `init` for the current source |
| FileSourceDropdown.FileSourceDropdown.ChangeFileSource | src/components/FileSourceDropdown.tsx:55-63 | the loading panel is shown with the request text and the source's name, and the source becomes the only loading entry |
| FileSourceDropdown.FileSourceDropdown.FilesLoaded | src/components/FileSourceDropdown.tsx:65-73 | the loading panel is hidden and the source becomes the only active entry |
| FileSourceDropdown.FileSourceDropdown.ApiButtonClicked | src/components/FileSourceDropdown.tsx:142-146 | without an input field nothing changes; with one the API source starts loading |
| AllVisirOptions.InitOptions | src/components/AllVisirOptions.tsx:179-186 | two entries, labels then edges, each active exactly when its option is on and unactive otherwise |
| AllVisirOptions.OptionClickedFacts | src/components/AllVisirOptions.tsx:91-105 | only the clicked entry changes; a loading entry, or a dispatch that throws, leaves it as it was; otherwise active and unactive swap, so two clicks restore it |
| AllVisirOptions.AllVisirOptions.constructor | src/components/AllVisirOptions.tsx:51-88 | the file-source states are those of `init` for the current source and the option states those of `initOptions` |
| AllVisirOptions.AllVisirOptions.ChangeFileSource | src/components/AllVisirOptions.tsx:54-61 | the new source becomes the only loading entry; the option states are untouched |
| AllVisirOptions.AllVisirOptions.FileSourceLoaded | src/components/AllVisirOptions.tsx:62-68 | the source becomes the only active entry |
| AllVisirOptions.AllVisirOptions.OnOptionClicked | src/components/AllVisirOptions.tsx:91-105 | the option states become `OptionClicked` of the old ones; the file-source states are untouched |
| LayoutDropdown.FillStates | src/components/LayoutDropdown.tsx:31-33 | exactly the given layout is active and the other inactive |
| LayoutDropdown.ClickedKeepsOneSelected | src/components/LayoutDropdown.tsx:28-38 | after any click exactly the clicked layout is selected; clicking the selected layout changes nothing |
| LayoutDropdown.LayoutDropdown.constructor | src/components/LayoutDropdown.tsx:66-71 | the dropdown starts with only the initial layout active and nothing reported |
| LayoutDropdown.LayoutDropdown.ChangeLayout | src/components/LayoutDropdown.tsx:28-38 | an inactive layout becomes the only active one and is reported to the application; an active one changes nothing |
| PerspectiveIds.FirstHolder | src/components/SelectPerspectiveDropdown.tsx:118-124 | the result is the first entry shown on the side, or none when no entry from the start position is |
| SelectPerspectiveDropdown.InitialStatesFacts | src/components/SelectPerspectiveDropdown.tsx:56-78 | one state per perspective: active exactly when it is on the dropdown's side, disabled exactly when on the other side, unactive otherwise; with at most one perspective per side, at most one entry is active |
| SelectPerspectiveDropdown.DeactivatedFacts | src/components/SelectPerspectiveDropdown.tsx:135-140 | hiding a perspective changes only its entry, which ends on no side |
| SelectPerspectiveDropdown.ActivatedFacts | src/components/SelectPerspectiveDropdown.tsx:153-161 | a loaded perspective takes the dropdown's side, the one that held it before ends on no side, everything else is kept, and at most one perspective holds the side |
| SelectPerspectiveDropdown.SelectPerspectiveDropdown.constructor | src/components/SelectPerspectiveDropdown.tsx:52 | the dropdown starts with no entries |
| SelectPerspectiveDropdown.SelectPerspectiveDropdown.InitStates | src/components/SelectPerspectiveDropdown.tsx:56-78 | for a defined list the states become `InitialStates` of it; an undefined list changes nothing |
| SelectPerspectiveDropdown.SelectPerspectiveDropdown.Click | src/components/SelectPerspectiveDropdown.tsx:134-168 | an active entry hides its perspective and clears the active one; an unactive entry starts loading and requests its file; disabled and loading entries do nothing |
| SelectPerspectiveDropdown.SelectPerspectiveDropdown.RequestDone | src/components/SelectPerspectiveDropdown.tsx:153-166 | a successful request puts the perspective on the dropdown's side in place of the old one; a failed one returns the entry to unactive |
| SavePerspectives.FilledWithFacts | src/components/SavePerspectives.tsx:203-212 | the filled map has exactly the listed ids as keys, each with the given value, and no key twice |
| SavePerspectives.Chosen | src/components/SavePerspectives.tsx:151-155 | a perspective is acted on exactly when it is in the list and its row is picked |
| SavePerspectives.NothingPickedNothingChosen | src/components/SavePerspectives.tsx:123-127 | with no row picked, the download and delete buttons act on nothing |
| SavePerspectives.FilledChoice | src/components/SavePerspectives.tsx:104-113 | a fresh panel acts on nothing, and after toggling all on it acts on every listed perspective |
| SavePerspectives.RowToggleFacts | src/components/SavePerspectives.tsx:189-194 | a row click flips only that id, an absent id counting as unpicked |
| SavePerspectives.FillStates | src/components/SavePerspectives.tsx:203-212 | the loop builds the map with every listed id set to the value |
| SavePerspectives.ChosenLoop | src/components/SavePerspectives.tsx:151-155 | the loop collects the picked perspectives in list order |
| SavePerspectives.SavePerspectives.constructor | src/components/SavePerspectives.tsx:69-70 | every row starts unpicked and the toggle off |
| SavePerspectives.SavePerspectives.ToggleAll | src/components/SavePerspectives.tsx:104-113 | every listed id is set to the opposite of the toggle, and the toggle flips |
| SavePerspectives.SavePerspectives.ToggleRow | src/components/SavePerspectives.tsx:189-194 | only the clicked row's id flips |
| SavePerspectives.SavePerspectives.Download | src/components/SavePerspectives.tsx:149-158 | the configuration of exactly the picked perspectives is requested, in list order, and the panel closes |
| SavePerspectives.SavePerspectives.Delete | src/components/SavePerspectives.tsx:121-142 | when confirmed, exactly the picked perspectives are deleted in list order, the files are reloaded and the panel closes; otherwise nothing happens |
| App.InitialIdsFacts | src/App.tsx:97-123 | each perspective keeps its id and name; it is on the left exactly when it is the first URL id, on the right exactly when it is the second and that differs from the first; with distinct ids at most one is on each side |
| App.DropdownsAfterInit | src/App.tsx:97-123 | after the list is initialised, the left dropdown shows the first URL perspective as active, the right one shows it as disabled and shows the second as active |
| App.RequestsOf | src/App.tsx:104-112 | a file is requested only for perspectives placed on a side, with that side |
| App.RequestsSnoc | src/App.tsx:102-117 | one more perspective adds its own request exactly when it is placed on a side |
| App.CollapseButtonState | src/App.tsx:202 | the collapse buttons are clickable exactly when both halves hold a perspective, and disabled otherwise |
| App.CollapseClickFacts | src/App.tsx:193-215 | with a half empty the collapse buttons change nothing; with both full a click collapses to its side and the other button then undoes it |
| App.NavbarFacts | src/App.tsx:135-326 | every layout has the file source, options, both selectors, both collapse buttons and the legend; the hamburger appears exactly below the larger width, the main button and configuration tool button exactly at or above it, and the selectors go into the hamburger exactly below the smaller width |
| App.TooSmallControls | src/App.tsx:243-274 | below the smaller width the navbar holds the hamburger with file source, options and both selectors, then the collapse buttons, then the legend |
| App.SmallControls | src/App.tsx:275-306 | between the widths the hamburger holds file source and options, and the selectors sit beside the collapse buttons |
| App.WideControls | src/App.tsx:307-326 | at the larger width or above the navbar holds the main button, file source, options, the selectors around the collapse buttons, the legend and the configuration tool button |
| App.App.constructor | src/App.tsx:41-89 | the application starts with no perspectives, nothing shown on either side, not collapsed, and the configuration tool closed |
| App.App.InitPerspectives | src/App.tsx:97-123 | both halves are cleared; a missing list stores the empty list; otherwise every entry gets its side in place, the list is stored and one file request is made per placed perspective |
| App.App.SetSide | src/App.tsx:104-116 | entry `i` alone gets its side, with a request exactly when it is placed on a side |
| App.App.CollapseClick | src/App.tsx:193-215 | the collapse state becomes `CollapseClicked` of the old state and the buttons' state; nothing else changes |
| App.App.ToggleConfTool | src/App.tsx:228-238 | each click flips whether the configuration tool is open, and nothing else changes |

## Left out

- Filesystem and network I/O is left out, and listings and responses are inputs instead. This covers the directory listing and the `json.dump` of `createDataList.py`, `requestManager.ts`, the `fetch` calls in `CTranslation` and `App.tsx`, and the request, download and delete calls of the perspective panels.
- vis.js and canvas wiring is left out: event registration, `fit`, canvas-to-DOM conversion, and `drawBoundingBoxes` in both box controllers. `sortEdges` is left out too, because it is only a comparator handed to `Array.sort`.
- `initEdges` and `updateDeletedEdges` in the two newer edge controllers are left out, because they drop edges at random with `Math.random`.
- Floating-point formatting is left out: the layout trigonometry of `nodeLocation.ts`, `toFixed(2)`, the slider background percentage and BarPortion's pixel-width text thresholds.
- BarPortion.Symbol: the shape getter is a total parameter, so the TypeError the source's `getShape(dimensionIndex).name` throws for an index outside the shape palette (a negative index reads `undefined`) is not modelled; the palette in `constants/nodes.ts` is not part of this model.
- Timers and interleaving are left out: the slider debounce, the `setTimeout` of the save panel and the loading panel's interval.
- Pure rendering components (tables, legends, navbars, accordions, charts, spinners) are left out, because they hold no logic beyond what the modelled state already decides.
- `constants/nodes.ts` and `constants/nodesConstants.ts` are not part of this model. Their palettes and sizes are parameters: a `NodeConst` record and getter functions.
- JavaScript's `String()` and `Number()` coercions are modelled by `Json.NumToString`, `Json.ParseNumber` and `Json.ParseUnsigned`, total functions that differ from JavaScript in the ways listed below. They feed every string and number coercion of ids, names and values in the validators. `decodeURIComponent` of an artwork image is not modelled.
- `Json.NumToString`: an integer prints exactly, but any other number prints as its integer part, a point and six truncated decimals. So `String(0.73)` is "0.730000" here where JavaScript gives "0.73". Exponent forms such as "1e21" are never produced.
- `Json.ParseNumber` and `Json.ParseUnsigned`: the empty string is 0, and only an optional sign followed by digits, optionally with a point between two non-empty digit runs, is a number. So ".5" and "5." are NaN here where JavaScript gives 0.5 and 5. "Infinity", hexadecimal, binary, octal and exponent forms, and strings with surrounding whitespace are also NaN here, though JavaScript converts them.
- Numbers are exact rationals in the model. NaN and infinite values, and rounding to double precision, are not modelled.
- Array-like objects with a numeric `length` key are not modelled. A validator's indexed loop over a value that is not an array runs no iteration, as `i < undefined` is false.
- A validator that throws part-way has already mutated part of its argument in the source. The model returns only the error and not the half-mutated argument.
- The explanation `sort` is modelled as a stable insertion sort with comparator `a.order - b.order`, where NaN counts as 0. JavaScript leaves the order of an inconsistent comparator to the implementation.
- `InfoAlgorithm` checks `similarity_functions` before it writes the algorithm object back, whereas the source writes first. No error message or result differs.
- The `CTranslation` class of `auxTypes.ts` is not modelled. It duplicates `managers/CTranslation.ts`, which is modelled.
- `AuxTypes.BStateArrayReducer`: `changeOne` and `activeOne` require an index inside the array. The growth of a JavaScript array written past its end is not modelled.
- `NodeExplicitComms.NodeExplicitComms.UpdateExplicitData` and `NodeExplicitComms.NodeExplicitComms.UpdateCommunitiesData`: require the key to be one of the node's explicit keys. Their only caller iterates over exactly those keys.
- Community numbers and implicit communities are natural numbers in the model. A negative or fractional group, which the source also reads as a missing community and throws on, cannot be expressed.
- vis.js `DataSet` aliasing is left out. The node and edge data sets are sequences of records, each held once, and a `DataSet.update` commit is the reassignment of that sequence.
- Edge labels are left out, because the edge constants switch labels off. Calls to the network's `setOptions` are not modelled.
- The console logging of a missing dimension mapping is left out.
- `NodeDimensionStrat`'s `nodeToDefault` calls the border step without its `increasedSize` argument. The model passes false, as JavaScript reads the missing argument as undefined.
- The three findings below are modelled twice: once as written, and once corrected. Every member that builds on them uses the corrected version. `PerspectiveValidation.ValidatePerspectiveData` therefore accepts edges whose value is a numeric string, which the code refuses. The node-visuals members that call `NodeVisualsCtrl.NodeVisualsCtrl.IsHidedByLegend` hide anonymous users when the legend says so, which the code never does. `NodeDimensionStrat.NodeDimensionStrategy.CheckAttrDiferences` accepts the value "", which the code rejects.
- The stale modules that refer to undefined declarations are not part of this model: `layoutManager.ts`, `viewManager.ts`, `OptionsDropdown.tsx` and the commented-out `nodeVisuals.ts`. Neither are the pure call-forwarding dimension-strategy wrappers.

## Findings

| source | as written | input that shows it | evidently intended | confidence | as-written member | corrected member |
|---|---|---|---|---|---|---|
| src/constants/perspectiveValidation.ts:421 | a similarity value that is not a number is replaced by `Number(arg.ivalued)`, a misspelt field that is normally absent, so the edge is refused as not a number | the edge `{value: "1", u1: "a", u2: "b"}` | convert `arg.value` itself, so that "1" becomes 1 and the edge is accepted | high (not executed) | PerspectiveValidation.StringValueExample | PerspectiveValidation.EdgeSpec |
| src/managers/nodeDimensionStrat.ts:100-105 | a value is known when `values.find(e => e === value)` is truthy, which the empty string never is | an attribute list holding the value "" compared with itself | test whether the value occurs in the known values | medium (not executed) | NodeDimensionStrat.EmptyValueRejectedAsWritten | NodeDimensionStrat.NodeDimensionStrategy.CheckAttrDiferences |
| src/controllers/nodeVisualsCtrl.ts:237 | reads `node.isAnonymous`, but the user record's flag is `isAnonimous`, so the anonymous-user legend entry never hides anyone | an anonymous user without explicit communities, with the legend hiding anonymous users | read the record's `isAnonimous` flag | high (not executed) | NodeVisualsCtrl.AnonymousUserShownAsWritten | NodeVisualsCtrl.NodeVisualsCtrl.IsHidedByLegend |
