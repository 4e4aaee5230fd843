# i2 Notebook SDK sample plug-ins, modelled in Dafny

This project models the sample plug-ins of the i2 Notebook SDK. Each sample
reads the chart, the selection or the schema through the SDK. It then asks the
host to run a transaction that commits a list of mutations, rolls back with an
optional report, or throws. The model replaces the host with plain values:

- a chart record is a `Notebook.Record`, and its item type and property types are datatypes;
- the mutations a transaction requests are a sequence of `Notebook.Mutation`;
- a transaction's result is a `Notebook.Outcome`: `Commit`, `Rollback` or `Threw`;
- the formatter, `String(value)` and the date-to-instant conversion are
  function-typed parameters.

The samples modelled:

- `ReactToolView` and `AngularToolView` are the record-inspector tool views of the
  React and Angular samples. Each is a class whose fields are the view's state,
  with one method per event handler. They share `Navigation` (index rules and
  the title), `VolatileStore` (the index kept across a hide) and `Projection`
  (the record's displayed properties), all in tool_view.dfy.
- `Geospatial` is the "View on map" command. The basic, React and Vue samples
  carry it in identical copies.
- `MutationSample` is the "Add items" and "Arrange events" commands of the
  mutation sample.
- `DialogEntrypoint` and `PersonDialog` are the "Add Person" and "Edit Person"
  commands and the page inside their dialog. `PersonDialog.DialogPage` is a
  class.
- `ItemTypeImport` is the item-type sample. It adds the missing item types,
  then one record per imported item.
- `ColorPlugin` is the vehicle colouring command. Its old and new entry points
  run the same logic.
- `Common` holds `Option`, `Result`, `Filter` and the first-match search.

## Model

| member | source | states |
|---|---|---|
| Common.Filter | samples/color-plugin/entrypoint.js:27-29 | the kept elements come from the input and satisfy the predicate; never longer than the input |
| Common.FilterAppend | samples/item-type-plugin/src/components/ToolView.tsx:69-72 | filtering a concatenation filters each part and concatenates the results |
| Common.FilterKeeps | samples/item-type-plugin/src/components/ToolView.tsx:69-72 | an element is kept exactly when it is in the input and satisfies the predicate |
| Common.FindFirstIndex | samples/dialog-sample-plugin/src/dialog.ts:17-19 | none exactly when no element matches; otherwise the index of a match with no match before it |
| Common.FindFirst | samples/item-type-plugin/src/components/ToolView.tsx:20-28 | none exactly when no element matches; otherwise the first matching element |
| Navigation.TitleText | samples/react-plugin/src/ToolView.tsx:128-135 | no contract of its own: the title before bidi wrapping, "Record i+1 of n" through the formatter when something is selected; `Navigation.TitleIsNoRecordsIffEmpty` states when it is the no-records text |
| Navigation.TitleIsNoRecordsIffEmpty | samples/react-plugin/src/ToolView.tsx:128-135 | the title is "No records selected." exactly when the selection is empty; otherwise it is "Record n of m" |
| Navigation.EnabledStepsStayInRange | samples/react-plugin/src/ToolView.tsx:141-157 | from an index inside the selection, an enabled Previous or Next button leads to an index that still names a record |
| Navigation.UnclampedIndexShowsNothing | samples/react-plugin/src/ToolView.tsx:106-108 | a restored index past the end of a smaller selection shows no record, and Next stays enabled there |
| VolatileStore.RestoredIndex | samples/react-plugin/src/ToolView.tsx:106-108 | no contract of its own: the stored index when the key is present, otherwise 0; `VolatileStore.AfterUnload` and `ReactToolView.HideAndRemount` state what it gives back after a hide or a close |
| VolatileStore.AfterUnload | samples/react-plugin/src/ToolView.tsx:113-122 | closing clears the store, so the next start shows record 0; hiding saves the index for the next start and keeps the other keys |
| Projection.Shown | samples/react-plugin/src/ToolView.tsx:43-53 | the property list has at most one entry per property type |
| Projection.ShownAppend | samples/react-plugin/src/ToolView.tsx:44-53 | the list for a concatenation of property types is the two lists concatenated, in item-type order |
| Projection.ShownExactly | samples/react-plugin/src/ToolView.tsx:45-52 | an entry is shown exactly when it is built from a property type whose value is defined and fetched |
| Projection.ShownAllFetched | samples/angular-plugin/src/app/tool-view1/tool-view1.component.ts:156-168 | when every value is defined and fetched, the i-th entry is the i-th property type's |
| ReactToolView.ToolView.constructor | samples/react-plugin/src/ToolView.tsx:25-29 | the view starts empty, at index 0, with 0 records |
| ReactToolView.ToolView.SetValuesForRecord | samples/react-plugin/src/ToolView.tsx:33-65 | the label, 360 URL, image (the record's own, else its entity type's) and property list show the record; with no record all four are cleared; the index and total are untouched |
| ReactToolView.ToolView.HandlePreviousButtonClick | samples/react-plugin/src/ToolView.tsx:68-70 | the index drops by one, unchecked |
| ReactToolView.ToolView.HandleNextButtonClick | samples/react-plugin/src/ToolView.tsx:71-73 | the index rises by one, unchecked |
| ReactToolView.ToolView.HandleChartSelectionChange | samples/react-plugin/src/ToolView.tsx:75-83 | a new selection resets the index to 0, takes the selection's size as the total and shows its first record |
| ReactToolView.ToolView.FetchCurrentRecord | samples/react-plugin/src/ToolView.tsx:85-98 | the total becomes the live selection's size; the record at the index is shown, and nothing for an index outside the selection |
| ReactToolView.ToolView.Mount | samples/react-plugin/src/ToolView.tsx:100-111 | the index comes back from the volatile store, 0 when absent, and the record at it is shown |
| ReactToolView.ToolView.HandleUnload | samples/react-plugin/src/ToolView.tsx:113-122 | a close leaves the store empty; a hide leaves it restoring the view's current index |
| ReactToolView.ToolView.PreviousDisabled | samples/react-plugin/src/ToolView.tsx:147 | no contract of its own: Previous is disabled exactly at index 0; `Navigation.EnabledStepsStayInRange` states that an enabled Previous stays inside the selection |
| ReactToolView.ToolView.NextDisabled | samples/react-plugin/src/ToolView.tsx:155 | no contract of its own: Next is disabled exactly at index total - 1; `Navigation.EnabledStepsStayInRange` and `Navigation.UnclampedIndexShowsNothing` state what an enabled Next reaches |
| ReactToolView.ToolView.ButtonsShown | samples/react-plugin/src/ToolView.tsx:141 | no contract of its own: the buttons are rendered only when the selection is not empty |
| ReactToolView.ToolView.NavigationTitle | samples/react-plugin/src/ToolView.tsx:128-135 | no contract of its own: the bidi-wrapped `Navigation.TitleText` of the view's index and total |
| ReactToolView.HideAndRemount | samples/react-plugin/src/ToolView.tsx:113-126 | after a hide, a new view shows the same index as before; after a close, index 0 |
| ReactToolView.NextThenPrevious | samples/react-plugin/src/ToolView.tsx:68-73 | Next then Previous returns to the original index |
| AngularToolView.ToolView1Component.constructor | samples/angular-plugin/src/app/tool-view1/tool-view1.component.ts:24-57 | the component starts empty, at index 0, with 0 records |
| AngularToolView.ToolView1Component.SetValuesForRecord | samples/angular-plugin/src/app/tool-view1/tool-view1.component.ts:147-180 | the fields show the record, with the label wrapped for bidi and each property as its display name and formatted value; with no record they are cleared |
| AngularToolView.ToolView1Component.ReadDataForCurrentRecord | samples/angular-plugin/src/app/tool-view1/tool-view1.component.ts:124-141 | the total becomes the live selection's size, and the record at the index (or none) is shown |
| AngularToolView.ToolView1Component.OnPreviousButtonClick | samples/angular-plugin/src/app/tool-view1/tool-view1.component.ts:62-66 | the index drops by one, unchecked, and the record there is read and shown |
| AngularToolView.ToolView1Component.OnNextButtonClick | samples/angular-plugin/src/app/tool-view1/tool-view1.component.ts:68-73 | the index rises by one, unchecked, and the record there is read and shown |
| AngularToolView.ToolView1Component.HandleChartSelectionChange | samples/angular-plugin/src/app/tool-view1/tool-view1.component.ts:115-119 | a new selection resets the index to 0 and shows its first record |
| AngularToolView.ToolView1Component.NgOnInit | samples/angular-plugin/src/app/tool-view1/tool-view1.component.ts:185-205 | the index comes back from the volatile store, 0 when absent, and the record at it is read and shown |
| AngularToolView.ToolView1Component.OnUnload | samples/angular-plugin/src/app/tool-view1/tool-view1.component.ts:194-200 | a close leaves the store empty; a hide leaves it restoring the component's current index |
| AngularToolView.ToolView1Component.DisablePreviousButton | samples/angular-plugin/src/app/tool-view1/tool-view1.component.ts:78-80 | no contract of its own: Previous is disabled exactly at index 0, as in the React view |
| AngularToolView.ToolView1Component.DisableNextButton | samples/angular-plugin/src/app/tool-view1/tool-view1.component.ts:85-87 | no contract of its own: Next is disabled exactly at index total - 1, as in the React view |
| AngularToolView.ToolView1Component.CurrentRecord | samples/angular-plugin/src/app/tool-view1/tool-view1.component.ts:92-94 | no contract of its own: the one-based position shown to the user |
| AngularToolView.ToolView1Component.NavigationTitle | samples/angular-plugin/src/app/tool-view1/tool-view1.component.ts:99-110 | no contract of its own: the bidi-wrapped `Navigation.TitleText`, the same title as the React view's for the same index and total |
| AngularToolView.NextThenPrevious | samples/angular-plugin/src/app/tool-view1/tool-view1.component.ts:62-73 | Next then Previous returns to the same index and shows the same record as before |
| Geospatial.FindGeospatialValue | samples/basic-plugin/entrypoint.js:6-21 | nothing is found exactly when the search inside every record finds nothing |
| Geospatial.FindInRecordIsFirst | samples/basic-plugin/entrypoint.js:6-21 | within a record, the value found is the first geospatial property type with a defined, fetched value; none exactly when there is no such property type |
| Geospatial.NotFoundIffNoMatch | samples/basic-plugin/entrypoint.js:6-21 | no value is found exactly when no record has a matching property |
| Geospatial.FoundIsFirstMatch | samples/basic-plugin/entrypoint.js:6-21 | a found value is the one at the first match, in record order and then in property-type order |
| Geospatial.ViewOnMapUrl | samples/basic-plugin/entrypoint.js:38-49 | a URL is opened exactly when the command is enabled; it is the maps prefix, the first point's latitude and longitude, then ",18z" |
| Geospatial.ViewOnMapEnabled | samples/basic-plugin/entrypoint.js:54 | no contract of its own: enabled when the search finds a truthy value; `Geospatial.EnabledIffPointPresent` states it in terms of the records |
| Geospatial.EnabledIffPointPresent | samples/react-plugin/public/entrypoint.js:55 | when matches are points, the command is enabled exactly when some record has a geospatial value |
| Geospatial.UrlCarriesFirstPoint | samples/vue-plugin/public/entrypoint.js:39-50 | the URL carries the coordinates of the point at the first match |
| Geospatial.FirstMatchUnique | samples/vue-plugin/public/entrypoint.js:8-22 | the first match is a single position |
| MutationSample.GetTimeZoneAsWritten | samples/mutation-plugin/entrypoint.js:52-58 | the zone exactly when its id is known; otherwise always the same literal message |
| MutationSample.AsWrittenMessageOmitsZone | samples/mutation-plugin/entrypoint.js:52-58 | as written, the error for two different unknown zones is the same text and names neither zone |
| MutationSample.GetTimeZone | samples/mutation-plugin/entrypoint.js:52-58 | gives the zone exactly when it is known; otherwise an error naming the zone |
| MutationSample.PersonLookup | samples/mutation-plugin/entrypoint.js:100-112 | no contract of its own: the `personLookup` map after the persons loop; `MutationSample.PersonLookupIsLast` states which person each family name maps to |
| MutationSample.PersonLookupIsLast | samples/mutation-plugin/entrypoint.js:102-112 | a family name is in the lookup exactly when some person has it; it maps to the last such person's handle |
| MutationSample.AddPersons | samples/mutation-plugin/entrypoint.js:100-112 | one person record per person with its first and family names, handle i for the i-th, and the lookup that maps each family name to the last person with it |
| MutationSample.AddEvent | samples/mutation-plugin/entrypoint.js:115-142 | the zone is resolved before the person; it succeeds exactly when both are known, with the event's three mutations, and otherwise gives the events loop's error message |
| MutationSample.AddEvents | samples/mutation-plugin/entrypoint.js:114-143 | succeeds exactly when every event's zone and seen person are known, giving each event's three mutations in order with handles after the persons'; otherwise it stops at the first event that cannot be added, with that event's message |
| MutationSample.AddItems | samples/mutation-plugin/entrypoint.js:96-149 | commits exactly when every event's zone is known and its seen person exists; then one record per person, and per event a record, a "with" link to the seen person and a selection add; otherwise throws the first failing event's message |
| MutationSample.AddedLinksEndAtSeenPerson | samples/mutation-plugin/entrypoint.js:129-140 | each event's link joins the event record to a person whose family name is the event's wasSeen |
| MutationSample.SampleBatchIsAddable | samples/mutation-plugin/entrypoint.js:11-46 | with the three sample zones known, the sample people and events all add |
| MutationSample.GetEventDate | samples/mutation-plugin/entrypoint.js:194-213 | fails exactly when the node has no record; gives a date exactly when the first record's start date-time is defined and fetched |
| MutationSample.CompareEvents | samples/mutation-plugin/entrypoint.js:219-230 | it throws exactly when one of the two nodes has no record, with "Unexpected missing record" |
| MutationSample.CompareEventsAntisymmetric | samples/mutation-plugin/entrypoint.js:219-230 | swapping the nodes negates the comparison, and a node with a record compares level with itself |
| MutationSample.CompareEventsByKey | samples/mutation-plugin/entrypoint.js:219-230 | on nodes with records, the comparison is the difference of the two instants, or 0 when either date is missing |
| MutationSample.Insert | samples/mutation-plugin/entrypoint.js:244-246 | inserting adds exactly one node |
| MutationSample.SortEvents | samples/mutation-plugin/entrypoint.js:244-246 | sorting keeps the number of nodes |
| MutationSample.InsertMembers | samples/mutation-plugin/entrypoint.js:244-246 | the insertion step keeps every node and adds only the inserted one |
| MutationSample.InsertPermutes | samples/mutation-plugin/entrypoint.js:244-246 | insertion adds the node to the multiset and changes nothing else |
| MutationSample.SortPermutes | samples/mutation-plugin/entrypoint.js:244-246 | the sorted nodes are a permutation of the affected nodes |
| MutationSample.InsertKeepsOrder | samples/mutation-plugin/entrypoint.js:244-246 | inserting a dated node into a list ordered by time keeps it ordered |
| MutationSample.SortOrdersByTime | samples/mutation-plugin/entrypoint.js:244-246 | when every node has a date, the sorted nodes run from earliest to latest |
| MutationSample.LayOut | samples/mutation-plugin/entrypoint.js:248-256 | one centre per node: the i-th node is 200·i to the right of the first event's centre, at its height |
| MutationSample.ArrangeEvents | samples/mutation-plugin/entrypoint.js:165-264 | a selection with a non-event rolls back with an error report; an empty one rolls back with an information report; with two or more nodes, a node without a record throws; otherwise it commits the layout of the sorted nodes and then fit-to-selection |
| DialogEntrypoint.AddPersonDialog | samples/dialog-sample-plugin/src/entrypoint.ts:40-53 | the Add dialog has no initial value and opens with submit disabled |
| DialogEntrypoint.EditPersonDialog | samples/dialog-sample-plugin/src/entrypoint.ts:116-122 | the Edit dialog carries the extracted initial value, and both actions start enabled |
| DialogEntrypoint.EditPersonEnabled | samples/dialog-sample-plugin/src/entrypoint.ts:157-166 | no contract of its own: the listener's enabled state; `DialogEntrypoint.EditPersonEnabledIff` states when it holds |
| DialogEntrypoint.EditPersonEnabledIff | samples/dialog-sample-plugin/src/entrypoint.ts:157-166 | Edit Person is enabled exactly when the selection is one person entity record not from an information store |
| DialogEntrypoint.InitialItemsAreFetched | samples/dialog-sample-plugin/src/entrypoint.ts:99-108 | every initial item is a property type of the record's type with a requested id, paired with its defined, fetched value |
| DialogEntrypoint.InitialItemOf | samples/dialog-sample-plugin/src/entrypoint.ts:100-107 | the loop body gives the item for one id: present exactly when the record's type has that property type and its value is defined and fetched |
| DialogEntrypoint.ExtractInitialValue | samples/dialog-sample-plugin/src/entrypoint.ts:94-112 | no initial value exactly when no entity record is selected; otherwise the PER4 item then the PER6 item of the first record, each only when present |
| DialogEntrypoint.PropertyMapOf | samples/dialog-sample-plugin/src/entrypoint.ts:66-70 | no contract of its own: the `properties` object; `DialogEntrypoint.LastPairWins` and `DialogEntrypoint.PropertyMapKeys` state its keys and values |
| DialogEntrypoint.LastPairWins | samples/dialog-sample-plugin/src/entrypoint.ts:66-70 | each pair's resolved id is in the map, holding that pair's value when no later pair resolves to the same id |
| DialogEntrypoint.PropertyMapKeys | samples/dialog-sample-plugin/src/entrypoint.ts:140-144 | the map's keys are exactly the resolved ids of the pairs |
| DialogEntrypoint.PropertyMapStep | samples/dialog-sample-plugin/src/entrypoint.ts:67-69 | one more pair overwrites its resolved id in the map built so far |
| DialogEntrypoint.PropertiesFromResult | samples/dialog-sample-plugin/src/entrypoint.ts:66-70 | succeeds exactly when every pair names a person property type, with the property map; otherwise the TypeError of reading an undefined property type's id |
| DialogEntrypoint.AddPerson | samples/dialog-sample-plugin/src/entrypoint.ts:57-75 | a cancelled dialog runs no transaction; otherwise it commits one person record and sets the selection to it, or throws on an unknown property |
| DialogEntrypoint.EditPerson | samples/dialog-sample-plugin/src/entrypoint.ts:126-149 | a cancelled dialog runs no transaction; with no selected entity it rolls back; otherwise it sets the properties on the first selected entity and commits, or throws on an unknown property |
| PersonDialog.TrimStart | samples/dialog-sample-plugin/src/dialog.ts:34-35 | the result is a suffix of the input; everything dropped is white space, and it does not start with white space |
| PersonDialog.TrimEnd | samples/dialog-sample-plugin/src/dialog.ts:34-35 | the result is a prefix of the input; everything dropped is white space, and it does not end with white space |
| PersonDialog.Trim | samples/dialog-sample-plugin/src/dialog.ts:34-35 | a value trims to the empty string exactly when it is all white space |
| PersonDialog.AssignItem | samples/dialog-sample-plugin/src/dialog.ts:15-22 | assigning an item changes no input's name and no number of inputs |
| PersonDialog.AssignAll | samples/dialog-sample-plugin/src/dialog.ts:13-24 | assigning the whole initial value changes no input's name and no number of inputs; `PersonDialog.AssignAllKeeps` and `PersonDialog.AssignAllLastWins` state every input's value afterwards |
| PersonDialog.FormEntries | samples/dialog-sample-plugin/src/dialog.ts:57-63 | one entry per form input |
| PersonDialog.AsDialogResult | samples/dialog-sample-plugin/src/dialog.ts:65 | one result pair per entry |
| PersonDialog.SameNamesSameFirst | samples/dialog-sample-plugin/src/dialog.ts:29-30 | editing values does not change which input a name query finds |
| PersonDialog.FirstInputAt | samples/dialog-sample-plugin/src/dialog.ts:17-19 | the query finds an input with the name that has none before it |
| PersonDialog.DialogPage.constructor | samples/dialog-sample-plugin/src/dialog.ts:4-9 | the page starts with its inputs and no listeners |
| PersonDialog.DialogPage.AssignInitialValue | samples/dialog-sample-plugin/src/dialog.ts:13-24 | run before the listeners are installed, the loop leaves the inputs as `PersonDialog.AssignAll` gives them: each input holds the text of the last item whose analyze id first names it, and an input no item names keeps its value; the page stays valid |
| PersonDialog.DialogPage.UpdateAction | samples/dialog-sample-plugin/src/dialog.ts:33-39 | submit is enabled exactly when both the PER4 and PER6 inputs are non-blank after trimming |
| PersonDialog.DialogPage.Init | samples/dialog-sample-plugin/src/dialog.ts:4-46 | fills the inputs from the initial value; listeners are installed exactly when both name inputs exist, and then the submit state matches the names |
| PersonDialog.DialogPage.OnInput | samples/dialog-sample-plugin/src/dialog.ts:41-42 | typing changes that input's value only; once listeners are installed, submit stays enabled exactly when both names are non-blank |
| PersonDialog.DialogPage.OnAction | samples/dialog-sample-plugin/src/dialog.ts:52-69 | submit with the form present sends every form entry in order and closes; any other action, or no form, only closes |
| PersonDialog.AssignIntoNameInputs | samples/dialog-sample-plugin/src/dialog.ts:13-24 | a PER4 item and a PER6 item land in the PER4 and PER6 inputs |
| PersonDialog.AssignItemAt | samples/dialog-sample-plugin/src/dialog.ts:14-22 | one item sets the input it targets, the first one named after its property type, and no other input changes |
| PersonDialog.AssignAllKeeps | samples/dialog-sample-plugin/src/dialog.ts:13-24 | after the loop, an input no item targets keeps its value |
| PersonDialog.AssignAllLastWins | samples/dialog-sample-plugin/src/dialog.ts:13-24 | after the loop, an input holds the text of the last item that targets it |
| PersonDialog.NamesResultMap | samples/dialog-sample-plugin/src/entrypoint.ts:140-144 | the result pairs for the two names map onto the two resolved property ids |
| PersonDialog.UnchangedEditKeepsValues | samples/dialog-sample-plugin/src/entrypoint.ts:94-149 | submitting the Edit dialog unchanged writes back the name values the record already had |
| ItemTypeImport.FindItemTypeByName | samples/item-type-plugin/src/components/ToolView.tsx:20-28 | none exactly when no item type has the display name; otherwise the first that has it |
| ItemTypeImport.TypeMutations | samples/item-type-plugin/src/components/ToolView.tsx:78-99 | one type per item |
| ItemTypeImport.TypeMutationsAt | samples/item-type-plugin/src/components/ToolView.tsx:78-99 | the k-th type added is the k-th item's link or entity type |
| ItemTypeImport.ItemTypesOutcome | samples/item-type-plugin/src/components/ToolView.tsx:66-106 | rolls back with no report exactly when no item's type name is missing from the schema; otherwise commits one type per missing item |
| ItemTypeImport.AddedTypesAreMissing | samples/item-type-plugin/src/components/ToolView.tsx:69-99 | an item is in the filtered list exactly when the schema lacks its name, and each such item adds its type |
| ItemTypeImport.AddItemTypes | samples/item-type-plugin/src/components/ToolView.tsx:66-106 | the transaction's result is the item-types outcome |
| ItemTypeImport.RecordProperties | samples/item-type-plugin/src/components/ToolView.tsx:127-147 | no more pairs than properties |
| ItemTypeImport.RecordPropertiesMatchNames | samples/item-type-plugin/src/components/ToolView.tsx:127-147 | every kept pair is a property type of the item type named like one of the properties, and every property with a matching type is kept; date types get a local date |
| ItemTypeImport.BuildProperties | samples/item-type-plugin/src/components/ToolView.tsx:127-147 | the loop builds the record's property pairs |
| ItemTypeImport.IsLinkData | samples/item-type-plugin/src/components/ToolView.tsx:30-32 | no contract of its own: an item is a link exactly when both its ends are present |
| ItemTypeImport.ImportItemInto | samples/item-type-plugin/src/components/ToolView.tsx:113-181 | no contract of its own: one item of the loop; `ItemTypeImport.ImportItemIntoEffect` and `ItemTypeImport.ImportItemIntoAppends` state its effect |
| ItemTypeImport.ImportItemIntoEffect | samples/item-type-plugin/src/components/ToolView.tsx:113-181 | an item is added exactly when its type exists and, for a link, both ends are registered; entities register their shipment id, links register nothing |
| ItemTypeImport.RecordsOutcome | samples/item-type-plugin/src/components/ToolView.tsx:108-189 | rolls back exactly when the import fails; a commit adds one record per item |
| ItemTypeImport.ImportAllShape | samples/item-type-plugin/src/components/ToolView.tsx:110-182 | a successful import adds one record per item, and the map holds each entity's shipment id with the position of the last entity record added for it |
| ItemTypeImport.EntityHandlesKeys | samples/item-type-plugin/src/components/ToolView.tsx:174-180 | a shipment id has a handle exactly when some entity item carries it |
| ItemTypeImport.RegisteredAreEntities | samples/item-type-plugin/src/components/ToolView.tsx:174-180 | the registered keys are exactly the shipment ids of the entities so far |
| ItemTypeImport.ImportablePrefix | samples/item-type-plugin/src/components/ToolView.tsx:150-163 | whether an item can be added depends only on the items before it |
| ItemTypeImport.LastImportable | samples/item-type-plugin/src/components/ToolView.tsx:113-181 | the last item can be added exactly when adding it does not fail |
| ItemTypeImport.AllImportableSplit | samples/item-type-plugin/src/components/ToolView.tsx:112-182 | all items can be added exactly when those before the last can and the last can |
| ItemTypeImport.ImportSucceedsIff | samples/item-type-plugin/src/components/ToolView.tsx:108-189 | the records transaction commits exactly when every type is in the schema and every link's ends are shipment ids of earlier entities |
| ItemTypeImport.ImportItemIntoAppends | samples/item-type-plugin/src/components/ToolView.tsx:150-181 | a successful step appends exactly one record at the next position and keeps the earlier ones; a link joins the records registered for its two ends and registers nothing; an entity registers its shipment id at the new record |
| ItemTypeImport.StepKeepsConsistent | samples/item-type-plugin/src/components/ToolView.tsx:150-181 | adding one item keeps every link joined to earlier entity records and every registered id pointing at an entity record |
| ItemTypeImport.ImportResolvesEnds | samples/item-type-plugin/src/components/ToolView.tsx:150-181 | every added record's handle is its position, and every link joins two entity records added before it |
| ItemTypeImport.AddRecord | samples/item-type-plugin/src/components/ToolView.tsx:113-181 | the loop body adds one item as the import step says |
| ItemTypeImport.AddRecords | samples/item-type-plugin/src/components/ToolView.tsx:108-189 | the transaction's result is the records outcome, with the first failure's report |
| ItemTypeImport.ImportAllStep | samples/item-type-plugin/src/components/ToolView.tsx:112-182 | importing one more item extends the import of those before it |
| ItemTypeImport.FailureSticks | samples/item-type-plugin/src/components/ToolView.tsx:115-124 | once a prefix fails, the whole import fails with the same report |
| ItemTypeImport.HandleAddToChart | samples/item-type-plugin/src/components/ToolView.tsx:43-64 | data that does not parse rolls back with an error report and nothing else runs; otherwise the types transaction runs, then the records transaction against the schema it left |
| ColorPlugin.VehicleRecords | samples/color-plugin/entrypoint.js:27-29 | a record is kept exactly when it is an entity record of the vehicle type, and never more records than the chart has |
| ColorPlugin.ColorOf | samples/color-plugin/entrypoint.js:37-43 | a colour exactly when the record has a value of the colour property; it is that value's text |
| ColorPlugin.ColorMutations | samples/color-plugin/entrypoint.js:36-44 | one colour edit per vehicle record |
| ColorPlugin.ColorMutationAt | samples/color-plugin-new/src/entrypoint.ts:32-38 | the k-th edit colours the k-th vehicle record's node |
| ColorPlugin.EditsAreVehicles | samples/color-plugin-new/src/entrypoint.ts:25-37 | every edit colours the node of an entity record of the vehicle type, and every such record gets its edit |
| ColorPlugin.SetColors | samples/color-plugin-new/src/entrypoint.ts:32-38 | the loop issues the colour edits in chart order |
| ColorPlugin.OnExecute | samples/color-plugin/entrypoint.js:21-50 | throws exactly when the schema has no vehicle type; otherwise always commits the vehicle colour edits, even when there are none |

## Left out

- The SDK, the host application and the browser are not modelled. The records, selection, schema and time zones they supply become parameters.
- Concurrency and asynchrony are not modelled. Each handler, effect and transaction is one atomic step. The React view's overlapping `runTransaction` calls, and the order in which their results land, are not modelled.
- `ensurePropertiesFetched` is not modelled. The records a tool view reads are taken as already fetched.
- Registration and wiring are not modelled. This covers commands, ribbons, popup menus, event subscriptions and unsubscriptions, `initializationComplete`, themes and flow direction, and rendering.
- The formatter, `wrapForBidi`, `String(value)` and `toString()` are opaque function parameters.
- Dates are not modelled. An instant is the parameter `timeOf`. `createZonedDateTime` keeps its text and zone. `new Date(...)` and the local calendar fields behind `createLocalDate` become `LocalDate` of the raw text.
- `Notebook.Value.GeoPoint` keeps its coordinates as the text the URL template prints, not as numbers.
- JSON parsing in the item-type sample is an input: `parseData` is an optional parsed value. The falsy JSON documents (`null`, `false`, `0`, `""`) take the same path as invalid JSON.
- MutationSample.SortEvents: `Array.prototype.sort` is modelled as a stable insertion sort. The comparator treats undated nodes as equal to everything, so it is inconsistent, and the engine's order is then unspecified. Ordering is proved only when every node has a date; the permutation is proved always.
- MutationSample.ArrangeEvents: "Unexpected missing record" is thrown when some affected node has no record and there are two or more nodes. This assumes the sort compares every element at least once.
- MutationSample.AddItems and ColorPlugin.OnExecute resolve their item and property types before their mutation transaction. DialogEntrypoint.AddPerson, DialogEntrypoint.EditPerson and MutationSample.ArrangeEvents resolve them inside it. All five take the resolved types as parameters: `ids`, `personType` and `startDateTime`. A missing ET5, ET2 or LOB1 type in those schema reads is not modelled. The exception is ColorPlugin.OnExecute, which models the missing ET3 vehicle type.
- MutationSample.ArrangeEvents: a schema without the ET2 event type makes `getPropertyType` throw after the all-events check. The model always has a `startDateTime`, so it never throws there.
- MutationSample.AddItems: for an unknown time zone it throws the corrected message that names the zone (`MutationSample.GetTimeZone`), not the literal text of entrypoint.js:55. The message as written is `MutationSample.GetTimeZoneAsWritten`; see "## Findings".
- ColorPlugin.ColorOf: when the vehicle type has no VEH9 property type, `getProperty(undefined)` is taken to return no value. The SDK's behaviour there is not visible.
- The tool views follow the code where it differs from a tidier reading:
  - the restored index is not clamped to the selection;
  - Previous and Next do not check bounds;
  - a stale transaction is not ignored.
  The lemmas above state what then happens.
- The volatile store holds numbers only. `get(...) || 0` treats any missing key as 0; other falsy values are not modelled.
- ItemTypeImport.AddItemTypes adds one type per missing item, not one per missing name. Two items with the same new type name both add a type, and the records transaction then uses the first. This follows the code and is stated by `ItemTypeImport.ItemTypesOutcome`.
- The item-type sample runs its parse-error rollback as an untracked transaction and the others as tracked ones. Tracking (undo history) is not modelled.
- The dialog page's `querySelector` searches the form's inputs only, and `FormData` is taken to hold every input in document order.

## Findings

| source | as written | input that shows it | evidently intended | confidence | as-written member | corrected member |
|---|---|---|---|---|---|---|
| samples/mutation-plugin/entrypoint.js:55 | the message is an ordinary string literal, so `${timeZoneId}` is printed literally | an event whose time zone id is not among the host's time zones, e.g. "Europe/London" missing | a template literal that names the missing zone | not executed | MutationSample.AsWrittenMessageOmitsZone | MutationSample.GetTimeZone |
