/** The item-type sample tool view: it imports a list of entity and link items,
    first adding the item types the chart schema lacks, then adding one
    record per item, links joined to the entities added before them. */
module ItemTypeImport {
  import opened Common
  import opened Notebook

  /** A property of an imported item: its logical type, name and raw value. */
  datatype ImportProperty = ImportProperty(logicalType: string, name: string, value: string)

  /** An imported item. Entities carry a shipment id and an icon; links carry
      the shipment ids of their two ends. */
  datatype ImportItem = ImportItem(typeId: string, name: string, properties: seq<ImportProperty>,
                                   shipmentId: Option<string>, icon: Option<string>,
                                   fromId: Option<string>, toId: Option<string>)

  datatype ExampleData = ExampleData(data: seq<ImportItem>)

  const ParseFailedReport: Report := Report(ErrorReport, "Failed to parse data", "The provided data is not valid JSON.")
  const AddRecordsFailedTitle: string := "Failed to add records"
  const MissingEndsReport: Report := Report(ErrorReport, AddRecordsFailedTitle, "Link record references missing entity records.")

  function TypeNotFoundReport(name: string): Report {
    Report(ErrorReport, AddRecordsFailedTitle, "Item type \"" + name + "\" not found in schema.")
  }

  /** `findItemTypeByName`: the first item type with this display name. */
  function FindItemTypeByName(itemTypes: seq<ItemType>, name: string): (r: Option<ItemType>)
    ensures r.None? <==> forall i :: 0 <= i < |itemTypes| ==> itemTypes[i].displayName != name
    ensures r.Some? ==> exists i :: 0 <= i < |itemTypes| && itemTypes[i] == r.value && r.value.displayName == name
                                    && forall k :: 0 <= k < i ==> itemTypes[k].displayName != name
  {
    FindFirst(itemTypes, (t: ItemType) => t.displayName == name)
  }

  /** `isLinkData`: both ends are present. */
  predicate IsLinkData(item: ImportItem) {
    item.fromId.Some? && item.toId.Some?
  }

  // ----- addItemTypes -----

  /** The property types a new item type gets: one per property, same name and
      logical type, all label parts. */
  function NewPropertyTypes(properties: seq<ImportProperty>): seq<NewPropertyType> {
    seq(|properties|, i requires 0 <= i < |properties| => NewPropertyType(properties[i].name, properties[i].logicalType, true))
  }

  /** The type an item adds: a link type for link data, an entity type with the
      item's icon otherwise. */
  function TypeMutation(item: ImportItem): Mutation {
    if IsLinkData(item) then AddLinkType(item.name, NewPropertyTypes(item.properties))
    else AddEntityType(item.name, item.icon, NewPropertyTypes(item.properties))
  }

  /** The items whose type name the schema does not have, in item order. */
  function MissingFromSchema(items: seq<ImportItem>, itemTypes: seq<ItemType>): seq<ImportItem> {
    Filter(items, (item: ImportItem) => FindItemTypeByName(itemTypes, item.name).None?)
  }

  function TypeMutations(items: seq<ImportItem>): (r: seq<Mutation>)
    ensures |r| == |items|
  {
    if items == [] then [] else TypeMutations(items[..|items| - 1]) + [TypeMutation(items[|items| - 1])]
  }

  /** The outcome of the `addItemTypes` transaction. */
  function ItemTypesOutcome(items: seq<ItemType>, importItems: seq<ImportItem>): (o: Outcome)
    ensures o == Rollback(None) <==> MissingFromSchema(importItems, items) == []
    ensures o.Commit? <==> MissingFromSchema(importItems, items) != []
    ensures o.Commit? ==> o.actionDisplayName == "Add item types"
                          && |o.mutations| == |MissingFromSchema(importItems, items)|
  {
    var missing := MissingFromSchema(importItems, items);
    if missing == [] then Rollback(None) else Commit(TypeMutations(missing), "Add item types")
  }

  /** Every type added is named after an item, and only after an item whose name
      the schema lacks; every such item adds one. */
  lemma {:induction false} AddedTypesAreMissing(itemTypes: seq<ItemType>, items: seq<ImportItem>, item: ImportItem)
    ensures item in MissingFromSchema(items, itemTypes) <==>
            item in items && forall i :: 0 <= i < |itemTypes| ==> itemTypes[i].displayName != item.name
    ensures item in MissingFromSchema(items, itemTypes) ==> TypeMutation(item) in TypeMutations(MissingFromSchema(items, itemTypes))
  {
    FilterKeeps(items, (it: ImportItem) => FindItemTypeByName(itemTypes, it.name).None?, item);
    var missing := MissingFromSchema(items, itemTypes);
    if item in missing {
      var k :| 0 <= k < |missing| && missing[k] == item;
      TypeMutationsAt(missing, k);
    }
  }

  lemma {:induction false} TypeMutationsAt(items: seq<ImportItem>, k: nat)
    requires k < |items|
    ensures TypeMutations(items)[k] == TypeMutation(items[k])
    decreases |items|
  {
    if k < |items| - 1 {
      TypeMutationsAt(items[..|items| - 1], k);
    }
  }

  /** `addItemTypes`: filter, roll back when nothing is missing, otherwise add
      one type per missing item. */
  method AddItemTypes(itemTypes: seq<ItemType>, items: seq<ImportItem>) returns (outcome: Outcome)
    ensures outcome == ItemTypesOutcome(itemTypes, items)
  {
    var filteredItems := MissingFromSchema(items, itemTypes);
    if |filteredItems| == 0 {
      return Rollback(None);
    }
    var mutations: seq<Mutation> := [];
    var i := 0;
    while i < |filteredItems|
      invariant 0 <= i <= |filteredItems|
      invariant mutations == TypeMutations(filteredItems[..i])
    {
      var item := filteredItems[i];
      if IsLinkData(item) {
        mutations := mutations + [AddLinkType(item.name, NewPropertyTypes(item.properties))];
      } else {
        mutations := mutations + [AddEntityType(item.name, item.icon, NewPropertyTypes(item.properties))];
      }
      assert filteredItems[..i + 1][..i] == filteredItems[..i];
      i := i + 1;
    }
    assert filteredItems[..i] == filteredItems;
    outcome := Commit(mutations, "Add item types");
  }

  // ----- addRecords -----

  /** The value a property gets: a local date for a date property type, the
      raw text otherwise. */
  function PropertyValueFor(pt: PropertyType, property: ImportProperty): Value {
    if pt.logicalType == "date" then LocalDate(property.value) else Text(property.value)
  }

  function FindPropertyTypeByName(t: ItemType, name: string): Option<PropertyType> {
    FindFirst(t.propertyTypes, (pt: PropertyType) => pt.displayName == name)
  }

  /** The record's properties: those whose name matches a property type, in item
      order. */
  function RecordProperties(t: ItemType, properties: seq<ImportProperty>): (r: seq<(PropertyType, Value)>)
    ensures |r| <= |properties|
  {
    if properties == [] then []
    else
      var property := properties[|properties| - 1];
      RecordProperties(t, properties[..|properties| - 1])
      + match FindPropertyTypeByName(t, property.name)
        case None => []
        case Some(pt) => [(pt, PropertyValueFor(pt, property))]
  }

  /** Every kept pair comes from a property of the same name, and every property
      whose name matches a property type is kept. */
  lemma {:induction false} RecordPropertiesMatchNames(t: ItemType, properties: seq<ImportProperty>)
    ensures forall k :: 0 <= k < |RecordProperties(t, properties)| ==>
              var (pt, v) := RecordProperties(t, properties)[k];
              pt in t.propertyTypes
              && exists j :: 0 <= j < |properties| && properties[j].name == pt.displayName && v == PropertyValueFor(pt, properties[j])
    ensures forall j :: 0 <= j < |properties| && FindPropertyTypeByName(t, properties[j].name).Some? ==>
              var pt := FindPropertyTypeByName(t, properties[j].name).value;
              (pt, PropertyValueFor(pt, properties[j])) in RecordProperties(t, properties)
    decreases |properties|
  {
    if properties != [] {
      var init := properties[..|properties| - 1];
      RecordPropertiesMatchNames(t, init);
      assert forall j :: 0 <= j < |init| ==> init[j] == properties[j];
    }
  }

  /** The `properties` loop of one item. */
  method BuildProperties(t: ItemType, properties: seq<ImportProperty>) returns (pairs: seq<(PropertyType, Value)>)
    ensures pairs == RecordProperties(t, properties)
  {
    pairs := [];
    var i := 0;
    while i < |properties|
      invariant 0 <= i <= |properties|
      invariant pairs == RecordProperties(t, properties[..i])
    {
      var property := properties[i];
      var propertyType := FindPropertyTypeByName(t, property.name);
      if propertyType.Some? {
        var value := Text(property.value);
        if propertyType.value.logicalType == "date" {
          value := LocalDate(property.value);
        }
        pairs := pairs + [(propertyType.value, value)];
      }
      assert properties[..i + 1][..i] == properties[..i];
      i := i + 1;
    }
    assert properties[..i] == properties;
  }

  /** The state of the `addRecords` transaction: failed with a report, or the
      records added so far and the pending entity records by shipment id. */
  datatype Import =
    | Failed(report: Report)
    | Pending(registered: map<Option<string>, nat>, mutations: seq<Mutation>)

  /** One item added to a pending import. The new record's handle is the number
      of records added before it. */
  function ImportItemInto(p: Import, item: ImportItem, itemTypes: seq<ItemType>): Import
    requires p.Pending?
  {
    match FindItemTypeByName(itemTypes, item.name)
    case None => Failed(TypeNotFoundReport(item.name))
    case Some(itemType) => AddTypedRecord(p, item, itemType)
  }

  /** The record of an item whose type was found: a link joins the pending
      records of its two ends, an entity registers its shipment id. */
  function AddTypedRecord(p: Import, item: ImportItem, itemType: ItemType): Import
    requires p.Pending?
  {
    var properties := PropertyPairs(RecordProperties(itemType, item.properties));
    var handle := |p.mutations|;
    if IsLinkData(item) then
      if item.fromId !in p.registered || item.toId !in p.registered then Failed(MissingEndsReport)
      else Pending(p.registered, p.mutations + [AddLinkRecord(handle, itemType.id, p.registered[item.fromId],
                                                              p.registered[item.toId], NoDirection, properties)])
    else Pending(p.registered[item.shipmentId := handle], p.mutations + [AddEntityRecord(handle, itemType.id, properties)])
  }

  /** When one item is added without failure, and what it registers. */
  lemma ImportItemIntoEffect(p: Import, item: ImportItem, itemTypes: seq<ItemType>)
    requires p.Pending?
    ensures var q := ImportItemInto(p, item, itemTypes);
            && (q.Pending? <==> (FindItemTypeByName(itemTypes, item.name).Some?
                                 && (IsLinkData(item) ==> item.fromId in p.registered && item.toId in p.registered)))
            && (q.Pending? ==> q.registered == if IsLinkData(item) then p.registered
                                               else p.registered[item.shipmentId := |p.mutations|])
  {
  }

  /** A successful step appends one record, whose handle is its position; a
      link's ends are the pending records registered for its two ids. */
  lemma ImportItemIntoAppends(p: Import, item: ImportItem, itemTypes: seq<ItemType>)
    requires p.Pending?
    ensures var q := ImportItemInto(p, item, itemTypes);
            q.Pending? ==>
              && |q.mutations| == |p.mutations| + 1
              && q.mutations[..|p.mutations|] == p.mutations
              && q.mutations[|p.mutations|].handle == |p.mutations|
              && (IsLinkData(item) ==>
                    && q.mutations[|p.mutations|].AddLinkRecord?
                    && q.mutations[|p.mutations|].fromEnd == p.registered[item.fromId]
                    && q.mutations[|p.mutations|].toEnd == p.registered[item.toId]
                    && q.registered == p.registered)
              && (!IsLinkData(item) ==>
                    && q.mutations[|p.mutations|].AddEntityRecord?
                    && q.registered == p.registered[item.shipmentId := |p.mutations|])
  {
  }

  /** The items added in order; the first failure ends the import. */
  function ImportAll(items: seq<ImportItem>, itemTypes: seq<ItemType>): Import {
    if items == [] then Pending(map[], [])
    else
      var p := ImportAll(items[..|items| - 1], itemTypes);
      if p.Failed? then p else ImportItemInto(p, items[|items| - 1], itemTypes)
  }

  /** The outcome of the `addRecords` transaction. */
  function RecordsOutcome(items: seq<ImportItem>, itemTypes: seq<ItemType>): (o: Outcome)
    ensures o.Rollback? <==> ImportAll(items, itemTypes).Failed?
    ensures o.Commit? ==> o.actionDisplayName == "Add records" && |o.mutations| == |items|
  {
    match ImportAll(items, itemTypes)
    case Failed(report) => Rollback(Some(report))
    case Pending(_, mutations) =>
      ImportAllShape(items, itemTypes);
      Commit(mutations, "Add records")
  }

  /** An item can be added after those before it: its type is in the schema
      and, for a link, both ends are shipment ids of earlier entities. */
  predicate Importable(items: seq<ImportItem>, k: nat, itemTypes: seq<ItemType>)
    requires k < |items|
  {
    && FindItemTypeByName(itemTypes, items[k].name).Some?
    && (IsLinkData(items[k]) ==>
          && (exists j :: 0 <= j < k && !IsLinkData(items[j]) && items[j].shipmentId == items[k].fromId)
          && (exists j :: 0 <= j < k && !IsLinkData(items[j]) && items[j].shipmentId == items[k].toId))
  }

  /** The handle each shipment id is registered under after `items`: the
      position of the last entity with that id. */
  function EntityHandles(items: seq<ImportItem>): map<Option<string>, nat> {
    if items == [] then map[]
    else
      var last := items[|items| - 1];
      var handles := EntityHandles(items[..|items| - 1]);
      if IsLinkData(last) then handles else handles[last.shipmentId := |items| - 1]
  }

  lemma {:induction false} EntityHandlesKeys(items: seq<ImportItem>, key: Option<string>)
    ensures key in EntityHandles(items) <==> exists j :: 0 <= j < |items| && !IsLinkData(items[j]) && items[j].shipmentId == key
    decreases |items|
  {
    if items != [] {
      var init := items[..|items| - 1];
      EntityHandlesKeys(init, key);
      assert forall j :: 0 <= j < |init| ==> init[j] == items[j];
    }
  }

  /** A successful import adds one record per item and registers the entities'
      handles. */
  lemma {:induction false} ImportAllShape(items: seq<ImportItem>, itemTypes: seq<ItemType>)
    requires ImportAll(items, itemTypes).Pending?
    ensures |ImportAll(items, itemTypes).mutations| == |items|
    ensures ImportAll(items, itemTypes).registered == EntityHandles(items)
    decreases |items|
  {
    if items != [] {
      var init := items[..|items| - 1];
      ImportAllShape(init, itemTypes);
      ImportItemIntoAppends(ImportAll(init, itemTypes), items[|items| - 1], itemTypes);
    }
  }

  /** The pending entity records are exactly the earlier entities' shipment ids. */
  lemma RegisteredAreEntities(items: seq<ImportItem>, itemTypes: seq<ItemType>, key: Option<string>)
    requires ImportAll(items, itemTypes).Pending?
    ensures key in ImportAll(items, itemTypes).registered <==>
            exists j :: 0 <= j < |items| && !IsLinkData(items[j]) && items[j].shipmentId == key
  {
    ImportAllShape(items, itemTypes);
    EntityHandlesKeys(items, key);
  }

  /** Whether an item is importable depends only on the items before it. */
  lemma ImportablePrefix(items: seq<ImportItem>, n: nat, k: nat, itemTypes: seq<ItemType>)
    requires k < n <= |items|
    ensures Importable(items[..n], k, itemTypes) == Importable(items, k, itemTypes)
  {
    assert forall j :: 0 <= j < k ==> items[..n][j] == items[j];
  }

  /** The last item is importable exactly when adding it to the import of the
      items before it does not fail. */
  lemma LastImportable(items: seq<ImportItem>, itemTypes: seq<ItemType>)
    requires items != [] && ImportAll(items[..|items| - 1], itemTypes).Pending?
    ensures Importable(items, |items| - 1, itemTypes) <==> ImportAll(items, itemTypes).Pending?
  {
    var n := |items| - 1;
    var init := items[..n];
    var p := ImportAll(init, itemTypes);
    var item := items[n];
    ImportItemIntoEffect(p, item, itemTypes);
    RegisteredAreEntities(init, itemTypes, item.fromId);
    RegisteredAreEntities(init, itemTypes, item.toId);
    assert forall j :: 0 <= j < n ==> init[j] == items[j];
  }

  predicate AllImportable(items: seq<ImportItem>, itemTypes: seq<ItemType>) {
    forall k :: 0 <= k < |items| ==> Importable(items, k, itemTypes)
  }

  /** All items are importable when those before the last are and the last is. */
  lemma AllImportableSplit(items: seq<ImportItem>, itemTypes: seq<ItemType>)
    requires items != []
    ensures AllImportable(items, itemTypes) <==>
            AllImportable(items[..|items| - 1], itemTypes) && Importable(items, |items| - 1, itemTypes)
  {
    var n := |items| - 1;
    forall k | 0 <= k < n
      ensures Importable(items[..n], k, itemTypes) == Importable(items, k, itemTypes)
    {
      ImportablePrefix(items, n, k, itemTypes);
    }
  }

  /** `addRecords` commits exactly when every item is importable after the ones
      before it. */
  lemma {:induction false} ImportSucceedsIff(items: seq<ImportItem>, itemTypes: seq<ItemType>)
    ensures ImportAll(items, itemTypes).Pending? <==> AllImportable(items, itemTypes)
    decreases |items|
  {
    if items != [] {
      var init := items[..|items| - 1];
      ImportSucceedsIff(init, itemTypes);
      AllImportableSplit(items, itemTypes);
      if ImportAll(init, itemTypes).Pending? {
        LastImportable(items, itemTypes);
      }
    }
  }

  /** Every added record's handle is its position, and every link's ends are
      entity records added before it. */
  predicate EndsResolved(mutations: seq<Mutation>) {
    forall k :: 0 <= k < |mutations| ==>
      && (mutations[k].AddEntityRecord? || mutations[k].AddLinkRecord?)
      && mutations[k].handle == k
      && (mutations[k].AddLinkRecord? ==>
            && mutations[k].fromEnd < k && mutations[mutations[k].fromEnd].AddEntityRecord?
            && mutations[k].toEnd < k && mutations[mutations[k].toEnd].AddEntityRecord?)
  }

  /** The pending records registered for shipment ids are entity records. */
  predicate Consistent(p: Import)
    requires p.Pending?
  {
    && EndsResolved(p.mutations)
    && forall key :: key in p.registered ==> p.registered[key] < |p.mutations| && p.mutations[p.registered[key]].AddEntityRecord?
  }

  /** Adding one item keeps the import consistent. */
  lemma StepKeepsConsistent(p: Import, item: ImportItem, itemTypes: seq<ItemType>)
    requires p.Pending? && Consistent(p)
    ensures ImportItemInto(p, item, itemTypes).Pending? ==> Consistent(ImportItemInto(p, item, itemTypes))
  {
    var q := ImportItemInto(p, item, itemTypes);
    ImportItemIntoAppends(p, item, itemTypes);
    if q.Pending? {
      var size := |p.mutations|;
      forall k | 0 <= k < size
        ensures q.mutations[k] == p.mutations[k]
      {
        assert q.mutations[..size][k] == q.mutations[k];
      }
    }
  }

  /** In a successful import every link joins two entity records added before
      it, and every handle is its record's position. */
  lemma {:induction false} ImportResolvesEnds(items: seq<ImportItem>, itemTypes: seq<ItemType>)
    requires ImportAll(items, itemTypes).Pending?
    ensures EndsResolved(ImportAll(items, itemTypes).mutations)
    ensures Consistent(ImportAll(items, itemTypes))
    decreases |items|
  {
    if items != [] {
      var init := items[..|items| - 1];
      ImportResolvesEnds(init, itemTypes);
      StepKeepsConsistent(ImportAll(init, itemTypes), items[|items| - 1], itemTypes);
    }
  }

  /** The body of the item loop: one item's record added, or the rollback
      report that ends the transaction. */
  method AddRecord(item: ImportItem, pendingRecordMap: map<Option<string>, nat>, mutations: seq<Mutation>,
                   itemTypes: seq<ItemType>) returns (next: Import)
    ensures next == ImportItemInto(Pending(pendingRecordMap, mutations), item, itemTypes)
  {
    var itemType := FindItemTypeByName(itemTypes, item.name);
    if itemType.None? {
      return Failed(TypeNotFoundReport(item.name));
    }
    var properties := BuildProperties(itemType.value, item.properties);
    var handle := |mutations|;
    if IsLinkData(item) {
      if item.fromId !in pendingRecordMap || item.toId !in pendingRecordMap {
        return Failed(MissingEndsReport);
      }
      next := Pending(pendingRecordMap, mutations + [AddLinkRecord(handle, itemType.value.id, pendingRecordMap[item.fromId],
                                                                   pendingRecordMap[item.toId], NoDirection, PropertyPairs(properties))]);
    } else {
      next := Pending(pendingRecordMap[item.shipmentId := handle], mutations + [AddEntityRecord(handle, itemType.value.id, PropertyPairs(properties))]);
    }
  }

  /** `addRecords`: the item loop, ending early with a rollback. */
  method AddRecords(items: seq<ImportItem>, itemTypes: seq<ItemType>) returns (outcome: Outcome)
    ensures outcome == RecordsOutcome(items, itemTypes)
  {
    var pendingRecordMap: map<Option<string>, nat> := map[];
    var mutations: seq<Mutation> := [];
    var i := 0;
    while i < |items|
      invariant 0 <= i <= |items|
      invariant ImportAll(items[..i], itemTypes) == Pending(pendingRecordMap, mutations)
    {
      ImportAllStep(items, i, itemTypes);
      var next := AddRecord(items[i], pendingRecordMap, mutations, itemTypes);
      if next.Failed? {
        FailureSticks(items, i + 1, itemTypes);
        return Rollback(Some(next.report));
      }
      pendingRecordMap := next.registered;
      mutations := next.mutations;
      i := i + 1;
    }
    assert items[..i] == items;
    outcome := Commit(mutations, "Add records");
  }

  /** `ImportAll` on one more item of `items`. */
  lemma ImportAllStep(items: seq<ImportItem>, i: nat, itemTypes: seq<ItemType>)
    requires i < |items| && ImportAll(items[..i], itemTypes).Pending?
    ensures ImportAll(items[..i + 1], itemTypes) == ImportItemInto(ImportAll(items[..i], itemTypes), items[i], itemTypes)
  {
    assert items[..i + 1][..i] == items[..i];
  }

  /** Once a prefix fails, the whole import fails with the same report. */
  lemma {:induction false} FailureSticks(items: seq<ImportItem>, n: nat, itemTypes: seq<ItemType>)
    requires n <= |items| && ImportAll(items[..n], itemTypes).Failed?
    ensures ImportAll(items, itemTypes) == ImportAll(items[..n], itemTypes)
    decreases |items| - n
  {
    if n < |items| {
      assert items[..n + 1][..n] == items[..n];
      FailureSticks(items, n + 1, itemTypes);
    } else {
      assert items[..n] == items;
    }
  }

  /** `handleAddToChart`: invalid data rolls back with an error report and adds
      nothing; valid data runs the item-type transaction against the schema,
      then the record transaction against the schema as it then stands. */
  method HandleAddToChart(parsedData: Option<ExampleData>, itemTypes: seq<ItemType>, itemTypesAfter: seq<ItemType>)
      returns (typesOutcome: Outcome, recordsOutcome: Option<Outcome>)
    ensures parsedData.None? ==> typesOutcome == Rollback(Some(ParseFailedReport)) && recordsOutcome.None?
    ensures parsedData.Some? ==>
              && typesOutcome == ItemTypesOutcome(itemTypes, parsedData.value.data)
              && recordsOutcome == Some(RecordsOutcome(parsedData.value.data, itemTypesAfter))
  {
    if parsedData.None? {
      return Rollback(Some(ParseFailedReport)), None;
    }
    typesOutcome := AddItemTypes(itemTypes, parsedData.value.data);
    var records := AddRecords(parsedData.value.data, itemTypesAfter);
    recordsOutcome := Some(records);
  }
}
