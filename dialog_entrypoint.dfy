/** The dialog sample's entry point: "Add Person" and "Edit Person" commands
    that open the person dialog and turn its result into a mutation. */
module DialogEntrypoint {
  import opened Common
  import opened Notebook

  const PersonEntityTypeId: string := "ET5"
  const FirstNamePropertyTypeId: string := "PER4"
  const FamilyNamePropertyTypeId: string := "PER6"

  /** An item of the dialog's initial value: a property type and its value. */
  datatype InitialItem = InitialItem(propertyType: PropertyType, value: Value)

  datatype SystemAction = Cancel | Submit

  /** An action of the dialog and whether it starts enabled (a bare system
      action starts enabled). */
  datatype ActionConfig = ActionConfig(action: SystemAction, enabled: bool)

  datatype DialogConfig = DialogConfig(name: string, path: string, initialValue: Option<seq<InitialItem>>, actions: seq<ActionConfig>)

  /** The dialog "Add Person" opens: no initial value, and submit disabled
      until both names are filled in. */
  function AddPersonDialog(): (config: DialogConfig)
    ensures config.initialValue.None?
    ensures ActionConfig(Submit, false) in config.actions
    ensures forall i :: 0 <= i < |config.actions| && config.actions[i].action == Submit ==> !config.actions[i].enabled
  {
    DialogConfig("Add Person", "./dialog.html", None, [ActionConfig(Cancel, true), ActionConfig(Submit, false)])
  }

  /** The dialog "Edit Person" opens: the extracted initial value, and both
      actions enabled. */
  function EditPersonDialog(initialValue: Option<seq<InitialItem>>): (config: DialogConfig)
    ensures config.initialValue == initialValue
    ensures forall i :: 0 <= i < |config.actions| ==> config.actions[i].enabled
    ensures ActionConfig(Submit, true) in config.actions
  {
    DialogConfig("Edit Person", "./dialog.html", initialValue, [ActionConfig(Cancel, true), ActionConfig(Submit, true)])
  }

  /** The 'chartselectionchange' listener of "Edit Person". */
  predicate EditPersonEnabled(entityRecords: seq<Record>) {
    var entityRecord := if |entityRecords| > 0 then Some(entityRecords[0]) else None;
    var isPerson := entityRecord.Some? && entityRecord.value.itemType.analyzeId == PersonEntityTypeId;
    var isInfoStore := entityRecord.Some? && entityRecord.value.isInfoStore;
    |entityRecords| == 1 && isPerson && !isInfoStore
  }

  /** "Edit Person" is enabled exactly when the selection holds one entity
      record, a person, that does not come from an information store. */
  lemma EditPersonEnabledIff(entityRecords: seq<Record>)
    ensures EditPersonEnabled(entityRecords) <==>
            exists r :: entityRecords == [r] && r.itemType.analyzeId == PersonEntityTypeId && !r.isInfoStore
  {
    if |entityRecords| == 1 {
      assert entityRecords == [entityRecords[0]];
    }
  }

  /** The initial-value item for one property id: present when the record's
      type has the property type and the value is defined and fetched. */
  function InitialItemFor(r: Record, analyzeId: string): seq<InitialItem> {
    match GetPropertyType(r.itemType, analyzeId)
    case None => []
    case Some(pt) => if r.HasFetchedValue(pt) then [InitialItem(pt, r.values[pt.id])] else []
  }

  /** The items for a list of ids, in the order of the ids. */
  function InitialItems(r: Record, ids: seq<string>): seq<InitialItem> {
    if ids == [] then []
    else InitialItems(r, ids[..|ids| - 1]) + InitialItemFor(r, ids[|ids| - 1])
  }

  /** Every initial item carries a property type of the record's type with the
      id it was asked for, and that property's defined, fetched value. */
  lemma {:induction false} InitialItemsAreFetched(r: Record, ids: seq<string>, k: nat)
    requires k < |InitialItems(r, ids)|
    ensures var item := InitialItems(r, ids)[k];
            && item.propertyType.analyzeId in ids
            && item.propertyType in r.itemType.propertyTypes
            && r.HasFetchedValue(item.propertyType)
            && item.value == r.values[item.propertyType.id]
    decreases |ids|
  {
    var init := ids[..|ids| - 1];
    var last := ids[|ids| - 1];
    if k < |InitialItems(r, init)| {
      InitialItemsAreFetched(r, init, k);
      assert forall x :: x in init ==> x in ids;
    } else {
      var pt := GetPropertyType(r.itemType, last).value;
      assert InitialItems(r, ids)[k] == InitialItem(pt, r.values[pt.id]);
    }
  }

  /** One step of the read loop: the property's item when its type is on the
      record's type and its value is defined and fetched. */
  method InitialItemOf(record: Record, analyzeId: string) returns (items: seq<InitialItem>)
    ensures items == InitialItemFor(record, analyzeId)
  {
    items := [];
    var propertyType := GetPropertyType(record.itemType, analyzeId);
    if propertyType.Some? {
      var propertyValue := record.GetProperty(propertyType.value);
      if propertyValue.Some? && !record.IsValueUnfetched(propertyType.value) {
        items := [InitialItem(propertyType.value, propertyValue.value)];
      }
    }
  }

  /** The 'Edit Person' read transaction: no initial value without a selected
      entity record, otherwise the items for PER4 then PER6 of the first one. */
  method ExtractInitialValue(entityRecords: seq<Record>) returns (initialValue: Option<seq<InitialItem>>)
    ensures initialValue.None? <==> entityRecords == []
    ensures initialValue.Some? ==>
              initialValue.value == InitialItemFor(entityRecords[0], FirstNamePropertyTypeId)
                                    + InitialItemFor(entityRecords[0], FamilyNamePropertyTypeId)
  {
    if entityRecords == [] {
      return None;
    }
    var record := entityRecords[0];
    var ids := [FirstNamePropertyTypeId, FamilyNamePropertyTypeId];
    var properties: seq<InitialItem> := [];
    var i := 0;
    while i < |ids|
      invariant 0 <= i <= |ids|
      invariant properties == InitialItems(record, ids[..i])
    {
      var items := InitialItemOf(record, ids[i]);
      properties := properties + items;
      assert ids[..i + 1][..i] == ids[..i];
      i := i + 1;
    }
    assert ids[..1] == [FirstNamePropertyTypeId];
    assert ids[..2] == ids;
    initialValue := Some(properties);
  }

  /** Every pair of the dialog result names a property type of the person
      type. */
  predicate Resolvable(result: seq<(string, Value)>, personType: ItemType) {
    forall i :: 0 <= i < |result| ==> GetPropertyType(personType, result[i].0).Some?
  }

  function ResolvedId(pair: (string, Value), personType: ItemType): string
    requires GetPropertyType(personType, pair.0).Some?
  {
    GetPropertyType(personType, pair.0).value.id
  }

  /** The `properties` object built from the dialog result: each pair sets the
      chart id of its property type, later pairs overwriting earlier ones. */
  function PropertyMapOf(result: seq<(string, Value)>, personType: ItemType): map<string, Value>
    requires Resolvable(result, personType)
  {
    if result == [] then map[]
    else
      var last := result[|result| - 1];
      PropertyMapOf(result[..|result| - 1], personType)[ResolvedId(last, personType) := last.1]
  }

  /** The map's keys are the resolved ids of the pairs, and each key holds the
      value of the last pair that resolves to it. */
  lemma {:induction false} LastPairWins(result: seq<(string, Value)>, personType: ItemType, i: nat)
    requires Resolvable(result, personType) && i < |result|
    requires forall j :: i < j < |result| ==> ResolvedId(result[j], personType) != ResolvedId(result[i], personType)
    ensures ResolvedId(result[i], personType) in PropertyMapOf(result, personType)
    ensures PropertyMapOf(result, personType)[ResolvedId(result[i], personType)] == result[i].1
    decreases |result|
  {
    if i < |result| - 1 {
      var init := result[..|result| - 1];
      assert forall j :: 0 <= j < |init| ==> init[j] == result[j];
      LastPairWins(init, personType, i);
    }
  }

  /** Every key of the map comes from some pair. */
  lemma {:induction false} PropertyMapKeys(result: seq<(string, Value)>, personType: ItemType, key: string)
    requires Resolvable(result, personType)
    ensures key in PropertyMapOf(result, personType) <==>
            exists i :: 0 <= i < |result| && ResolvedId(result[i], personType) == key
    decreases |result|
  {
    if result != [] {
      var init := result[..|result| - 1];
      assert forall j :: 0 <= j < |init| ==> init[j] == result[j];
      PropertyMapKeys(init, personType, key);
    }
  }

  /** The map of one more pair of `result`. */
  lemma PropertyMapStep(result: seq<(string, Value)>, i: nat, personType: ItemType)
    requires i < |result| && Resolvable(result[..i], personType)
    requires GetPropertyType(personType, result[i].0).Some?
    ensures Resolvable(result[..i + 1], personType)
    ensures PropertyMapOf(result[..i + 1], personType)
            == PropertyMapOf(result[..i], personType)[ResolvedId(result[i], personType) := result[i].1]
  {
    assert result[..i + 1][..i] == result[..i];
  }

  /** What reading `.id` of an `undefined` property type throws. */
  const UnknownPropertyMessage: string := "Cannot read properties of undefined (reading 'id')"

  /** The loop that fills `properties` from the dialog result. */
  method PropertiesFromResult(result: seq<(string, Value)>, personType: ItemType) returns (properties: Result<map<string, Value>>)
    ensures properties.Ok? <==> Resolvable(result, personType)
    ensures properties.Ok? ==> properties.value == PropertyMapOf(result, personType)
    ensures properties.Err? ==> properties.message == UnknownPropertyMessage
  {
    var byId: map<string, Value> := map[];
    var i := 0;
    while i < |result|
      invariant 0 <= i <= |result|
      invariant Resolvable(result[..i], personType)
      invariant byId == PropertyMapOf(result[..i], personType)
    {
      var propertyType := GetPropertyType(personType, result[i].0);
      if propertyType.None? {
        assert !Resolvable(result, personType) by {
          assert GetPropertyType(personType, result[i].0).None?;
        }
        return Err(UnknownPropertyMessage);
      }
      PropertyMapStep(result, i, personType);
      byId := byId[propertyType.value.id := result[i].1];
      i := i + 1;
    }
    assert result[..i] == result;
    properties := Ok(byId);
  }

  /** "Add Person" after the dialog closes: nothing on cancel, otherwise one
      new person record that becomes the whole selection. */
  method AddPerson(result: Option<seq<(string, Value)>>, personType: ItemType) returns (outcome: Option<Outcome>)
    ensures outcome.None? <==> result.None?
    ensures result.Some? && Resolvable(result.value, personType) ==>
              outcome == Some(Commit([AddEntityRecord(0, personType.id, PropertyMap(PropertyMapOf(result.value, personType))),
                                      SelectionSet(0)], "Add record"))
    ensures result.Some? && !Resolvable(result.value, personType) ==> outcome == Some(Threw(UnknownPropertyMessage))
  {
    if result.None? {
      return None;
    }
    var properties := PropertiesFromResult(result.value, personType);
    if properties.Err? {
      return Some(Threw(properties.message));
    }
    var newRecord := 0;
    outcome := Some(Commit([AddEntityRecord(newRecord, personType.id, PropertyMap(properties.value)), SelectionSet(newRecord)], "Add record"));
  }

  /** "Edit Person" after the dialog closes: nothing on cancel, a rollback
      when no entity record is selected any more, otherwise the properties set
      on the first selected entity record. */
  method EditPerson(result: Option<seq<(string, Value)>>, entityRecords: seq<Record>, personType: ItemType)
      returns (outcome: Option<Outcome>)
    ensures outcome.None? <==> result.None?
    ensures result.Some? && entityRecords == [] ==> outcome == Some(Rollback(None))
    ensures result.Some? && entityRecords != [] && Resolvable(result.value, personType) ==>
              outcome == Some(Commit([EditRecordProperties(entityRecords[0].id, PropertyMapOf(result.value, personType))], "Edit record"))
    ensures result.Some? && entityRecords != [] && !Resolvable(result.value, personType) ==>
              outcome == Some(Threw(UnknownPropertyMessage))
  {
    if result.None? {
      return None;
    }
    if entityRecords == [] {
      return Some(Rollback(None));
    }
    var record := entityRecords[0];
    var properties := PropertiesFromResult(result.value, personType);
    if properties.Err? {
      return Some(Threw(properties.message));
    }
    outcome := Some(Commit([EditRecordProperties(record.id, properties.value)], "Edit record"));
  }
}
