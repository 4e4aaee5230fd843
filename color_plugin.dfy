/** The two colour plugins: a command that colours each vehicle record's node
    with the record's colour property. The older JavaScript and the newer
    TypeScript entry points run the same logic, modelled once here. */
module ColorPlugin {
  import opened Common
  import opened Notebook

  const VehicleItemTypeId: string := "ET3"
  const VehicleColorPropertyTypeId: string := "VEH9"
  const ActionDisplayName: string := "Set Vehicle node colors"

  /** What calling `getPropertyType` on an `undefined` vehicle type throws. */
  const MissingVehicleTypeMessage: string := "Cannot read properties of undefined (reading 'getPropertyType')"

  /** The entity records of the vehicle type, in chart order. */
  function VehicleRecords(entityRecords: seq<Record>, vehicleType: ItemType): (vehicles: seq<Record>)
    ensures |vehicles| <= |entityRecords|
    ensures forall r :: r in vehicles <==> r in entityRecords && r.itemType == vehicleType
  {
    var isVehicle := (r: Record) => r.itemType == vehicleType;
    assert forall r :: r in Filter(entityRecords, isVehicle) <==> r in entityRecords && isVehicle(r) by {
      forall r ensures r in Filter(entityRecords, isVehicle) <==> r in entityRecords && isVehicle(r) {
        FilterKeeps(entityRecords, isVehicle, r);
      }
    }
    Filter(entityRecords, isVehicle)
  }

  /** The colour a record's node gets: its colour value as text, or no colour
      when the record has no such value. */
  function ColorOf(r: Record, colorType: Option<PropertyType>, toText: Value -> string): (color: Option<string>)
    ensures color.Some? <==> colorType.Some? && r.GetProperty(colorType.value).Some?
    ensures color.Some? ==> color.value == toText(r.GetProperty(colorType.value).value)
  {
    if colorType.None? then None
    else match r.GetProperty(colorType.value)
      case None => None
      case Some(v) => Some(toText(v))
  }

  /** One colour edit per record, in order. */
  function ColorMutations(records: seq<Record>, colorType: Option<PropertyType>, toText: Value -> string): (r: seq<Mutation>)
    ensures |r| == |records|
  {
    if records == [] then []
    else
      var last := records[|records| - 1];
      ColorMutations(records[..|records| - 1], colorType, toText) + [SetNodeColor(last.elementId, ColorOf(last, colorType, toText))]
  }

  /** The k-th edit colours the k-th record's node. */
  lemma {:induction false} ColorMutationAt(records: seq<Record>, colorType: Option<PropertyType>, toText: Value -> string, k: nat)
    requires k < |records|
    ensures ColorMutations(records, colorType, toText)[k] == SetNodeColor(records[k].elementId, ColorOf(records[k], colorType, toText))
    decreases |records|
  {
    if k < |records| - 1 {
      ColorMutationAt(records[..|records| - 1], colorType, toText, k);
    }
  }

  /** Every edit colours the node of an entity record of the vehicle type, and
      every such record gets its edit. */
  lemma EditsAreVehicles(entityRecords: seq<Record>, vehicleType: ItemType, colorType: Option<PropertyType>,
                         toText: Value -> string)
    ensures var edits := ColorMutations(VehicleRecords(entityRecords, vehicleType), colorType, toText);
            forall m :: m in edits ==>
              exists r :: r in entityRecords && r.itemType == vehicleType && m == SetNodeColor(r.elementId, ColorOf(r, colorType, toText))
    ensures var edits := ColorMutations(VehicleRecords(entityRecords, vehicleType), colorType, toText);
            forall r :: r in entityRecords && r.itemType == vehicleType ==> SetNodeColor(r.elementId, ColorOf(r, colorType, toText)) in edits
  {
    var p := (r: Record) => r.itemType == vehicleType;
    var vehicles := VehicleRecords(entityRecords, vehicleType);
    var edits := ColorMutations(vehicles, colorType, toText);
    forall m | m in edits
      ensures exists r :: r in entityRecords && r.itemType == vehicleType && m == SetNodeColor(r.elementId, ColorOf(r, colorType, toText))
    {
      var k :| 0 <= k < |edits| && edits[k] == m;
      ColorMutationAt(vehicles, colorType, toText, k);
      assert vehicles[k] in vehicles;
    }
    forall r | r in entityRecords && r.itemType == vehicleType
      ensures SetNodeColor(r.elementId, ColorOf(r, colorType, toText)) in edits
    {
      FilterKeeps(entityRecords, p, r);
      var k :| 0 <= k < |vehicles| && vehicles[k] == r;
      ColorMutationAt(vehicles, colorType, toText, k);
      assert edits[k] == SetNodeColor(r.elementId, ColorOf(r, colorType, toText));
    }
  }

  /** The mutation loop over the vehicle records. */
  method SetColors(vehicleRecords: seq<Record>, colorType: Option<PropertyType>, toText: Value -> string)
      returns (mutations: seq<Mutation>)
    ensures mutations == ColorMutations(vehicleRecords, colorType, toText)
  {
    mutations := [];
    var i := 0;
    while i < |vehicleRecords|
      invariant 0 <= i <= |vehicleRecords|
      invariant mutations == ColorMutations(vehicleRecords[..i], colorType, toText)
    {
      var vehicleRecord := vehicleRecords[i];
      var vehicleColor := ColorOf(vehicleRecord, colorType, toText);
      mutations := mutations + [SetNodeColor(vehicleRecord.elementId, vehicleColor)];
      assert vehicleRecords[..i + 1][..i] == vehicleRecords[..i];
      i := i + 1;
    }
    assert vehicleRecords[..i] == vehicleRecords;
  }

  /** `onExecute`: throws when the schema has no vehicle type; otherwise
      commits one colour edit per vehicle record, even when there are none. */
  method OnExecute(itemTypes: seq<ItemType>, entityRecords: seq<Record>, toText: Value -> string) returns (outcome: Outcome)
    ensures outcome == Threw(MissingVehicleTypeMessage) <==> GetItemType(itemTypes, VehicleItemTypeId).None?
    ensures GetItemType(itemTypes, VehicleItemTypeId).Some? ==>
              var vehicleType := GetItemType(itemTypes, VehicleItemTypeId).value;
              outcome == Commit(ColorMutations(VehicleRecords(entityRecords, vehicleType),
                                               GetPropertyType(vehicleType, VehicleColorPropertyTypeId), toText),
                                ActionDisplayName)
  {
    var vehicleItemType := GetItemType(itemTypes, VehicleItemTypeId);
    if vehicleItemType.None? {
      return Threw(MissingVehicleTypeMessage);
    }
    var vehicleRecords := VehicleRecords(entityRecords, vehicleItemType.value);
    var colorPropertyType := GetPropertyType(vehicleItemType.value, VehicleColorPropertyTypeId);
    var mutations := SetColors(vehicleRecords, colorPropertyType, toText);
    outcome := Commit(mutations, ActionDisplayName);
  }
}
