/** The Angular record-inspector tool view (`ToolView1Component`): public
    fields that its handlers update in place, and getters derived from them.
    Each handler is one atomic step; the records a read receives are the live
    chart selection after `ensurePropertiesFetched` has completed. */
module AngularToolView {
  import opened Common
  import opened Notebook
  import Navigation
  import VolatileStore
  import Projection

  /** A displayed property: display name and formatted value, both already
      wrapped for bidirectional text. */
  datatype Property = Property(labelText: string, value: string)

  /** The row the component builds for a property type and its value. */
  function FormattedEntry(formatter: Formatter): (PropertyType, Value) -> Property {
    (pt: PropertyType, v: Value) =>
      Property(formatter.wrapForBidi(pt.displayName), formatter.wrapForBidi(formatter.formatValue(v)))
  }

  class ToolView1Component {
    const formatter: Formatter
    var recordLabel: string
    var properties: seq<Property>
    var threeSixtyUrl: Option<string>
    var image: Option<Image>
    var currentRecordIndex: int
    var totalRecords: nat

    /** The display fields hold the projection of `record`, or are all reset
        when there is no record. */
    ghost predicate Shows(record: Option<Record>)
      reads this
    {
      match record
      case None =>
        recordLabel == "" && threeSixtyUrl == None && image == None && properties == []
      case Some(r) =>
        && recordLabel == formatter.wrapForBidi(r.labelOrFallback)
        && threeSixtyUrl == r.threeSixtyUrl
        && image == Projection.ImageOf(r)
        && properties == Projection.Shown(r, r.itemType.propertyTypes, FormattedEntry(formatter))
    }

    /** The field initialisers. */
    constructor (formatter: Formatter)
      ensures this.formatter == formatter
      ensures Shows(None)
      ensures currentRecordIndex == 0 && totalRecords == 0
    {
      this.formatter := formatter;
      recordLabel := "";
      properties := [];
      threeSixtyUrl := None;
      image := None;
      currentRecordIndex := 0;
      totalRecords := 0;
    }

    /** `setValuesForRecord`. */
    method SetValuesForRecord(record: Option<Record>)
      modifies this
      ensures Shows(record)
      ensures currentRecordIndex == old(currentRecordIndex) && totalRecords == old(totalRecords)
    {
      if record.Some? {
        var r := record.value;
        recordLabel := formatter.wrapForBidi(r.labelOrFallback);
        threeSixtyUrl := r.threeSixtyUrl;
        image := if r.image.Some? then r.image else if r.IsEntity() then r.itemType.image else None;
        var pts := r.itemType.propertyTypes;
        var list: seq<Property> := [];
        var i := 0;
        while i < |pts|
          invariant 0 <= i <= |pts|
          invariant list == Projection.Shown(r, pts[..i], FormattedEntry(formatter))
        {
          var pt := pts[i];
          var labelText := formatter.wrapForBidi(pt.displayName);
          var value := r.GetProperty(pt);
          if value.Some? && !r.IsValueUnfetched(pt) {
            var formattedValue := formatter.formatValue(value.value);
            list := list + [Property(labelText, formatter.wrapForBidi(formattedValue))];
          }
          assert pts[..i + 1][..i] == pts[..i];
          i := i + 1;
        }
        assert pts[..i] == pts;
        properties := list;
      } else {
        recordLabel := "";
        threeSixtyUrl := None;
        image := None;
        properties := [];
      }
    }

    /** `readDataForCurrentRecord`: takes the live selection's size as the
        total and shows the record at the current index in selection order
        (record ids are unique, so `records.get(recordIds[i])` is the i-th
        record); any index outside the selection shows nothing. */
    method ReadDataForCurrentRecord(selection: seq<Record>)
      modifies this
      ensures currentRecordIndex == old(currentRecordIndex) && totalRecords == |selection|
      ensures Shows(Navigation.RecordAt(selection, currentRecordIndex))
    {
      totalRecords := |selection|;
      var record := if 0 <= currentRecordIndex < |selection| then Some(selection[currentRecordIndex]) else None;
      SetValuesForRecord(record);
    }

    /** `onPreviousButtonClick`: one down, unchecked, then a fresh read. */
    method OnPreviousButtonClick(selection: seq<Record>)
      modifies this
      ensures currentRecordIndex == old(currentRecordIndex) - 1 && totalRecords == |selection|
      ensures Shows(Navigation.RecordAt(selection, currentRecordIndex))
    {
      currentRecordIndex := currentRecordIndex - 1;
      ReadDataForCurrentRecord(selection);
    }

    /** `onNextButtonClick`: one up, unchecked, then a fresh read. */
    method OnNextButtonClick(selection: seq<Record>)
      modifies this
      ensures currentRecordIndex == old(currentRecordIndex) + 1 && totalRecords == |selection|
      ensures Shows(Navigation.RecordAt(selection, currentRecordIndex))
    {
      currentRecordIndex := currentRecordIndex + 1;
      ReadDataForCurrentRecord(selection);
    }

    /** `handleChartSelectionChange`: back to the first record. */
    method HandleChartSelectionChange(selection: seq<Record>)
      modifies this
      ensures currentRecordIndex == 0 && totalRecords == |selection|
      ensures Shows(Navigation.RecordAt(selection, 0))
    {
      currentRecordIndex := 0;
      ReadDataForCurrentRecord(selection);
    }

    /** `ngOnInit`: the index comes back from the volatile store, unclamped,
        and the current record is read. */
    method NgOnInit(store: VolatileStore.Store, selection: seq<Record>)
      modifies this
      ensures currentRecordIndex == VolatileStore.RestoredIndex(store) && totalRecords == |selection|
      ensures Shows(Navigation.RecordAt(selection, currentRecordIndex))
    {
      currentRecordIndex := if VolatileStore.IndexKey in store then store[VolatileStore.IndexKey] else 0;
      ReadDataForCurrentRecord(selection);
    }

    /** The 'unload' listener registered in `ngOnInit`. */
    function OnUnload(isClosing: bool, store: VolatileStore.Store): (saved: VolatileStore.Store)
      reads this
      ensures isClosing ==> saved == map[]
      ensures !isClosing ==> VolatileStore.RestoredIndex(saved) == currentRecordIndex
    {
      VolatileStore.AfterUnload(store, isClosing, currentRecordIndex)
    }

    predicate DisablePreviousButton()
      reads this
    {
      Navigation.PreviousDisabled(currentRecordIndex)
    }

    predicate DisableNextButton()
      reads this
    {
      Navigation.NextDisabled(currentRecordIndex, totalRecords)
    }

    /** The one-based position shown to the user. */
    function CurrentRecord(): int
      reads this
    {
      currentRecordIndex + 1
    }

    /** `totalRecords === 0` in the component and `totalRecords > 0` in the
        React view agree because the total is a size. */
    function NavigationTitle(): string
      reads this
    {
      formatter.wrapForBidi(Navigation.TitleText(currentRecordIndex, totalRecords, formatter.formatValue))
    }
  }

  /** Previous after next shows the same record as before, read from the same
      selection. */
  method NextThenPrevious(view: ToolView1Component, selection: seq<Record>)
    modifies view
    ensures view.currentRecordIndex == old(view.currentRecordIndex)
    ensures view.Shows(Navigation.RecordAt(selection, old(view.currentRecordIndex)))
  {
    view.OnNextButtonClick(selection);
    view.OnPreviousButtonClick(selection);
  }
}
