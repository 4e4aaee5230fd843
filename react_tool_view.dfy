/** The React record-inspector tool view: six state cells updated by the
    event handlers and effects, and the values derived from them when the
    view renders. Each handler or effect is one atomic step; the records it
    receives are the live chart selection after `ensurePropertiesFetched`
    has completed. */
module ReactToolView {
  import opened Common
  import opened Notebook
  import Navigation
  import VolatileStore
  import Projection

  /** A displayed property: the property type's id and display name and the
      raw value (formatting happens when it is rendered). */
  datatype Property = Property(id: string, labelText: string, value: Value)

  function PropertyEntry(pt: PropertyType, v: Value): Property {
    Property(pt.id, pt.displayName, v)
  }

  class ToolView {
    const formatter: Formatter
    var recordLabel: string
    var properties: seq<Property>
    var threeSixtyUrl: Option<string>
    var image: Option<Image>
    var currentRecordIndex: int
    var totalRecords: nat

    /** The four display cells hold the projection of `record`, or the empty
        projection when there is no record. */
    ghost predicate Shows(record: Option<Record>)
      reads this
    {
      match record
      case None =>
        recordLabel == "" && threeSixtyUrl == None && image == None && properties == []
      case Some(r) =>
        && recordLabel == r.labelOrFallback
        && threeSixtyUrl == r.threeSixtyUrl
        && image == Projection.ImageOf(r)
        && properties == Projection.Shown(r, r.itemType.propertyTypes, PropertyEntry)
    }

    /** The initial `useState` values. */
    constructor (formatter: Formatter)
      ensures this.formatter == formatter
      ensures Shows(None)
      ensures currentRecordIndex == 0 && totalRecords == 0
    {
      this.formatter := formatter;
      recordLabel := "";
      properties := [];
      threeSixtyUrl := None;
      image := None;
      currentRecordIndex := 0;
      totalRecords := 0;
    }

    /** `setValuesForRecord`: fills the display cells from a record, building
        the property list by walking the item type's property types. */
    method SetValuesForRecord(record: Option<Record>)
      modifies this
      ensures Shows(record)
      ensures currentRecordIndex == old(currentRecordIndex) && totalRecords == old(totalRecords)
    {
      if record.Some? {
        var r := record.value;
        recordLabel := r.labelOrFallback;
        threeSixtyUrl := r.threeSixtyUrl;
        image := if r.image.Some? then r.image else if r.IsEntity() then r.itemType.image else None;
        var pts := r.itemType.propertyTypes;
        var list: seq<Property> := [];
        var i := 0;
        while i < |pts|
          invariant 0 <= i <= |pts|
          invariant list == Projection.Shown(r, pts[..i], PropertyEntry)
        {
          var pt := pts[i];
          var property := r.GetProperty(pt);
          if property.Some? && !r.IsValueUnfetched(pt) {
            list := list + [Property(pt.id, pt.displayName, property.value)];
          }
          assert pts[..i + 1][..i] == pts[..i];
          i := i + 1;
        }
        assert pts[..i] == pts;
        properties := list;
      } else {
        recordLabel := "";
        threeSixtyUrl := None;
        image := None;
        properties := [];
      }
    }

    /** The 'previous' button: the index goes down by one, unchecked. */
    method HandlePreviousButtonClick()
      modifies this`currentRecordIndex
      ensures currentRecordIndex == old(currentRecordIndex) - 1
    {
      currentRecordIndex := currentRecordIndex - 1;
    }

    /** The 'next' button: the index goes up by one, unchecked. */
    method HandleNextButtonClick()
      modifies this`currentRecordIndex
      ensures currentRecordIndex == old(currentRecordIndex) + 1
    {
      currentRecordIndex := currentRecordIndex + 1;
    }

    /** `handleChartSelectionChange`: back to the first record of the new
        selection. */
    method HandleChartSelectionChange(selection: seq<Record>)
      modifies this
      ensures currentRecordIndex == 0 && totalRecords == |selection|
      ensures Shows(Navigation.RecordAt(selection, 0))
    {
      currentRecordIndex := 0;
      totalRecords := |selection|;
      var first := if |selection| > 0 then Some(selection[0]) else None;
      SetValuesForRecord(first);
    }

    /** The effect that runs whenever the index changes: re-reads the live
        selection, takes its size as the total and shows the record at the
        current index; any index outside the selection shows nothing. */
    method FetchCurrentRecord(selection: seq<Record>)
      modifies this
      ensures currentRecordIndex == old(currentRecordIndex) && totalRecords == |selection|
      ensures Shows(Navigation.RecordAt(selection, currentRecordIndex))
      ensures !(0 <= currentRecordIndex < |selection|) ==> Shows(None)
    {
      totalRecords := |selection|;
      var record := if 0 <= currentRecordIndex < |selection| then Some(selection[currentRecordIndex]) else None;
      SetValuesForRecord(record);
    }

    /** Start-up: the index is restored from the volatile store, unclamped,
        and the fetch effect runs for it. */
    method Mount(store: VolatileStore.Store, selection: seq<Record>)
      modifies this
      ensures currentRecordIndex == VolatileStore.RestoredIndex(store)
      ensures totalRecords == |selection|
      ensures Shows(Navigation.RecordAt(selection, currentRecordIndex))
    {
      currentRecordIndex := if VolatileStore.IndexKey in store then store[VolatileStore.IndexKey] else 0;
      FetchCurrentRecord(selection);
    }

    /** `handleUnload`: the store after the view is hidden or closed. */
    function HandleUnload(isClosing: bool, store: VolatileStore.Store): (saved: VolatileStore.Store)
      reads this
      ensures isClosing ==> saved == map[]
      ensures !isClosing ==> VolatileStore.RestoredIndex(saved) == currentRecordIndex
    {
      VolatileStore.AfterUnload(store, isClosing, currentRecordIndex)
    }

    predicate PreviousDisabled()
      reads this
    {
      Navigation.PreviousDisabled(currentRecordIndex)
    }

    predicate NextDisabled()
      reads this
    {
      Navigation.NextDisabled(currentRecordIndex, totalRecords)
    }

    predicate ButtonsShown()
      reads this
    {
      Navigation.ButtonsShown(totalRecords)
    }

    function NavigationTitle(): string
      reads this
    {
      formatter.wrapForBidi(Navigation.TitleText(currentRecordIndex, totalRecords, formatter.formatValue))
    }
  }

  /** A hide followed by a fresh mount brings the view back to the record it
      was showing; a close brings it back to the first. */
  method HideAndRemount(view: ToolView, isClosing: bool, store: VolatileStore.Store, selection: seq<Record>)
      returns (view': ToolView)
    ensures fresh(view')
    ensures view'.currentRecordIndex == if isClosing then 0 else view.currentRecordIndex
    ensures view'.Shows(Navigation.RecordAt(selection, view'.currentRecordIndex))
  {
    var saved := view.HandleUnload(isClosing, store);
    view' := new ToolView(view.formatter);
    view'.Mount(saved, selection);
  }

  /** Next then previous returns to the same index, whatever it was. */
  method NextThenPrevious(view: ToolView)
    modifies view
    ensures view.currentRecordIndex == old(view.currentRecordIndex)
  {
    view.HandleNextButtonClick();
    view.HandlePreviousButtonClick();
  }
}
