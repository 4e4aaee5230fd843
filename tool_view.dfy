/** What the React and Angular record-inspector tool views share: the
    navigation rules, the volatile store that keeps the index across a hide,
    and the projection of a record onto its displayed properties. */
module Navigation {
  import opened Common
  import opened Notebook

  /** `records[index]` in JavaScript: `undefined` for any index outside the
      array, negative ones included. */
  function RecordAt<T>(records: seq<T>, index: int): Option<T> {
    if 0 <= index < |records| then Some(records[index]) else None
  }

  /** The 'previous' button's `disabled` attribute. */
  predicate PreviousDisabled(index: int) {
    index == 0
  }

  /** The 'next' button's `disabled` attribute. */
  predicate NextDisabled(index: int, total: nat) {
    index == total - 1
  }

  /** The buttons are rendered only when something is selected. */
  predicate ButtonsShown(total: nat) {
    total > 0
  }

  const NoRecordsTitle: string := "No records selected."

  /** The navigation title before bidi wrapping: the one-based index and the
      total, each passed through the host's `formatValue`. */
  function TitleText(index: int, total: nat, formatValue: Value -> string): string {
    if total > 0 then "Record " + formatValue(Number(index + 1)) + " of " + formatValue(Number(total))
    else NoRecordsTitle
  }

  /** The title reads "No records selected." exactly when nothing is selected,
      whatever the formatter prints. */
  lemma TitleIsNoRecordsIffEmpty(index: int, total: nat, formatValue: Value -> string)
    ensures TitleText(index, total, formatValue) == NoRecordsTitle <==> total == 0
  {
    if total > 0 {
      var t := TitleText(index, total, formatValue);
      assert t[0] == 'R';
      assert NoRecordsTitle[0] == 'N';
    }
  }

  /** Clicking only enabled buttons keeps an index that starts inside the
      selection inside it. */
  lemma EnabledStepsStayInRange<T>(records: seq<T>, index: int)
    requires 0 <= index < |records|
    ensures !PreviousDisabled(index) ==> RecordAt(records, index - 1).Some?
    ensures !NextDisabled(index, |records|) ==> RecordAt(records, index + 1).Some?
  {
  }

  /** The index is not clamped: a restored index past the end shows nothing,
      and 'next' is still enabled there and moves further away. */
  lemma UnclampedIndexShowsNothing<T>(records: seq<T>, index: int)
    requires index >= |records| > 0
    ensures RecordAt(records, index).None? && RecordAt(records, index + 1).None?
    ensures !NextDisabled(index, |records|)
  {
  }
}

/** The tool view's volatile store, reduced to what the samples keep in it:
    the record index under the key "currentRecordIndex". */
module VolatileStore {
  type Store = map<string, int>

  const IndexKey: string := "currentRecordIndex"

  /** `volatileStore.get('currentRecordIndex') || 0`. A stored 0 is falsy and
      also gives 0, so the stored value is used whenever there is one. */
  function RestoredIndex(store: Store): int {
    if IndexKey in store then store[IndexKey] else 0
  }

  /** The 'unload' listener: a permanent close clears the store, a hide saves
      the current index and leaves every other key as it was. */
  function AfterUnload(store: Store, isClosing: bool, index: int): (r: Store)
    ensures isClosing ==> r == map[] && RestoredIndex(r) == 0
    ensures !isClosing ==> RestoredIndex(r) == index
    ensures !isClosing ==> forall k :: k in store && k != IndexKey ==> k in r && r[k] == store[k]
  {
    if isClosing then map[] else store[IndexKey := index]
  }
}

/** The projection of a record onto the list of properties a tool view shows. */
module Projection {
  import opened Common
  import opened Notebook

  /** One entry per property type of `pts`, in order, for those the record has
      a defined and fetched value for; `entry` builds the displayed row. */
  function Shown<T>(r: Record, pts: seq<PropertyType>, entry: (PropertyType, Value) -> T): (s: seq<T>)
    ensures |s| <= |pts|
  {
    if pts == [] then []
    else
      var pt := pts[|pts| - 1];
      Shown(r, pts[..|pts| - 1], entry) + (if r.HasFetchedValue(pt) then [entry(pt, r.values[pt.id])] else [])
  }

  /** The shown list follows the order of the property types. */
  lemma {:induction false} ShownAppend<T>(r: Record, a: seq<PropertyType>, b: seq<PropertyType>, entry: (PropertyType, Value) -> T)
    ensures Shown(r, a + b, entry) == Shown(r, a, entry) + Shown(r, b, entry)
    decreases |b|
  {
    if b == [] {
      assert a + b == a;
    } else {
      var b' := b[..|b| - 1];
      assert (a + b)[..|a + b| - 1] == a + b';
      assert (a + b)[|a + b| - 1] == b[|b| - 1];
      ShownAppend(r, a, b', entry);
    }
  }

  /** An entry is shown exactly when it is built from a property type of the
      list whose value is defined and fetched: undefined and unfetched values
      are skipped, never shown blank. */
  lemma {:induction false} ShownExactly<T>(r: Record, pts: seq<PropertyType>, entry: (PropertyType, Value) -> T, x: T)
    ensures x in Shown(r, pts, entry) <==>
            exists i :: 0 <= i < |pts| && r.HasFetchedValue(pts[i]) && x == entry(pts[i], r.values[pts[i].id])
    decreases |pts|
  {
    if pts != [] {
      var init := pts[..|pts| - 1];
      ShownExactly(r, init, entry, x);
      if x in Shown(r, init, entry) {
        var i :| 0 <= i < |init| && r.HasFetchedValue(init[i]) && x == entry(init[i], r.values[init[i].id]);
        assert pts[i] == init[i];
      }
      if exists i :: 0 <= i < |pts| && r.HasFetchedValue(pts[i]) && x == entry(pts[i], r.values[pts[i].id]) {
        var i :| 0 <= i < |pts| && r.HasFetchedValue(pts[i]) && x == entry(pts[i], r.values[pts[i].id]);
        if i < |init| {
          assert init[i] == pts[i];
        }
      }
    }
  }

  /** When every value is defined and fetched, each property type gives the
      entry at its own position. */
  lemma {:induction false} ShownAllFetched<T>(r: Record, pts: seq<PropertyType>, entry: (PropertyType, Value) -> T)
    requires forall i :: 0 <= i < |pts| ==> r.HasFetchedValue(pts[i])
    ensures |Shown(r, pts, entry)| == |pts|
    ensures forall i :: 0 <= i < |pts| && r.HasFetchedValue(pts[i]) ==> Shown(r, pts, entry)[i] == entry(pts[i], r.values[pts[i].id])
    decreases |pts|
  {
    if pts != [] {
      var init := pts[..|pts| - 1];
      assert forall i :: 0 <= i < |init| ==> init[i] == pts[i];
      ShownAllFetched(r, init, entry);
    }
  }

  /** `record.image ?? (record.isEntity() ? record.itemType.image : undefined)`:
      the record's own image, else its entity type's image, else none. */
  function ImageOf(r: Record): Option<Image> {
    if r.image.Some? then r.image
    else if r.IsEntity() then r.itemType.image
    else None
  }
}
