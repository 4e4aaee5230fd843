/** The "View on map" command that the basic, React and Vue samples carry in
    identical copies: find the first geographic point among the records and
    open it in a map. */
module Geospatial {
  import opened Common
  import opened Notebook

  /** A property type of the record that can supply the point: geospatial
      logical type, with a defined and fetched value. */
  predicate IsMatch(r: Record, pt: PropertyType) {
    pt.logicalType == "geospatial" && r.HasFetchedValue(pt)
  }

  /** The inner loop: the first matching property type of `pts`. */
  function FindInRecord(r: Record, pts: seq<PropertyType>): Option<Value> {
    if pts == [] then None
    else if IsMatch(r, pts[0]) then Some(r.values[pts[0].id])
    else FindInRecord(r, pts[1..])
  }

  /** `findGeospatialValue`: records in order, and within each record its item
      type's property types in order; the first match wins. */
  function FindGeospatialValue(records: seq<Record>): (r: Option<Value>)
    ensures r.None? <==> forall i :: 0 <= i < |records| ==> FindInRecord(records[i], records[i].itemType.propertyTypes).None?
  {
    if records == [] then None
    else match FindInRecord(records[0], records[0].itemType.propertyTypes)
      case Some(v) => Some(v)
      case None => FindGeospatialValue(records[1..])
  }

  /** Property type `j` of record `i` matches. */
  predicate MatchAt(records: seq<Record>, i: int, j: int) {
    && 0 <= i < |records|
    && 0 <= j < |records[i].itemType.propertyTypes|
    && IsMatch(records[i], records[i].itemType.propertyTypes[j])
  }

  /** No property type of record `i` before position `j` matches. */
  predicate NoMatchBefore(r: Record, j: int) {
    forall k :: 0 <= k < j && k < |r.itemType.propertyTypes| ==> !IsMatch(r, r.itemType.propertyTypes[k])
  }

  /** Position (i, j) holds the first match in record-then-property order. */
  predicate FirstMatchAt(records: seq<Record>, i: int, j: int) {
    && MatchAt(records, i, j)
    && (forall i' :: 0 <= i' < i ==> NoMatchBefore(records[i'], |records[i'].itemType.propertyTypes|))
    && NoMatchBefore(records[i], j)
  }

  lemma {:induction false} FindInRecordIsFirst(r: Record, pts: seq<PropertyType>)
    ensures FindInRecord(r, pts).None? <==> forall k :: 0 <= k < |pts| ==> !IsMatch(r, pts[k])
    ensures FindInRecord(r, pts).Some? ==>
      exists j :: 0 <= j < |pts| && IsMatch(r, pts[j]) && FindInRecord(r, pts).value == r.values[pts[j].id]
                  && forall k :: 0 <= k < j ==> !IsMatch(r, pts[k])
    decreases |pts|
  {
    if pts != [] && !IsMatch(r, pts[0]) {
      FindInRecordIsFirst(r, pts[1..]);
      if FindInRecord(r, pts[1..]).Some? {
        var j :| 0 <= j < |pts[1..]| && IsMatch(r, pts[1..][j]) && FindInRecord(r, pts[1..]).value == r.values[pts[1..][j].id]
                 && forall k :: 0 <= k < j ==> !IsMatch(r, pts[1..][k]);
        assert forall k :: 1 <= k < j + 1 ==> !IsMatch(r, pts[k]) by {
          forall k | 1 <= k < j + 1 ensures !IsMatch(r, pts[k]) {
            assert pts[k] == pts[1..][k - 1];
          }
        }
      } else {
        forall k | 0 <= k < |pts| ensures !IsMatch(r, pts[k]) {
          if k > 0 { assert pts[k] == pts[1..][k - 1]; }
        }
      }
    }
  }

  /** No value is found exactly when no record has a geospatial property with
      a defined, fetched value. */
  lemma {:induction false} NotFoundIffNoMatch(records: seq<Record>)
    ensures FindGeospatialValue(records).None? <==> forall i, j :: !MatchAt(records, i, j)
    decreases |records|
  {
    if records != [] {
      var r := records[0];
      FindInRecordIsFirst(r, r.itemType.propertyTypes);
      NotFoundIffNoMatch(records[1..]);
      if FindInRecord(r, r.itemType.propertyTypes).None? && FindGeospatialValue(records[1..]).None? {
        forall i, j ensures !MatchAt(records, i, j) {
          if 0 < i < |records| {
            assert records[i] == records[1..][i - 1];
            assert !MatchAt(records[1..], i - 1, j);
          }
        }
      } else if FindInRecord(r, r.itemType.propertyTypes).None? {
        var i, j :| MatchAt(records[1..], i, j);
        assert MatchAt(records, i + 1, j);
      } else {
        var j :| 0 <= j < |r.itemType.propertyTypes| && IsMatch(r, r.itemType.propertyTypes[j]);
        assert MatchAt(records, 0, j);
      }
    }
  }

  /** A found value is the value at the first match, in record order and then
      property type order. */
  lemma {:induction false} FoundIsFirstMatch(records: seq<Record>)
    requires FindGeospatialValue(records).Some?
    ensures exists i, j :: FirstMatchAt(records, i, j)
                        && FindGeospatialValue(records).value == records[i].values[records[i].itemType.propertyTypes[j].id]
    decreases |records|
  {
    var r := records[0];
    var pts := r.itemType.propertyTypes;
    FindInRecordIsFirst(r, pts);
    if FindInRecord(r, pts).Some? {
      var j :| 0 <= j < |pts| && IsMatch(r, pts[j]) && FindInRecord(r, pts).value == r.values[pts[j].id]
               && forall k :: 0 <= k < j ==> !IsMatch(r, pts[k]);
      assert FirstMatchAt(records, 0, j);
    } else {
      FoundIsFirstMatch(records[1..]);
      var i, j :| FirstMatchAt(records[1..], i, j)
                  && FindGeospatialValue(records[1..]).value == records[1..][i].values[records[1..][i].itemType.propertyTypes[j].id];
      forall i' | 0 <= i' < i + 1
        ensures NoMatchBefore(records[i'], |records[i'].itemType.propertyTypes|)
      {
        if i' > 0 { assert records[i'] == records[1..][i' - 1]; }
      }
      assert FirstMatchAt(records, i + 1, j);
    }
  }

  /** JavaScript truthiness of a value (`!!value`). */
  predicate Truthy(v: Value) {
    match v
    case Text(s) => s != ""
    case Number(n) => n != 0
    case Boolean(b) => b
    case _ => true
  }

  /** `onSurface`: the command is enabled when the search finds a truthy value. */
  predicate ViewOnMapEnabled(records: seq<Record>) {
    var found := FindGeospatialValue(records);
    found.Some? && Truthy(found.value)
  }

  /** A point's coordinate text as a template literal prints it; a value
      that is not a point has no such field and prints "undefined". */
  function LatitudeText(v: Value): string {
    if v.GeoPoint? then v.latitude else "undefined"
  }

  function LongitudeText(v: Value): string {
    if v.GeoPoint? then v.longitude else "undefined"
  }

  const MapsPrefix: string := "https://www.google.com/maps/@"
  const MapsSuffix: string := ",18z"

  /** `onExecute`: the URL passed to `window.open`, or nothing when the
      search finds no value. */
  function ViewOnMapUrl(records: seq<Record>): (url: Option<string>)
    ensures url.Some? <==> ViewOnMapEnabled(records)
    ensures url.Some? ==> url.value == MapsPrefix + LatitudeText(FindGeospatialValue(records).value) + ","
                                        + LongitudeText(FindGeospatialValue(records).value) + MapsSuffix
  {
    var found := FindGeospatialValue(records);
    if found.None? || !Truthy(found.value) then None
    else Some(MapsPrefix + LatitudeText(found.value) + "," + LongitudeText(found.value) + MapsSuffix)
  }

  /** When geospatial property types hold points, as the host's schema
      makes them, the command is enabled exactly when some record holds a
      defined, fetched point. */
  lemma EnabledIffPointPresent(records: seq<Record>)
    requires forall i, j :: MatchAt(records, i, j) ==> records[i].values[records[i].itemType.propertyTypes[j].id].GeoPoint?
    ensures ViewOnMapEnabled(records) <==> exists i, j :: MatchAt(records, i, j)
  {
    NotFoundIffNoMatch(records);
    if FindGeospatialValue(records).Some? {
      FoundIsFirstMatch(records);
    }
  }

  /** A found point opens the map centred on its own coordinates. */
  lemma UrlCarriesFirstPoint(records: seq<Record>, i: int, j: int)
    requires FirstMatchAt(records, i, j)
    requires records[i].values[records[i].itemType.propertyTypes[j].id].GeoPoint?
    ensures var p := records[i].values[records[i].itemType.propertyTypes[j].id];
            ViewOnMapUrl(records) == Some(MapsPrefix + p.latitude + "," + p.longitude + MapsSuffix)
  {
    NotFoundIffNoMatch(records);
    FoundIsFirstMatch(records);
    var i', j' :| FirstMatchAt(records, i', j')
                  && FindGeospatialValue(records).value == records[i'].values[records[i'].itemType.propertyTypes[j'].id];
    FirstMatchUnique(records, i, j, i', j');
  }

  /** There is only one first match. */
  lemma FirstMatchUnique(records: seq<Record>, i: int, j: int, i': int, j': int)
    requires FirstMatchAt(records, i, j) && FirstMatchAt(records, i', j')
    ensures i == i' && j == j'
  {
  }
}
