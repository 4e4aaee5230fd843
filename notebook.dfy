/** The host's chart data as plain values: item types with their property
    types, records with their property values, and the verdict a transaction
    callback hands back to the host (a list of mutations to commit, a
    rollback with an optional report, or an exception). The host itself is
    not modelled; its objects become these values. */
module Notebook {
  import opened Common

  datatype ItemKind = EntityKind | LinkKind

  datatype Image = Image(href: string, description: string)

  /** A property type of the chart schema: its chart id, the id it has in the
      information store schema (`analyzeId`, e.g. "PER4"), its display name
      and its logical type (e.g. "geospatial", "date"). */
  datatype PropertyType = PropertyType(id: string, analyzeId: string, displayName: string, logicalType: string)

  /** An entity or link type of the chart schema; `propertyTypes` is in
      schema-declared order. */
  datatype ItemType = ItemType(
    id: string,
    analyzeId: string,
    displayName: string,
    kind: ItemKind,
    image: Option<Image>,
    propertyTypes: seq<PropertyType>)

  /** A property value. Dates and coordinates are abstract: a geographic
      point carries its coordinates as the text JavaScript would print, a
      zoned date-time the local text and zone it was created from, a local
      date the text it was parsed from. */
  datatype Value =
    | Text(text: string)
    | Number(number: int)
    | Boolean(flag: bool)
    | GeoPoint(latitude: string, longitude: string)
    | ZonedDateTime(dateTime: string, timeZoneId: string)
    | LocalDate(source: string)

  /** A chart record. `values` holds the defined property values by chart
      property type id (a missing key is `undefined`); `unfetched` holds the
      ids whose value is still a placeholder that has not been fetched. */
  datatype Record = Record(
    id: string,
    itemType: ItemType,
    labelOrFallback: string,
    image: Option<Image>,
    threeSixtyUrl: Option<string>,
    values: map<string, Value>,
    unfetched: set<string>,
    isInfoStore: bool,
    elementId: string)
  {
    predicate IsEntity() {
      itemType.kind == EntityKind
    }

    /** `record.getProperty(propertyType)`. */
    function GetProperty(pt: PropertyType): Option<Value> {
      if pt.id in values then Some(values[pt.id]) else None
    }

    /** `record.isValueUnfetched(value)` for the value of `pt`. */
    predicate IsValueUnfetched(pt: PropertyType) {
      pt.id in unfetched
    }

    /** The test the samples write as
        `value !== undefined && !record.isValueUnfetched(value)`. */
    predicate HasFetchedValue(pt: PropertyType) {
      GetProperty(pt).Some? && !IsValueUnfetched(pt)
    }
  }

  /** `itemType.getPropertyType(analyzeId)`: the property type with that
      information store id, if the item type has one. */
  function GetPropertyType(t: ItemType, analyzeId: string): Option<PropertyType> {
    FindFirst(t.propertyTypes, (pt: PropertyType) => pt.analyzeId == analyzeId)
  }

  /** `schema.getItemType(analyzeId)` over the schema's item types. */
  function GetItemType(itemTypes: seq<ItemType>, analyzeId: string): Option<ItemType> {
    FindFirst(itemTypes, (t: ItemType) => t.analyzeId == analyzeId)
  }

  /** The host's formatter; both operations are opaque to the samples and are
      passed in. `wrapForBidi` is always used in 'raw' mode. */
  datatype Formatter = Formatter(formatValue: Value -> string, wrapForBidi: string -> string)

  datatype ReportKind = ErrorReport | InformationReport

  datatype Report = Report(kind: ReportKind, title: string, details: string)

  /** The `properties` argument of a record mutation: an object keyed by chart
      property type id, or a list of `[propertyType, value]` pairs. */
  datatype PropertySpec =
    | PropertyMap(byId: map<string, Value>)
    | PropertyPairs(pairs: seq<(PropertyType, Value)>)

  datatype LinkDirection = With | NoDirection

  /** A property type in an `addEntityType`/`addLinkType` request. */
  datatype NewPropertyType = NewPropertyType(displayName: string, logicalType: string, isLabelPart: bool)

  /** One call on the host's mutation object. Pending records are named by a
      handle: the number of records the same transaction added before it. */
  datatype Mutation =
    | AddEntityRecord(handle: nat, itemTypeId: string, properties: PropertySpec)
    | AddLinkRecord(handle: nat, itemTypeId: string, fromEnd: nat, toEnd: nat, direction: LinkDirection, properties: PropertySpec)
    | SelectionAdd(record: nat)
    | SelectionSet(record: nat)
    | EditRecordProperties(recordId: string, byId: map<string, Value>)
    | SetNodeCenter(nodeId: string, x: int, y: int)
    | SetNodeColor(nodeId: string, color: Option<string>)
    | FitToSelection
    | AddEntityType(displayName: string, icon: Option<string>, newPropertyTypes: seq<NewPropertyType>)
    | AddLinkType(displayName: string, newPropertyTypes: seq<NewPropertyType>)

  /** What a transaction callback returns to the host, or the exception it
      throws (what the host then does is not part of this model). */
  datatype Outcome =
    | Commit(mutations: seq<Mutation>, actionDisplayName: string)
    | Rollback(report: Option<Report>)
    | Threw(message: string)
}
