/** The mutation sample: an "Add items" command that adds a fixed batch of
    people and events with links between them, and an "Arrange events"
    command that lays the selected event nodes out in a row by date. */
module MutationSample {
  import opened Common
  import opened Notebook

  const PersonEntityTypeId: string := "ET5"
  const EventEntityTypeId: string := "ET2"
  const NodeSpacing: int := 200

  datatype PersonData = PersonData(firstName: string, familyName: string)

  datatype EventData = EventData(eventType: string, location: Option<string>, dateTime: string, timeZoneId: string, wasSeen: string)

  const SamplePersons: seq<PersonData> := [
    PersonData("Lou", "Tuft"),
    PersonData("Jessy", "Roberts"),
    PersonData("Jayme", "Timberson")
  ]

  const SampleEvents: seq<EventData> := [
    EventData("Theft", None, "2022-03-01T12:31", "Europe/London", "Tuft"),
    EventData("Arson", Some("New York"), "2021-11-23T10:33", "America/New_York", "Roberts"),
    EventData("Assault", None, "2022-05-07T17:14", "America/Los_Angeles", "Timberson")
  ]

  datatype TimeZone = TimeZone(id: string)

  /** The chart ids that "Add items" resolves from the schema before its
      transaction: the person type ET5 with PER4 and PER6, the event type ET2
      with EVE3 and EVE4, and the link type LOB1. */
  datatype SchemaIds = SchemaIds(
    personType: string, firstName: string, familyName: string,
    eventType: string, eventTypeProperty: string, startDateTime: string,
    observedLinkType: string)

  // ---------------------------------------------------------------- getTimeZone

  /** The message `getTimeZone` throws, as written: an ordinary string literal,
      so `${timeZoneId}` is not substituted. */
  const UnknownTimeZoneAsWritten: string := "Unknown time zone matching ${timeZoneId}"

  function GetTimeZoneAsWritten(zones: map<string, TimeZone>, timeZoneId: string): (r: Result<TimeZone>)
    ensures r.Ok? <==> timeZoneId in zones
    ensures r.Ok? ==> r.value == zones[timeZoneId]
    ensures r.Err? ==> r.message == UnknownTimeZoneAsWritten
  {
    if timeZoneId in zones then Ok(zones[timeZoneId]) else Err(UnknownTimeZoneAsWritten)
  }

  /** As written, two different unknown zones give the same message, which
      names neither of them. */
  lemma AsWrittenMessageOmitsZone()
    ensures GetTimeZoneAsWritten(map[], "Europe/London") == GetTimeZoneAsWritten(map[], "America/New_York")
    ensures !("Europe/London" <= GetTimeZoneAsWritten(map[], "Europe/London").message[27..])
  {
    assert GetTimeZoneAsWritten(map[], "Europe/London").message[27..] == "${timeZoneId}";
    assert "${timeZoneId}"[0] != "Europe/London"[0];
  }

  function UnknownTimeZoneMessage(timeZoneId: string): string {
    "Unknown time zone matching " + timeZoneId
  }

  /** `getTimeZone` with the message it evidently means to throw: the zone for
      a known id, an error naming the id otherwise. */
  function GetTimeZone(zones: map<string, TimeZone>, timeZoneId: string): (r: Result<TimeZone>)
    ensures r.Ok? <==> timeZoneId in zones
    ensures r.Ok? ==> r.value == zones[timeZoneId]
    ensures r.Err? ==> UnknownTimeZoneMessage("") <= r.message && r.message[|UnknownTimeZoneMessage("")|..] == timeZoneId
  {
    if timeZoneId in zones then Ok(zones[timeZoneId]) else Err(UnknownTimeZoneMessage(timeZoneId))
  }

  // ------------------------------------------------------------------ Add items

  /** `personLookup` after the first loop: each family name maps to the handle
      of the last person added with it (`Map.set` overwrites). */
  function PersonLookup(persons: seq<PersonData>): map<string, nat> {
    if persons == [] then map[]
    else PersonLookup(persons[..|persons| - 1])[persons[|persons| - 1].familyName := |persons| - 1]
  }

  lemma {:induction false} PersonLookupIsLast(persons: seq<PersonData>, name: string)
    ensures name in PersonLookup(persons) <==> exists j :: 0 <= j < |persons| && persons[j].familyName == name
    ensures name in PersonLookup(persons) ==>
              var h := PersonLookup(persons)[name];
              h < |persons| && persons[h].familyName == name
              && forall j :: h < j < |persons| ==> persons[j].familyName != name
    decreases |persons|
  {
    if persons != [] {
      var init := persons[..|persons| - 1];
      PersonLookupIsLast(init, name);
      if exists j :: 0 <= j < |init| && init[j].familyName == name {
        var j :| 0 <= j < |init| && init[j].familyName == name;
        assert persons[j] == init[j];
      }
      if exists j :: 0 <= j < |persons| && persons[j].familyName == name {
        var j :| 0 <= j < |persons| && persons[j].familyName == name;
        if j < |init| { assert init[j] == persons[j]; }
      }
      if name in PersonLookup(init) && persons[|persons| - 1].familyName != name {
        assert forall j :: 0 <= j < |init| ==> init[j] == persons[j];
      }
    }
  }

  function PersonMutation(person: PersonData, handle: nat, ids: SchemaIds): Mutation {
    AddEntityRecord(handle, ids.personType,
      PropertyMap(map[ids.firstName := Text(person.firstName)][ids.familyName := Text(person.familyName)]))
  }

  /** The three calls for one event: the event record (pending handle
      `handle`), the 'with' link from it to the person (pending handle
      `handle + 1`), and the selection of the event record. */
  function EventMutations(event: EventData, handle: nat, person: nat, zone: TimeZone, ids: SchemaIds): seq<Mutation> {
    [ AddEntityRecord(handle, ids.eventType,
        PropertyMap(map[ids.eventTypeProperty := Text(event.eventType)][ids.startDateTime := ZonedDateTime(event.dateTime, zone.id)])),
      AddLinkRecord(handle + 1, ids.observedLinkType, handle, person, With, PropertyMap(map[])),
      SelectionAdd(handle) ]
  }

  /** The event can be added: its zone is known and some person has the
      family name it was seen with. */
  predicate EventAddable(event: EventData, persons: seq<PersonData>, zones: map<string, TimeZone>) {
    event.timeZoneId in zones && event.wasSeen in PersonLookup(persons)
  }

  /** What the events loop throws for an event that cannot be added: the
      zone is resolved first, the person second. */
  function EventError(event: EventData, zones: map<string, TimeZone>): string {
    if event.timeZoneId !in zones then UnknownTimeZoneMessage(event.timeZoneId)
    else "Person matching " + event.wasSeen + " is missing"
  }

  /** The persons loop of "Add items": one person record per person, and the
      lookup from family name to pending record. */
  method AddPersons(persons: seq<PersonData>, ids: SchemaIds) returns (mutations: seq<Mutation>, personLookup: map<string, nat>)
    ensures |mutations| == |persons|
    ensures forall i :: 0 <= i < |persons| ==> mutations[i] == PersonMutation(persons[i], i, ids)
    ensures personLookup == PersonLookup(persons)
  {
    mutations := [];
    personLookup := map[];
    var i := 0;
    while i < |persons|
      invariant 0 <= i <= |persons|
      invariant |mutations| == i
      invariant forall j :: 0 <= j < i ==> mutations[j] == PersonMutation(persons[j], j, ids)
      invariant personLookup == PersonLookup(persons[..i])
    {
      var person := persons[i];
      mutations := mutations + [PersonMutation(person, i, ids)];
      personLookup := personLookup[person.familyName := i];
      assert persons[..i + 1][..i] == persons[..i];
      i := i + 1;
    }
    assert persons[..i] == persons;
  }

  /** The body of the events loop: the zone is resolved first, then the person
      seen, and only then are the event's three mutations made. */
  method AddEvent(event: EventData, handle: nat, personLookup: map<string, nat>, persons: seq<PersonData>,
                  zones: map<string, TimeZone>, ids: SchemaIds)
      returns (added: Result<seq<Mutation>>)
    requires personLookup == PersonLookup(persons)
    ensures added.Ok? <==> EventAddable(event, persons, zones)
    ensures added.Err? ==> added.message == EventError(event, zones)
    ensures added.Ok? ==>
              added.value == EventMutations(event, handle, personLookup[event.wasSeen], zones[event.timeZoneId], ids)
  {
    var zone := GetTimeZone(zones, event.timeZoneId);
    if zone.Err? {
      return Err(zone.message);
    }
    if event.wasSeen !in personLookup {
      return Err("Person matching " + event.wasSeen + " is missing");
    }
    var person := personLookup[event.wasSeen];
    added := Ok(EventMutations(event, handle, person, zone.value, ids));
  }

  /** Appending one event's three mutations keeps the earlier blocks of three
      and puts the new block after them. */
  lemma AppendKeepsBlocks(before: seq<Mutation>, added: seq<Mutation>, k: nat)
    requires |before| == 3 * k && |added| == 3
    ensures forall k' :: 0 <= k' < k ==> (before + added)[3 * k' .. 3 * k' + 3] == before[3 * k' .. 3 * k' + 3]
    ensures (before + added)[3 * k .. 3 * k + 3] == added
  {
  }

  /** The events loop of "Add items": for event k the event record, the link
      to the person seen and the selection, with handles after the persons'; it
      stops at the first event whose zone or person is unknown. */
  method AddEvents(persons: seq<PersonData>, personLookup: map<string, nat>, events: seq<EventData>,
                   zones: map<string, TimeZone>, ids: SchemaIds)
      returns (added: Result<seq<Mutation>>)
    requires personLookup == PersonLookup(persons)
    ensures added.Ok? <==> forall k :: 0 <= k < |events| ==> EventAddable(events[k], persons, zones)
    ensures added.Err? ==>
      exists k :: 0 <= k < |events| && !EventAddable(events[k], persons, zones)
                  && (forall k' :: 0 <= k' < k ==> EventAddable(events[k'], persons, zones))
                  && added.message == EventError(events[k], zones)
    ensures added.Ok? ==>
      && |added.value| == 3 * |events|
      && forall k :: 0 <= k < |events| ==>
           added.value[3 * k .. 3 * k + 3]
           == EventMutations(events[k], |persons| + 2 * k, PersonLookup(persons)[events[k].wasSeen],
                             zones[events[k].timeZoneId], ids)
  {
    var mutations: seq<Mutation> := [];
    var k := 0;
    while k < |events|
      invariant 0 <= k <= |events|
      invariant |mutations| == 3 * k
      invariant forall k' :: 0 <= k' < k ==> EventAddable(events[k'], persons, zones)
      invariant forall k' :: 0 <= k' < k ==>
        mutations[3 * k' .. 3 * k' + 3]
        == EventMutations(events[k'], |persons| + 2 * k', PersonLookup(persons)[events[k'].wasSeen],
                          zones[events[k'].timeZoneId], ids)
    {
      var step := AddEvent(events[k], |persons| + 2 * k, personLookup, persons, zones, ids);
      if step.Err? {
        assert !EventAddable(events[k], persons, zones);
        return Err(step.message);
      }
      AppendKeepsBlocks(mutations, step.value, k);
      mutations := mutations + step.value;
      k := k + 1;
    }
    added := Ok(mutations);
  }

  /** The persons' records followed by the events' blocks of three. */
  lemma ConcatBlocks(front: seq<Mutation>, blocks: seq<Mutation>, n: nat)
    requires |blocks| == 3 * n
    ensures forall i :: 0 <= i < |front| ==> (front + blocks)[i] == front[i]
    ensures forall k :: 0 <= k < n ==> (front + blocks)[|front| + 3 * k .. |front| + 3 * k + 3] == blocks[3 * k .. 3 * k + 3]
  {
  }

  /** The "Add items" transaction. It commits one person record per person,
      then for event k the event record, the link to the last person with the
      family name it was seen with, and the selection of the event record; it
      throws at the first event whose zone or person is unknown. */
  method AddItems(persons: seq<PersonData>, events: seq<EventData>, zones: map<string, TimeZone>, ids: SchemaIds)
      returns (outcome: Outcome)
    ensures outcome.Commit? || outcome.Threw?
    ensures outcome.Commit? <==> forall k :: 0 <= k < |events| ==> EventAddable(events[k], persons, zones)
    ensures outcome.Threw? ==>
      exists k :: 0 <= k < |events| && !EventAddable(events[k], persons, zones)
                  && (forall k' :: 0 <= k' < k ==> EventAddable(events[k'], persons, zones))
                  && outcome.message == EventError(events[k], zones)
    ensures outcome.Commit? ==>
      && outcome.actionDisplayName == "Add items"
      && |outcome.mutations| == |persons| + 3 * |events|
      && (forall i :: 0 <= i < |persons| ==> outcome.mutations[i] == PersonMutation(persons[i], i, ids))
      && (forall k :: 0 <= k < |events| ==>
            outcome.mutations[|persons| + 3 * k .. |persons| + 3 * k + 3]
            == EventMutations(events[k], |persons| + 2 * k, PersonLookup(persons)[events[k].wasSeen],
                              zones[events[k].timeZoneId], ids))
  {
    var personMutations, personLookup := AddPersons(persons, ids);
    var eventMutations := AddEvents(persons, personLookup, events, zones, ids);
    if eventMutations.Err? {
      return Threw(eventMutations.message);
    }
    ConcatBlocks(personMutations, eventMutations.value, |events|);
    outcome := Commit(personMutations + eventMutations.value, "Add items");
  }

  /** Every link made by "Add items" ends at a person with the family name its
      event was seen with, and only event records are selected. */
  lemma AddedLinksEndAtSeenPerson(persons: seq<PersonData>, events: seq<EventData>, zones: map<string, TimeZone>, k: nat)
    requires k < |events| && EventAddable(events[k], persons, zones)
    ensures var person := PersonLookup(persons)[events[k].wasSeen];
            person < |persons| && persons[person].familyName == events[k].wasSeen
  {
    PersonLookupIsLast(persons, events[k].wasSeen);
  }

  /** With the zones of the sample data, the sample batch commits: 3 people,
      3 events, 3 links and 3 selections. */
  lemma SampleBatchIsAddable(zones: map<string, TimeZone>)
    requires "Europe/London" in zones && "America/New_York" in zones && "America/Los_Angeles" in zones
    ensures forall k :: 0 <= k < |SampleEvents| ==> EventAddable(SampleEvents[k], SamplePersons, zones)
  {
    PersonLookupIsLast(SamplePersons, "Tuft");
    PersonLookupIsLast(SamplePersons, "Roberts");
    PersonLookupIsLast(SamplePersons, "Timberson");
    assert SamplePersons[0].familyName == "Tuft";
    assert SamplePersons[1].familyName == "Roberts";
    assert SamplePersons[2].familyName == "Timberson";
  }

  // ------------------------------------------------------------- Arrange events

  datatype Point = Point(x: int, y: int)

  /** A chart node: its id, the records it shows, and its centre. */
  datatype Node = Node(id: string, records: seq<Record>, center: Point)

  const NotEventsReport: Report :=
    Report(ErrorReport, "Cannot arrange items", "Selection must contain only Event record types")

  const NothingSelectedReport: Report :=
    Report(InformationReport, "Nothing selected", "Nothing was selected, so no events were arranged.")

  const MissingRecordMessage: string := "Unexpected missing record"

  /** `getEventDate`: the start date-time of the node's first record, when it
      is defined and fetched; a node without records throws. */
  function GetEventDate(node: Node, startDateTime: PropertyType): (r: Result<Option<Value>>)
    ensures r.Err? <==> node.records == []
    ensures r.Ok? && r.value.Some? <==> node.records != [] && node.records[0].HasFetchedValue(startDateTime)
  {
    if node.records == [] then Err(MissingRecordMessage)
    else
      var eventRecord := node.records[0];
      if eventRecord.HasFetchedValue(startDateTime) then Ok(Some(eventRecord.values[startDateTime.id]))
      else Ok(None)
  }

  /** `compareEvents`: the difference of the two instants, or 0 when either
      date is missing. `timeOf` stands for `dateTime.toJSDate().getTime()`. */
  function CompareEvents(a: Node, b: Node, startDateTime: PropertyType, timeOf: Value -> int): (r: Result<int>)
    ensures r.Err? <==> a.records == [] || b.records == []
    ensures r.Err? ==> r.message == MissingRecordMessage
  {
    match (GetEventDate(a, startDateTime), GetEventDate(b, startDateTime))
    case (Err(m), _) => Err(m)
    case (_, Err(m)) => Err(m)
    case (Ok(da), Ok(db)) => Ok(if da.Some? && db.Some? then timeOf(da.value) - timeOf(db.value) else 0)
  }

  /** The comparator is antisymmetric: swapping the two nodes negates the
      difference, and a node compared with itself is level. */
  lemma CompareEventsAntisymmetric(a: Node, b: Node, startDateTime: PropertyType, timeOf: Value -> int)
    ensures CompareEvents(a, b, startDateTime, timeOf).Ok? ==>
              CompareEvents(b, a, startDateTime, timeOf) == Ok(-CompareEvents(a, b, startDateTime, timeOf).value)
    ensures a.records != [] ==> CompareEvents(a, a, startDateTime, timeOf) == Ok(0)
  {
  }

  /** The instant a node sorts by, when it has one. */
  function SortKey(node: Node, startDateTime: PropertyType, timeOf: Value -> int): Option<int> {
    if node.records != [] && node.records[0].HasFetchedValue(startDateTime)
    then Some(timeOf(node.records[0].values[startDateTime.id]))
    else None
  }

  /** The comparator on sort keys: undated nodes compare equal to everything. */
  function CompareKeys(a: Option<int>, b: Option<int>): int {
    if a.Some? && b.Some? then a.value - b.value else 0
  }

  /** On nodes that have records, `compareEvents` is `CompareKeys` on their
      sort keys. */
  lemma CompareEventsByKey(a: Node, b: Node, startDateTime: PropertyType, timeOf: Value -> int)
    requires a.records != [] && b.records != []
    ensures CompareEvents(a, b, startDateTime, timeOf)
            == Ok(CompareKeys(SortKey(a, startDateTime, timeOf), SortKey(b, startDateTime, timeOf)))
  {
  }

  /** Inserts a node after every node that does not compare greater than it. */
  function Insert(node: Node, sorted: seq<Node>, key: Node -> Option<int>): (r: seq<Node>)
    ensures |r| == |sorted| + 1
  {
    if sorted == [] then [node]
    else if CompareKeys(key(node), key(sorted[0])) < 0 then [node] + sorted
    else [sorted[0]] + Insert(node, sorted[1..], key)
  }

  /** `Array.prototype.sort` with the comparator, as a stable insertion sort. */
  function SortEvents(nodes: seq<Node>, key: Node -> Option<int>): (r: seq<Node>)
    ensures |r| == |nodes|
  {
    if nodes == [] then []
    else Insert(nodes[|nodes| - 1], SortEvents(nodes[..|nodes| - 1], key), key)
  }

  lemma {:induction false} InsertPermutes(node: Node, sorted: seq<Node>, key: Node -> Option<int>)
    ensures multiset(Insert(node, sorted, key)) == multiset(sorted) + multiset{node}
    decreases |sorted|
  {
    if sorted != [] && CompareKeys(key(node), key(sorted[0])) >= 0 {
      InsertPermutes(node, sorted[1..], key);
      assert sorted == [sorted[0]] + sorted[1..];
    }
  }

  /** Sorting rearranges the nodes: nothing is lost, added or duplicated. */
  lemma {:induction false} SortPermutes(nodes: seq<Node>, key: Node -> Option<int>)
    ensures multiset(SortEvents(nodes, key)) == multiset(nodes)
    decreases |nodes|
  {
    if nodes != [] {
      var init := nodes[..|nodes| - 1];
      SortPermutes(init, key);
      InsertPermutes(nodes[|nodes| - 1], SortEvents(init, key), key);
      assert nodes == init + [nodes[|nodes| - 1]];
    }
  }

  predicate AllDated(nodes: seq<Node>, key: Node -> Option<int>) {
    forall i :: 0 <= i < |nodes| ==> key(nodes[i]).Some?
  }

  predicate ByTime(nodes: seq<Node>, key: Node -> Option<int>)
    requires AllDated(nodes, key)
  {
    forall i, j :: 0 <= i < j < |nodes| ==> key(nodes[i]).value <= key(nodes[j]).value
  }

  /** The inserted sequence holds the new node and the old ones, nothing else. */
  lemma {:induction false} InsertMembers(node: Node, sorted: seq<Node>, key: Node -> Option<int>)
    ensures forall x :: x in Insert(node, sorted, key) <==> x == node || x in sorted
    decreases |sorted|
  {
    if sorted != [] && CompareKeys(key(node), key(sorted[0])) >= 0 {
      InsertMembers(node, sorted[1..], key);
      assert sorted == [sorted[0]] + sorted[1..];
    }
  }

  lemma {:induction false} InsertKeepsOrder(node: Node, sorted: seq<Node>, key: Node -> Option<int>)
    requires key(node).Some? && AllDated(sorted, key) && ByTime(sorted, key)
    ensures AllDated(Insert(node, sorted, key), key) && ByTime(Insert(node, sorted, key), key)
    decreases |sorted|
  {
    var r := Insert(node, sorted, key);
    InsertMembers(node, sorted, key);
    forall i | 0 <= i < |r| ensures key(r[i]).Some? {
      assert r[i] in r;
      if r[i] != node {
        var m :| 0 <= m < |sorted| && sorted[m] == r[i];
      }
    }
    if sorted != [] && CompareKeys(key(node), key(sorted[0])) >= 0 {
      var rest := Insert(node, sorted[1..], key);
      assert AllDated(sorted[1..], key) && ByTime(sorted[1..], key) by {
        forall i | 0 <= i < |sorted[1..]| ensures sorted[1..][i] == sorted[i + 1] { }
      }
      InsertKeepsOrder(node, sorted[1..], key);
      InsertMembers(node, sorted[1..], key);
      forall j | 0 <= j < |rest| ensures key(sorted[0]).value <= key(rest[j]).value {
        assert rest[j] in rest;
        if rest[j] != node {
          var m :| 0 <= m < |sorted[1..]| && sorted[1..][m] == rest[j];
          assert sorted[m + 1] == rest[j];
        }
      }
      assert r == [sorted[0]] + rest;
    }
  }

  /** When every node has a date, the sorted nodes run from earliest to latest. */
  lemma {:induction false} SortOrdersByTime(nodes: seq<Node>, key: Node -> Option<int>)
    requires AllDated(nodes, key)
    ensures AllDated(SortEvents(nodes, key), key) && ByTime(SortEvents(nodes, key), key)
    decreases |nodes|
  {
    if nodes != [] {
      var init := nodes[..|nodes| - 1];
      assert AllDated(init, key) by {
        forall i | 0 <= i < |init| ensures init[i] == nodes[i] { }
      }
      SortOrdersByTime(init, key);
      InsertKeepsOrder(nodes[|nodes| - 1], SortEvents(init, key), key);
    }
  }

  /** The layout loop: the i-th node is centred `NodeSpacing * i` to the right
      of `target`, at the same height. */
  method LayOut(sorted: seq<Node>, target: Point) returns (mutations: seq<Mutation>)
    ensures |mutations| == |sorted|
    ensures forall i :: 0 <= i < |sorted| ==>
              mutations[i] == SetNodeCenter(sorted[i].id, target.x + NodeSpacing * i, target.y)
  {
    mutations := [];
    var targetX := target.x;
    var i := 0;
    while i < |sorted|
      invariant 0 <= i <= |sorted|
      invariant targetX == target.x + NodeSpacing * i
      invariant |mutations| == i
      invariant forall j :: 0 <= j < i ==> mutations[j] == SetNodeCenter(sorted[j].id, target.x + NodeSpacing * j, target.y)
    {
      mutations := mutations + [SetNodeCenter(sorted[i].id, targetX, target.y)];
      targetX := targetX + NodeSpacing;
      i := i + 1;
    }
  }

  /** `selection.entityRecords.every(...)`. */
  predicate AllEvents(entityRecords: seq<Record>) {
    forall r :: r in entityRecords ==> r.itemType.analyzeId == EventEntityTypeId
  }

  /** The "Arrange events" transaction over the selected entity records and the
      selection's affected nodes. A sort of two or more nodes compares every
      node, so it throws when one of them has no record. */
  method ArrangeEvents(entityRecords: seq<Record>, affectedNodes: seq<Node>, startDateTime: PropertyType, timeOf: Value -> int)
      returns (outcome: Outcome)
    ensures !AllEvents(entityRecords) <==> outcome == Rollback(Some(NotEventsReport))
    ensures AllEvents(entityRecords) && affectedNodes == [] <==> outcome == Rollback(Some(NothingSelectedReport))
    ensures outcome.Threw? <==>
              AllEvents(entityRecords) && |affectedNodes| >= 2 && exists n :: n in affectedNodes && n.records == []
    ensures outcome.Commit? <==>
              && AllEvents(entityRecords) && affectedNodes != []
              && !(|affectedNodes| >= 2 && exists n :: n in affectedNodes && n.records == [])
    ensures outcome.Commit? ==>
      var sorted := SortEvents(affectedNodes, n => SortKey(n, startDateTime, timeOf));
      var first := affectedNodes[0].center;
      && outcome.actionDisplayName == "Arrange events"
      && |outcome.mutations| == |affectedNodes| + 1
      && outcome.mutations[|affectedNodes|] == FitToSelection
      && forall i :: 0 <= i < |affectedNodes| ==>
           outcome.mutations[i] == SetNodeCenter(sorted[i].id, first.x + NodeSpacing * i, first.y)
  {
    var i := 0;
    while i < |entityRecords|
      invariant 0 <= i <= |entityRecords|
      invariant forall j :: 0 <= j < i ==> entityRecords[j].itemType.analyzeId == EventEntityTypeId
    {
      if entityRecords[i].itemType.analyzeId != EventEntityTypeId {
        return Rollback(Some(NotEventsReport));
      }
      i := i + 1;
    }
    if affectedNodes == [] {
      return Rollback(Some(NothingSelectedReport));
    }
    var firstEvent := affectedNodes[0];
    if |affectedNodes| >= 2 && exists n :: n in affectedNodes && n.records == [] {
      return Threw(MissingRecordMessage);
    }
    var key := n => SortKey(n, startDateTime, timeOf);
    var sortedEvents := SortEvents(affectedNodes, key);
    var laidOut := LayOut(sortedEvents, firstEvent.center);
    outcome := Commit(laidOut + [FitToSelection], "Arrange events");
  }
}
