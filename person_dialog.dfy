/** The page shown inside the person dialog: it fills its inputs from the
    dialog's initial value, keeps the submit action enabled only while both
    names are non-blank, and answers the dialog's actions. */
module PersonDialog {
  import opened Common
  import opened Notebook
  import opened DialogEntrypoint

  /** ECMAScript WhiteSpace and LineTerminator code points, the characters
      `String.prototype.trim` removes. */
  predicate IsWhiteSpace(c: char) {
    || c == '\t' || c == '\n' || c == '\U{000B}' || c == '\U{000C}' || c == '\r'
    || c == ' ' || c == '\U{00A0}' || c == '\U{1680}'
    || ('\U{2000}' <= c <= '\U{200A}')
    || c == '\U{2028}' || c == '\U{2029}' || c == '\U{202F}' || c == '\U{205F}'
    || c == '\U{3000}' || c == '\U{FEFF}'
  }

  /** `s` with its leading white space removed. */
  function TrimStart(s: string): (r: string)
    ensures |r| <= |s| && r == s[|s| - |r|..]
    ensures forall i :: 0 <= i < |s| - |r| ==> IsWhiteSpace(s[i])
    ensures r == [] || !IsWhiteSpace(r[0])
  {
    if s != [] && IsWhiteSpace(s[0]) then TrimStart(s[1..]) else s
  }

  /** `s` with its trailing white space removed. */
  function TrimEnd(s: string): (r: string)
    ensures |r| <= |s| && r == s[..|r|]
    ensures forall i :: |r| <= i < |s| ==> IsWhiteSpace(s[i])
    ensures r == [] || !IsWhiteSpace(r[|r| - 1])
  {
    if s != [] && IsWhiteSpace(s[|s| - 1]) then TrimEnd(s[..|s| - 1]) else s
  }

  /** `s` without leading and trailing white space; it is empty exactly when
      `s` is all white space. */
  function Trim(s: string): (r: string)
    ensures r == "" <==> forall i :: 0 <= i < |s| ==> IsWhiteSpace(s[i])
  {
    TrimEnd(TrimStart(s))
  }

  /** An input element of the form: its name and current value. */
  datatype Input = Input(name: string, value: string)

  /** What the 'action' listener asks the dialog to do. */
  datatype Closing = SubmitAndClose(entries: seq<(string, string)>) | Close

  /** The first input with this name, as `querySelector` finds it. */
  function FirstInputIndex(inputs: seq<Input>, name: string): Option<nat> {
    FindFirstIndex(inputs, (input: Input) => input.name == name)
  }

  /** Both name inputs exist, so the listeners are installed. */
  predicate HasNameInputs(inputs: seq<Input>) {
    FirstInputIndex(inputs, FirstNamePropertyTypeId).Some? && FirstInputIndex(inputs, FamilyNamePropertyTypeId).Some?
  }

  /** Both name inputs are non-blank after trimming. */
  predicate NamesFilled(inputs: seq<Input>)
    requires HasNameInputs(inputs)
  {
    && Trim(inputs[FirstInputIndex(inputs, FirstNamePropertyTypeId).value].value) != ""
    && Trim(inputs[FirstInputIndex(inputs, FamilyNamePropertyTypeId).value].value) != ""
  }

  /** One initial item assigned to the first input named after its property
      type's id, if there is one. */
  function AssignItem(inputs: seq<Input>, item: InitialItem, toText: Value -> string): (r: seq<Input>)
    ensures |r| == |inputs| && forall i :: 0 <= i < |r| ==> r[i].name == inputs[i].name
  {
    match FirstInputIndex(inputs, item.propertyType.analyzeId)
    case None => inputs
    case Some(k) => inputs[k := Input(inputs[k].name, toText(item.value))]
  }

  /** The items assigned in order, so a later item for the same input wins. */
  function AssignAll(inputs: seq<Input>, items: seq<InitialItem>, toText: Value -> string): (r: seq<Input>)
    ensures |r| == |inputs| && forall i :: 0 <= i < |r| ==> r[i].name == inputs[i].name
  {
    if items == [] then inputs
    else AssignItem(AssignAll(inputs, items[..|items| - 1], toText), items[|items| - 1], toText)
  }

  /** Whether `item` is assigned to the input at `j`: that input is the first
      one named after the item's property type id. */
  predicate Targets(inputs: seq<Input>, item: InitialItem, j: nat) {
    FirstInputIndex(inputs, item.propertyType.analyzeId) == Some(j)
  }

  /** One item sets the input it targets and leaves every other input's value,
      on any inputs with the same names. */
  lemma AssignItemAt(inputs: seq<Input>, current: seq<Input>, item: InitialItem, toText: Value -> string, j: nat)
    requires j < |inputs| == |current| && forall i :: 0 <= i < |inputs| ==> current[i].name == inputs[i].name
    ensures Targets(inputs, item, j) ==> AssignItem(current, item, toText)[j].value == toText(item.value)
    ensures !Targets(inputs, item, j) ==> AssignItem(current, item, toText)[j].value == current[j].value
  {
    SameNamesSameFirst(current, inputs, item.propertyType.analyzeId);
  }

  /** After the assignment loop an input that no item targets keeps its value. */
  lemma {:induction false} AssignAllKeeps(inputs: seq<Input>, items: seq<InitialItem>, toText: Value -> string, j: nat)
    requires j < |inputs|
    requires forall k :: 0 <= k < |items| ==> !Targets(inputs, items[k], j)
    ensures AssignAll(inputs, items, toText)[j].value == inputs[j].value
    decreases |items|
  {
    if items != [] {
      var init := items[..|items| - 1];
      assert forall k :: 0 <= k < |init| ==> init[k] == items[k];
      AssignAllKeeps(inputs, init, toText, j);
      AssignItemAt(inputs, AssignAll(inputs, init, toText), items[|items| - 1], toText, j);
    }
  }

  /** After the assignment loop an input holds the text of the last item that
      targets it: a later item for the same input wins. */
  lemma {:induction false} AssignAllLastWins(inputs: seq<Input>, items: seq<InitialItem>, toText: Value -> string, j: nat, k: nat)
    requires j < |inputs| && k < |items| && Targets(inputs, items[k], j)
    requires forall k' :: k < k' < |items| ==> !Targets(inputs, items[k'], j)
    ensures AssignAll(inputs, items, toText)[j].value == toText(items[k].value)
    decreases |items|
  {
    var init := items[..|items| - 1];
    var last := items[|items| - 1];
    AssignItemAt(inputs, AssignAll(inputs, init, toText), last, toText, j);
    if k < |items| - 1 {
      assert forall k' :: 0 <= k' < |init| ==> init[k'] == items[k'];
      AssignAllLastWins(inputs, init, toText, j, k);
    }
  }

  /** The form's data as entries, in document order. */
  function FormEntries(inputs: seq<Input>): (entries: seq<(string, string)>)
    ensures |entries| == |inputs|
  {
    seq(|inputs|, i requires 0 <= i < |inputs| => (inputs[i].name, inputs[i].value))
  }

  /** The dialog result the entry point receives: each entry's value as text. */
  function AsDialogResult(entries: seq<(string, string)>): (result: seq<(string, Value)>)
    ensures |result| == |entries|
  {
    seq(|entries|, i requires 0 <= i < |entries| => (entries[i].0, Text(entries[i].1)))
  }

  /** Two input lists with the same names find the same first inputs. */
  lemma SameNamesSameFirst(a: seq<Input>, b: seq<Input>, name: string)
    requires |a| == |b| && forall i :: 0 <= i < |a| ==> a[i].name == b[i].name
    ensures FirstInputIndex(a, name) == FirstInputIndex(b, name)
  {
    forall i | 0 <= i < |a|
      ensures (a[i].name == name) == (b[i].name == name)
    {
    }
  }

  class DialogPage {
    /** The form's input elements, in document order. */
    var inputs: seq<Input>
    /** Whether the element 'recordForm' is a form. */
    var hasForm: bool
    /** Whether the host shows the submit action enabled. */
    var submitEnabled: bool
    /** Whether the input listeners that call `updateAction` are installed. */
    var listening: bool

    /** Once listening, the submit action reflects the two names. */
    predicate Valid()
      reads this
    {
      listening ==> HasNameInputs(inputs) && submitEnabled == NamesFilled(inputs)
    }

    /** The page as loaded, with the action state the dialog was opened with. */
    constructor(inputs: seq<Input>, hasForm: bool, submitEnabled: bool)
      ensures this.inputs == inputs && this.hasForm == hasForm && this.submitEnabled == submitEnabled
      ensures !listening && Valid()
    {
      this.inputs := inputs;
      this.hasForm := hasForm;
      this.submitEnabled := submitEnabled;
      this.listening := false;
    }

    /** The loop over the initial value's items. */
    method AssignInitialValue(items: seq<InitialItem>, toText: Value -> string)
      requires !listening
      modifies this`inputs
      ensures inputs == AssignAll(old(inputs), items, toText)
      ensures Valid()
    {
      var i := 0;
      while i < |items|
        invariant 0 <= i <= |items|
        invariant inputs == AssignAll(old(inputs), items[..i], toText)
      {
        var item := items[i];
        var inputElement := FirstInputIndex(inputs, item.propertyType.analyzeId);
        if inputElement.Some? {
          var k := inputElement.value;
          inputs := inputs[k := Input(inputs[k].name, toText(item.value))];
        }
        assert items[..i + 1][..i] == items[..i];
        i := i + 1;
      }
      assert items[..i] == items;
    }

    /** `updateAction`: enables submit exactly when both names are filled. */
    method UpdateAction()
      requires HasNameInputs(inputs)
      modifies this`submitEnabled
      ensures submitEnabled == NamesFilled(inputs)
    {
      var firstName := inputs[FirstInputIndex(inputs, FirstNamePropertyTypeId).value].value;
      var familyName := inputs[FirstInputIndex(inputs, FamilyNamePropertyTypeId).value].value;
      submitEnabled := Trim(firstName) != "" && Trim(familyName) != "";
    }

    /** `init`: fill the inputs, then install the listeners and set the submit
        state when both name inputs exist. */
    method Init(initialValue: Option<seq<InitialItem>>, toText: Value -> string)
      requires !listening
      modifies this
      ensures hasForm == old(hasForm)
      ensures initialValue.Some? ==> inputs == AssignAll(old(inputs), initialValue.value, toText)
      ensures initialValue.None? ==> inputs == old(inputs)
      ensures listening <==> HasNameInputs(inputs)
      ensures !listening ==> submitEnabled == old(submitEnabled)
      ensures Valid()
    {
      if initialValue.Some? {
        AssignInitialValue(initialValue.value, toText);
      }
      if HasNameInputs(inputs) {
        listening := true;
        UpdateAction();
      }
    }

    /** The user types `text` into the input at `index`; the listeners fire when
        it is one of the two name inputs. */
    method OnInput(index: nat, text: string)
      requires index < |inputs| && Valid()
      modifies this`inputs, this`submitEnabled
      ensures inputs == old(inputs)[index := Input(old(inputs)[index].name, text)]
      ensures !listening ==> submitEnabled == old(submitEnabled)
      ensures Valid()
    {
      inputs := inputs[index := Input(inputs[index].name, text)];
      if listening {
        SameNamesSameFirst(old(inputs), inputs, FirstNamePropertyTypeId);
        SameNamesSameFirst(old(inputs), inputs, FamilyNamePropertyTypeId);
        if Some(index) == FirstInputIndex(inputs, FirstNamePropertyTypeId)
           || Some(index) == FirstInputIndex(inputs, FamilyNamePropertyTypeId) {
          UpdateAction();
        }
      }
    }

    /** The 'action' listener: submit with the form's entries when the submit
        action fires and the form exists, otherwise close. */
    method OnAction(actionId: string, submitActionId: string) returns (closing: Closing)
      ensures actionId == submitActionId && hasForm ==> closing == SubmitAndClose(FormEntries(inputs))
      ensures !(actionId == submitActionId && hasForm) ==> closing == Close
    {
      if actionId == submitActionId && hasForm {
        var entries: seq<(string, string)> := [];
        var i := 0;
        while i < |inputs|
          invariant 0 <= i <= |inputs|
          invariant entries == FormEntries(inputs[..i])
        {
          entries := entries + [(inputs[i].name, inputs[i].value)];
          i := i + 1;
        }
        assert inputs[..i] == inputs;
        closing := SubmitAndClose(entries);
      } else {
        closing := Close;
      }
    }
  }

  /** An input with the name and none before it is the first one found. */
  lemma FirstInputAt(inputs: seq<Input>, name: string, k: nat)
    requires k < |inputs| && inputs[k].name == name
    requires forall j :: 0 <= j < k ==> inputs[j].name != name
    ensures FirstInputIndex(inputs, name) == Some(k)
  {
    var p := (input: Input) => input.name == name;
    assert p(inputs[k]);
    var r := FindFirstIndex(inputs, p);
    assert r.Some? && !(r.value < k) && !(k < r.value);
  }

  /** Two initial items for the two name ids land in the two name inputs. */
  lemma AssignIntoNameInputs(i4: InitialItem, i6: InitialItem, a: string, b: string, toText: Value -> string)
    requires i4.propertyType.analyzeId == FirstNamePropertyTypeId
    requires i6.propertyType.analyzeId == FamilyNamePropertyTypeId
    ensures AssignAll([Input(FirstNamePropertyTypeId, a), Input(FamilyNamePropertyTypeId, b)], [i4, i6], toText)
            == [Input(FirstNamePropertyTypeId, toText(i4.value)), Input(FamilyNamePropertyTypeId, toText(i6.value))]
  {
    var start := [Input(FirstNamePropertyTypeId, a), Input(FamilyNamePropertyTypeId, b)];
    FirstInputAt(start, FirstNamePropertyTypeId, 0);
    var mid := AssignItem(start, i4, toText);
    assert mid == [Input(FirstNamePropertyTypeId, toText(i4.value)), Input(FamilyNamePropertyTypeId, b)];
    assert mid[0].name[3] != FamilyNamePropertyTypeId[3];
    FirstInputAt(mid, FamilyNamePropertyTypeId, 1);
    assert [i4, i6][..1] == [i4];
  }

  /** The dialog result for the two names maps onto the two property ids. */
  lemma NamesResultMap(t: ItemType, pt4: PropertyType, pt6: PropertyType, v4: Value, v6: Value)
    requires GetPropertyType(t, FirstNamePropertyTypeId) == Some(pt4)
    requires GetPropertyType(t, FamilyNamePropertyTypeId) == Some(pt6)
    ensures Resolvable([(FirstNamePropertyTypeId, v4), (FamilyNamePropertyTypeId, v6)], t)
    ensures PropertyMapOf([(FirstNamePropertyTypeId, v4), (FamilyNamePropertyTypeId, v6)], t) == map[pt4.id := v4, pt6.id := v6]
  {
    var result := [(FirstNamePropertyTypeId, v4), (FamilyNamePropertyTypeId, v6)];
    assert ResolvedId(result[0], t) == pt4.id;
    assert ResolvedId(result[1], t) == pt6.id;
    assert result[..1] == [(FirstNamePropertyTypeId, v4)];
    assert result[..1][..0] == [];
    assert PropertyMapOf(result[..1], t) == map[pt4.id := v4];
  }

  /** Submitting the Edit Person dialog unchanged writes back the values the
      record already had: the initial value fills the two name inputs, and
      their entries map onto the same property ids with the same text. */
  lemma UnchangedEditKeepsValues(r: Record, pt4: PropertyType, pt6: PropertyType,
                                 s4: string, s6: string, a: string, b: string, toText: Value -> string)
    requires GetPropertyType(r.itemType, FirstNamePropertyTypeId) == Some(pt4)
    requires GetPropertyType(r.itemType, FamilyNamePropertyTypeId) == Some(pt6)
    requires r.HasFetchedValue(pt4) && r.values[pt4.id] == Text(s4)
    requires r.HasFetchedValue(pt6) && r.values[pt6.id] == Text(s6)
    requires toText(Text(s4)) == s4 && toText(Text(s6)) == s6
    ensures var items := InitialItemFor(r, FirstNamePropertyTypeId) + InitialItemFor(r, FamilyNamePropertyTypeId);
            var inputs := AssignAll([Input(FirstNamePropertyTypeId, a), Input(FamilyNamePropertyTypeId, b)], items, toText);
            var result := AsDialogResult(FormEntries(inputs));
            && Resolvable(result, r.itemType)
            && PropertyMapOf(result, r.itemType) == map[pt4.id := r.values[pt4.id], pt6.id := r.values[pt6.id]]
  {
    var i4 := InitialItem(pt4, Text(s4));
    var i6 := InitialItem(pt6, Text(s6));
    assert InitialItemFor(r, FirstNamePropertyTypeId) + InitialItemFor(r, FamilyNamePropertyTypeId) == [i4, i6];
    assert pt4.analyzeId == FirstNamePropertyTypeId && pt6.analyzeId == FamilyNamePropertyTypeId by {
      var t := r.itemType;
      assert exists i :: 0 <= i < |t.propertyTypes| && t.propertyTypes[i] == pt4 && t.propertyTypes[i].analyzeId == FirstNamePropertyTypeId;
      assert exists i :: 0 <= i < |t.propertyTypes| && t.propertyTypes[i] == pt6 && t.propertyTypes[i].analyzeId == FamilyNamePropertyTypeId;
    }
    AssignIntoNameInputs(i4, i6, a, b, toText);
    var filled := [Input(FirstNamePropertyTypeId, s4), Input(FamilyNamePropertyTypeId, s6)];
    assert AsDialogResult(FormEntries(filled)) == [(FirstNamePropertyTypeId, Text(s4)), (FamilyNamePropertyTypeId, Text(s6))];
    NamesResultMap(r.itemType, pt4, pt6, Text(s4), Text(s6));
  }
}
