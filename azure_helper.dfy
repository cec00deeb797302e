/**
 * The work-item helpers: reading the steps of a test case, reading its automation fields, and
 * the JSON-Patch documents that update or clear those fields. The Azure DevOps service is not
 * modelled; what a remote call returns (or the message it throws) is an input.
 */
module AzureHelper {
  import opened Wrappers
  import opened StepParsing

  // ---------------------------------------------------------------------------------------------
  // Field names
  // ---------------------------------------------------------------------------------------------

  const StepsField := "Microsoft.VSTS.TCM.Steps"
  const AutomatedTestIdField := "Microsoft.VSTS.TCM.AutomatedTestId"
  const AutomatedTestNameField := "Microsoft.VSTS.TCM.AutomatedTestName"
  const AutomatedTestStorageField := "Microsoft.VSTS.TCM.AutomatedTestStorage"
  const AutomatedTestTypeField := "Microsoft.VSTS.TCM.AutomatedTestType"
  const AutomationStatusField := "Microsoft.VSTS.TCM.AutomationStatus"
  const AutomationStatusCustomField := "Custom.AutomationStatus"

  /** The prefixes the helpers' `catch` blocks put before the message of the error they rethrow. */
  const StepsPrefix := "Authentication or API call failed: "
  const DetailsPrefix := "Failed to get automation details from work item: "
  const UpdatePrefix := "Failed to update automation details in work item: "
  const ClearPrefix := "Failed to clear automation details from work item: "

  /** The six automation fields, in the order the update patch lists them. */
  const AutomationFields: seq<string> := [
    AutomatedTestIdField, AutomatedTestNameField, AutomatedTestStorageField,
    AutomatedTestTypeField, AutomationStatusField, AutomationStatusCustomField
  ]

  /** The fields of a work item, by reference name; an absent key reads as `undefined`. */
  type Fields = map<string, string>

  /**
   * What a work-item request produced: the thrown error's message (a missing token included), or
   * the work item, `None` standing for a null work item or one without `fields`.
   */
  type Fetched = Result<Option<Fields>, string>

  function Lookup(fields: Fields, key: string): Option<string> {
    if key in fields then Some(fields[key]) else None
  }

  // ---------------------------------------------------------------------------------------------
  // getStepsFromTestcase
  // ---------------------------------------------------------------------------------------------

  /** The Steps field when it is truthy: present and not the empty string. */
  function StepsHtml(item: Option<Fields>): Option<string> {
    if item.Some? && StepsField in item.value && item.value[StepsField] != [] then Some(item.value[StepsField])
    else None
  }

  /** What `getStepsFromTestcase` produces for a work-item request and an HTML parser. */
  function StepsOutcome(fetched: Fetched, textContents: string -> seq<string>): Result<TestCaseResult, string> {
    if fetched.Failure? then Failure(StepsPrefix + fetched.error)
    else if StepsHtml(fetched.value).None? then Success(TestCaseResult([]))
    else Success(StepsFor(textContents(StepsHtml(fetched.value).value)))
  }

  /**
   * `getStepsFromTestcase`. `textContents` stands for the HTML parser: the text content of each
   * `<parameterizedString>` element of the steps HTML, in document order. A thrown error comes
   * back with the function's prefix; a work item without a steps field gives no steps.
   */
  method GetStepsFromTestcase(fetched: Fetched, textContents: string -> seq<string>)
    returns (r: Result<TestCaseResult, string>)
    ensures fetched.Failure? ==> r == Failure(StepsPrefix + fetched.error)
    ensures fetched.Success? ==> r.Success?
    ensures fetched.Success? && StepsHtml(fetched.value).None? ==> r.value.steps == []
    ensures fetched.Success? && StepsHtml(fetched.value).Some? ==>
      var texts := textContents(StepsHtml(fetched.value).value);
      |r.value.steps| == (|texts| + 1) / 2 &&
      forall j :: 0 <= j < |r.value.steps| ==> r.value.steps[j] == StepAt(Cleaned(texts), j)
    ensures r == StepsOutcome(fetched, textContents)
  {
    if fetched.Failure? {
      return Failure(StepsPrefix + fetched.error);
    }
    var result := TestCaseResult([]);
    var html := StepsHtml(fetched.value);
    if html.Some? {
      result := ExtractSteps(textContents(html.value));
    }
    return Success(result);
  }

  // ---------------------------------------------------------------------------------------------
  // getAutomationDetailsFromWorkItem
  // ---------------------------------------------------------------------------------------------

  /** The automation fields of a work item; `None` is an absent (`undefined`) field. */
  datatype AutomationDetails = AutomationDetails(
    automatedTestId: Option<string>,
    automatedTestName: Option<string>,
    automatedTestStorage: Option<string>,
    automatedTestType: Option<string>,
    automationStatus: Option<string>,
    automationStatusCustom: Option<string>)

  const NoDetails := AutomationDetails(None, None, None, None, None, None)

  /** The details as a list, in the order of `AutomationFields`. */
  function Values(d: AutomationDetails): (vs: seq<Option<string>>)
    ensures |vs| == |AutomationFields|
  {
    [d.automatedTestId, d.automatedTestName, d.automatedTestStorage,
     d.automatedTestType, d.automationStatus, d.automationStatusCustom]
  }

  /** The details a field map holds: the value of each of the six fields when present. */
  function DetailsOf(fields: Fields): (d: AutomationDetails)
    ensures forall i :: 0 <= i < |AutomationFields| ==> Values(d)[i] == Lookup(fields, AutomationFields[i])
  {
    AutomationDetails(
      Lookup(fields, AutomatedTestIdField), Lookup(fields, AutomatedTestNameField),
      Lookup(fields, AutomatedTestStorageField), Lookup(fields, AutomatedTestTypeField),
      Lookup(fields, AutomationStatusField), Lookup(fields, AutomationStatusCustomField))
  }

  /**
   * `getAutomationDetailsFromWorkItem`: an empty record whose six properties are assigned from the
   * work item's fields when it has any.
   */
  method GetAutomationDetails(fetched: Fetched) returns (r: Result<AutomationDetails, string>)
    ensures fetched.Failure? ==> r == Failure(DetailsPrefix + fetched.error)
    ensures fetched.Success? && fetched.value.None? ==> r == Success(NoDetails)
    ensures fetched.Success? && fetched.value.Some? ==> (r.Success? &&
      forall i :: 0 <= i < |AutomationFields| ==> Values(r.value)[i] == Lookup(fetched.value.value, AutomationFields[i]))
  {
    if fetched.Failure? {
      return Failure(DetailsPrefix + fetched.error);
    }
    var details := NoDetails;
    if fetched.value.Some? {
      var fields := fetched.value.value;
      details := details.(automatedTestId := Lookup(fields, AutomatedTestIdField));
      details := details.(automatedTestName := Lookup(fields, AutomatedTestNameField));
      details := details.(automatedTestStorage := Lookup(fields, AutomatedTestStorageField));
      details := details.(automatedTestType := Lookup(fields, AutomatedTestTypeField));
      details := details.(automationStatus := Lookup(fields, AutomationStatusField));
      details := details.(automationStatusCustom := Lookup(fields, AutomationStatusCustomField));
      assert details == DetailsOf(fields);
    }
    return Success(details);
  }

  // ---------------------------------------------------------------------------------------------
  // JSON-Patch documents
  // ---------------------------------------------------------------------------------------------

  /** One JSON-Patch operation on a work-item field; its `path` is `/fields/<field>`. */
  datatype PatchOp = Replace(field: string, value: string) | Remove(field: string)

  function Path(op: PatchOp): string {
    "/fields/" + op.field
  }

  /** The `replace` op for a field when its update is defined, none otherwise. */
  function ReplaceOf(field: string, v: Option<string>): seq<PatchOp> {
    if v.Some? then [Replace(field, v.value)] else []
  }

  /**
   * One `replace` per defined value, paired with the field at the same position, in order; built
   * from the back, as the pushes build it.
   */
  function Replaces(keys: seq<string>, vs: seq<Option<string>>): (ops: seq<PatchOp>)
    requires |keys| == |vs|
    ensures |ops| <= |keys|
    decreases |keys|
  {
    if keys == [] then []
    else Replaces(keys[..|keys| - 1], vs[..|vs| - 1]) + ReplaceOf(keys[|keys| - 1], vs[|vs| - 1])
  }

  /** The operations of the update patch for `updates`: the `replace` of each defined field, in field order. */
  function UpdateOps(d: AutomationDetails): seq<PatchOp> {
    ReplaceOf(AutomatedTestIdField, d.automatedTestId) + ReplaceOf(AutomatedTestNameField, d.automatedTestName) +
    ReplaceOf(AutomatedTestStorageField, d.automatedTestStorage) + ReplaceOf(AutomatedTestTypeField, d.automatedTestType) +
    ReplaceOf(AutomationStatusField, d.automationStatus) + ReplaceOf(AutomationStatusCustomField, d.automationStatusCustom)
  }

  /** The six pushes are `Replaces` over the field list: the general lemmas below apply to them. */
  lemma UpdateOpsAsReplaces(d: AutomationDetails)
    ensures UpdateOps(d) == Replaces(AutomationFields, Values(d))
  {
    ReplacesOfSix(AutomationFields, Values(d));
  }

  /** `Replaces` over six fields, written out. */
  lemma ReplacesOfSix(ks: seq<string>, vs: seq<Option<string>>)
    requires |ks| == 6 && |vs| == 6
    ensures Replaces(ks, vs) == ReplaceOf(ks[0], vs[0]) + ReplaceOf(ks[1], vs[1]) + ReplaceOf(ks[2], vs[2])
      + ReplaceOf(ks[3], vs[3]) + ReplaceOf(ks[4], vs[4]) + ReplaceOf(ks[5], vs[5])
  {
    var r0, r1, r2 := ReplaceOf(ks[0], vs[0]), ReplaceOf(ks[1], vs[1]), ReplaceOf(ks[2], vs[2]);
    var r3, r4, r5 := ReplaceOf(ks[3], vs[3]), ReplaceOf(ks[4], vs[4]), ReplaceOf(ks[5], vs[5]);
    assert Replaces(ks[..1], vs[..1]) == r0 by { assert ks[..0] == [] && Replaces(ks[..0], vs[..0]) == []; ReplacesPrefix(ks, vs, 0); }
    assert Replaces(ks[..2], vs[..2]) == r0 + r1 by { ReplacesPrefix(ks, vs, 1); }
    assert Replaces(ks[..3], vs[..3]) == r0 + r1 + r2 by { ReplacesPrefix(ks, vs, 2); }
    assert Replaces(ks[..4], vs[..4]) == r0 + r1 + r2 + r3 by { ReplacesPrefix(ks, vs, 3); }
    assert Replaces(ks[..5], vs[..5]) == r0 + r1 + r2 + r3 + r4 by { ReplacesPrefix(ks, vs, 4); }
    assert Replaces(ks[..6], vs[..6]) == r0 + r1 + r2 + r3 + r4 + r5 by { ReplacesPrefix(ks, vs, 5); }
    assert ks[..6] == ks && vs[..6] == vs;
  }

  /** One more push: the ops for the first `i + 1` fields extend those for the first `i`. */
  lemma ReplacesPrefix(keys: seq<string>, vs: seq<Option<string>>, i: nat)
    requires |keys| == |vs| && i < |keys|
    ensures Replaces(keys[..i + 1], vs[..i + 1]) == Replaces(keys[..i], vs[..i]) + ReplaceOf(keys[i], vs[i])
  {
    assert keys[..i + 1][..i] == keys[..i] && vs[..i + 1][..i] == vs[..i];
  }

  /**
   * The conditional pushes of `updateAutomationDetailsInWorkItem`: a `replace` for every property
   * that is not `undefined`, in field order, and an error when none is.
   */
  method BuildUpdatePatch(updates: AutomationDetails) returns (r: Result<seq<PatchOp>, string>)
    ensures UpdateOps(updates) == [] ==> r == Failure("No updates provided")
    ensures UpdateOps(updates) != [] ==> r == Success(UpdateOps(updates))
  {
    var patchDocument: seq<PatchOp> := [];
    if updates.automatedTestId.Some? {
      patchDocument := patchDocument + [Replace(AutomatedTestIdField, updates.automatedTestId.value)];
    }
    assert patchDocument == ReplaceOf(AutomatedTestIdField, updates.automatedTestId);
    if updates.automatedTestName.Some? {
      patchDocument := patchDocument + [Replace(AutomatedTestNameField, updates.automatedTestName.value)];
    }
    assert patchDocument == ReplaceOf(AutomatedTestIdField, updates.automatedTestId) + ReplaceOf(AutomatedTestNameField, updates.automatedTestName);
    if updates.automatedTestStorage.Some? {
      patchDocument := patchDocument + [Replace(AutomatedTestStorageField, updates.automatedTestStorage.value)];
    }
    assert patchDocument == ReplaceOf(AutomatedTestIdField, updates.automatedTestId) + ReplaceOf(AutomatedTestNameField, updates.automatedTestName) + ReplaceOf(AutomatedTestStorageField, updates.automatedTestStorage);
    if updates.automatedTestType.Some? {
      patchDocument := patchDocument + [Replace(AutomatedTestTypeField, updates.automatedTestType.value)];
    }
    assert patchDocument == ReplaceOf(AutomatedTestIdField, updates.automatedTestId) + ReplaceOf(AutomatedTestNameField, updates.automatedTestName) + ReplaceOf(AutomatedTestStorageField, updates.automatedTestStorage) + ReplaceOf(AutomatedTestTypeField, updates.automatedTestType);
    if updates.automationStatus.Some? {
      patchDocument := patchDocument + [Replace(AutomationStatusField, updates.automationStatus.value)];
    }
    assert patchDocument == ReplaceOf(AutomatedTestIdField, updates.automatedTestId) + ReplaceOf(AutomatedTestNameField, updates.automatedTestName) + ReplaceOf(AutomatedTestStorageField, updates.automatedTestStorage) + ReplaceOf(AutomatedTestTypeField, updates.automatedTestType) + ReplaceOf(AutomationStatusField, updates.automationStatus);
    if updates.automationStatusCustom.Some? {
      patchDocument := patchDocument + [Replace(AutomationStatusCustomField, updates.automationStatusCustom.value)];
    }
    assert patchDocument == ReplaceOf(AutomatedTestIdField, updates.automatedTestId) + ReplaceOf(AutomatedTestNameField, updates.automatedTestName) + ReplaceOf(AutomatedTestStorageField, updates.automatedTestStorage) + ReplaceOf(AutomatedTestTypeField, updates.automatedTestType) + ReplaceOf(AutomationStatusField, updates.automationStatus) + ReplaceOf(AutomationStatusCustomField, updates.automationStatusCustom);
    if |patchDocument| == 0 {
      return Failure("No updates provided");
    }
    return Success(patchDocument);
  }

  /** Every operation of the patch is a `replace` of one of the given fields. */
  lemma {:induction false} ReplacesAreReplaces(keys: seq<string>, vs: seq<Option<string>>)
    requires |keys| == |vs|
    ensures forall op :: op in Replaces(keys, vs) ==> op.Replace? && op.field in keys
    decreases |keys|
  {
    if keys != [] {
      var n := |keys| - 1;
      ReplacesAreReplaces(keys[..n], vs[..n]);
      forall op | op in Replaces(keys, vs) ensures op.Replace? && op.field in keys {
        if op in Replaces(keys[..n], vs[..n]) {
          var b :| 0 <= b < n && keys[..n][b] == op.field;
          assert keys[b] == op.field;
        }
      }
    }
  }

  /** Distinct keys stay distinct in a prefix, and the last one is not among the others. */
  lemma DistinctInit(keys: seq<string>, init: seq<string>)
    requires keys != [] && init == keys[..|keys| - 1]
    requires forall a, b :: 0 <= a < b < |keys| ==> keys[a] != keys[b]
    ensures forall a, b :: 0 <= a < b < |init| ==> init[a] != init[b]
    ensures keys[|keys| - 1] !in init
  {
    assert forall a :: 0 <= a < |init| ==> init[a] == keys[a];
  }

  /** With distinct fields, field `i` has a `replace` op with value `v` exactly when its update is `Some(v)`. */
  lemma {:induction false} ReplacesMembership(keys: seq<string>, vs: seq<Option<string>>, i: nat, v: string)
    requires |keys| == |vs| && i < |keys|
    requires forall a, b :: 0 <= a < b < |keys| ==> keys[a] != keys[b]
    ensures Replace(keys[i], v) in Replaces(keys, vs) <==> vs[i] == Some(v)
    decreases |keys|
  {
    var n := |keys| - 1;
    DistinctInit(keys, keys[..n]);
    ReplacesAreReplaces(keys[..n], vs[..n]);
    if i < n {
      ReplacesMembership(keys[..n], vs[..n], i, v);
      assert keys[i] != keys[n];
    }
  }

  /** The patch is empty exactly when every value is undefined. */
  lemma {:induction false} ReplacesEmpty(keys: seq<string>, vs: seq<Option<string>>)
    requires |keys| == |vs|
    ensures Replaces(keys, vs) == [] <==> forall i :: 0 <= i < |vs| ==> vs[i].None?
    decreases |keys|
  {
    if keys != [] {
      var n := |keys| - 1;
      var init := Replaces(keys[..n], vs[..n]);
      ReplacesEmpty(keys[..n], vs[..n]);
      assert Replaces(keys, vs) == init + ReplaceOf(keys[n], vs[n]);
      if forall i :: 0 <= i < |vs| ==> vs[i].None? {
        forall i | 0 <= i < n ensures vs[..n][i].None? { assert vs[..n][i] == vs[i]; }
        assert init == [];
        assert ReplaceOf(keys[n], vs[n]) == [];
      } else if Replaces(keys, vs) == [] {
        assert init == [] && vs[n].None?;
        forall i | 0 <= i < |vs| ensures vs[i].None? {
          if i < n { assert vs[..n][i] == vs[i]; }
        }
        assert false;
      }
    }
  }

  /** The patch lists its fields in the order of `keys`: of two ops, the earlier has the earlier field. */
  lemma {:induction false} ReplacesOrdered(keys: seq<string>, vs: seq<Option<string>>)
    requires |keys| == |vs|
    ensures forall p, q :: 0 <= p < q < |Replaces(keys, vs)| ==>
      exists a, b :: 0 <= a < b < |keys| && Replaces(keys, vs)[p].field == keys[a] && Replaces(keys, vs)[q].field == keys[b]
    decreases |keys|
  {
    if keys != [] {
      var n := |keys| - 1;
      var init := Replaces(keys[..n], vs[..n]);
      var ops := Replaces(keys, vs);
      ReplacesOrdered(keys[..n], vs[..n]);
      ReplacesAreReplaces(keys[..n], vs[..n]);
      forall p, q | 0 <= p < q < |ops|
        ensures exists a, b :: 0 <= a < b < |keys| && ops[p].field == keys[a] && ops[q].field == keys[b]
      {
        assert ops[p] == init[p];
        if q < |init| {
          var a, b :| 0 <= a < b < n && init[p].field == keys[..n][a] && init[q].field == keys[..n][b];
          assert ops[q] == init[q];
          assert ops[p].field == keys[a] && ops[q].field == keys[b];
        } else {
          assert ops[q].field == keys[n];
          assert init[p] in init;
          var a :| 0 <= a < n && keys[..n][a] == init[p].field;
          assert ops[p].field == keys[a];
        }
      }
    } else {
      assert |Replaces(keys, vs)| == 0;
    }
  }

  /** The six field names are distinct. */
  lemma AutomationFieldsDistinct()
    ensures forall a, b :: 0 <= a < b < |AutomationFields| ==> AutomationFields[a] != AutomationFields[b]
  {
  }

  /** The update patch carries the value of field `i` exactly when that update is defined. */
  lemma UpdateOpsMembership(updates: AutomationDetails, i: nat, v: string)
    requires i < |AutomationFields|
    ensures Replace(AutomationFields[i], v) in UpdateOps(updates) <==> Values(updates)[i] == Some(v)
  {
    AutomationFieldsDistinct();
    UpdateOpsAsReplaces(updates);
    ReplacesMembership(AutomationFields, Values(updates), i, v);
  }

  /** The update patch holds only `replace` ops on automation fields, at most one each, in field order. */
  lemma UpdateOpsShape(updates: AutomationDetails)
    ensures forall op :: op in UpdateOps(updates) ==> op.Replace? && op.field in AutomationFields
    ensures forall p, q :: 0 <= p < q < |UpdateOps(updates)| ==>
      exists a, b :: 0 <= a < b < |AutomationFields| &&
        UpdateOps(updates)[p].field == AutomationFields[a] && UpdateOps(updates)[q].field == AutomationFields[b]
  {
    UpdateOpsAsReplaces(updates);
    ReplacesAreReplaces(AutomationFields, Values(updates));
    ReplacesOrdered(AutomationFields, Values(updates));
  }

  /** "No updates provided" happens exactly when every property of the updates is undefined. */
  lemma UpdateOpsEmpty(updates: AutomationDetails)
    ensures UpdateOps(updates) == [] <==> updates == NoDetails
  {
    UpdateOpsAsReplaces(updates);
    ReplacesEmpty(AutomationFields, Values(updates));
    var vs := Values(updates);
    if updates.automatedTestId.Some? { assert vs[0].Some?; }
    else if updates.automatedTestName.Some? { assert vs[1].Some?; }
    else if updates.automatedTestStorage.Some? { assert vs[2].Some?; }
    else if updates.automatedTestType.Some? { assert vs[3].Some?; }
    else if updates.automationStatus.Some? { assert vs[4].Some?; }
    else if updates.automationStatusCustom.Some? { assert vs[5].Some?; }
  }

  /** The fixed patch of `clearAutomationDetailsInWorkItem`. */
  const ClearPatch: seq<PatchOp> := [
    Remove(AutomatedTestIdField), Remove(AutomatedTestNameField), Remove(AutomatedTestStorageField),
    Remove(AutomatedTestTypeField), Replace(AutomationStatusField, "Not Automated"),
    Remove(AutomationStatusCustomField)
  ]

  /** The clear patch has one op per automation field, in field order; only the status is replaced, with "Not Automated". */
  lemma ClearPatchPerField()
    ensures |ClearPatch| == |AutomationFields|
    ensures forall i :: 0 <= i < |ClearPatch| ==> ClearPatch[i].field == AutomationFields[i]
    ensures forall i :: 0 <= i < |ClearPatch| ==>
      (ClearPatch[i].Replace? <==> AutomationFields[i] == AutomationStatusField)
    ensures forall op :: op in ClearPatch && op.Replace? ==> op.value == "Not Automated"
  {
    AutomationFieldsDistinct();
  }

  // ---------------------------------------------------------------------------------------------
  // A reference reading of a patch: what it does to a field map
  // ---------------------------------------------------------------------------------------------

  /** The fields after `ops` in order: `replace` sets a field, `remove` deletes it. */
  function ApplyPatch(fields: Fields, ops: seq<PatchOp>): Fields
    decreases |ops|
  {
    if ops == [] then fields
    else
      var next := match ops[0] {
        case Replace(f, v) => fields[f := v]
        case Remove(f) => fields - {f}
      };
      ApplyPatch(next, ops[1..])
  }

  /** A field that no op of the patch names keeps its value, or stays absent. */
  lemma {:induction false} ApplyPatchFrame(fields: Fields, ops: seq<PatchOp>, key: string)
    requires forall i :: 0 <= i < |ops| ==> ops[i].field != key
    ensures Lookup(ApplyPatch(fields, ops), key) == Lookup(fields, key)
    decreases |ops|
  {
    if ops != [] {
      var next := match ops[0] {
        case Replace(f, v) => fields[f := v]
        case Remove(f) => fields - {f}
      };
      assert Lookup(next, key) == Lookup(fields, key);
      assert forall i :: 0 <= i < |ops[1..]| ==> ops[1..][i].field == ops[i + 1].field;
      ApplyPatchFrame(next, ops[1..], key);
    }
  }

  /** Each field's new value: the update when there is one, the old value otherwise. */
  function Overlay(before: AutomationDetails, updates: AutomationDetails): (d: AutomationDetails)
    ensures forall i :: 0 <= i < |AutomationFields| ==>
      Values(d)[i] == if Values(updates)[i].Some? then Values(updates)[i] else Values(before)[i]
  {
    AutomationDetails(
      if updates.automatedTestId.Some? then updates.automatedTestId else before.automatedTestId,
      if updates.automatedTestName.Some? then updates.automatedTestName else before.automatedTestName,
      if updates.automatedTestStorage.Some? then updates.automatedTestStorage else before.automatedTestStorage,
      if updates.automatedTestType.Some? then updates.automatedTestType else before.automatedTestType,
      if updates.automationStatus.Some? then updates.automationStatus else before.automationStatus,
      if updates.automationStatusCustom.Some? then updates.automationStatusCustom else before.automationStatusCustom)
  }

  /** A patch in two parts is applied part after part. */
  lemma {:induction false} ApplyConcat(fields: Fields, a: seq<PatchOp>, b: seq<PatchOp>)
    ensures ApplyPatch(fields, a + b) == ApplyPatch(ApplyPatch(fields, a), b)
    decreases |a|
  {
    if a != [] {
      assert (a + b)[0] == a[0] && (a + b)[1..] == a[1..] + b;
      var next := match a[0] {
        case Replace(f, v) => fields[f := v]
        case Remove(f) => fields - {f}
      };
      ApplyConcat(next, a[1..], b);
    } else {
      assert a + b == b;
    }
  }

  /** Applying the ops for one field: a `replace` sets it when its update is defined. */
  lemma ApplyReplaceOf(fields: Fields, key: string, v: Option<string>)
    ensures ApplyPatch(fields, ReplaceOf(key, v)) == if v.Some? then fields[key := v.value] else fields
  {
    if v.Some? { assert [Replace(key, v.value)][1..] == []; }
  }

  /** Applying `Replaces` sets each field whose value is defined and leaves every other key alone. */
  lemma {:induction false} ApplyReplaces(fields: Fields, keys: seq<string>, vs: seq<Option<string>>)
    requires |keys| == |vs|
    requires forall a, b :: 0 <= a < b < |keys| ==> keys[a] != keys[b]
    ensures forall i :: 0 <= i < |keys| ==>
      Lookup(ApplyPatch(fields, Replaces(keys, vs)), keys[i]) == if vs[i].Some? then vs[i] else Lookup(fields, keys[i])
    ensures forall k :: k !in keys ==> Lookup(ApplyPatch(fields, Replaces(keys, vs)), k) == Lookup(fields, k)
    decreases |keys|
  {
    if keys != [] {
      var n := |keys| - 1;
      var init := Replaces(keys[..n], vs[..n]);
      DistinctInit(keys, keys[..n]);
      ApplyReplaces(fields, keys[..n], vs[..n]);
      ApplyConcat(fields, init, ReplaceOf(keys[n], vs[n]));
      ApplyReplaceOf(ApplyPatch(fields, init), keys[n], vs[n]);
      ApplyLast(fields, keys, vs, keys[..n], vs[..n], ApplyPatch(fields, init), ApplyPatch(fields, Replaces(keys, vs)));
    }
  }

  /** The inductive step of `ApplyReplaces`: the last field's op on top of the state after the others. */
  lemma ApplyLast(fields: Fields, keys: seq<string>, vs: seq<Option<string>>, ik: seq<string>, iv: seq<Option<string>>,
                  mid: Fields, result: Fields)
    requires |keys| == |vs| && keys != [] && ik == keys[..|keys| - 1] && iv == vs[..|vs| - 1]
    requires keys[|keys| - 1] !in ik
    requires forall a, b :: 0 <= a < b < |keys| ==> keys[a] != keys[b]
    requires forall i :: 0 <= i < |ik| ==> Lookup(mid, ik[i]) == if iv[i].Some? then iv[i] else Lookup(fields, ik[i])
    requires forall k :: k !in ik ==> Lookup(mid, k) == Lookup(fields, k)
    requires result == if vs[|keys| - 1].Some? then mid[keys[|keys| - 1] := vs[|keys| - 1].value] else mid
    ensures forall i :: 0 <= i < |keys| ==>
      Lookup(result, keys[i]) == if vs[i].Some? then vs[i] else Lookup(fields, keys[i])
    ensures forall k :: k !in keys ==> Lookup(result, k) == Lookup(fields, k)
  {
    var n := |keys| - 1;
    forall i | 0 <= i < |keys|
      ensures Lookup(result, keys[i]) == if vs[i].Some? then vs[i] else Lookup(fields, keys[i])
    {
      if i < n {
        assert ik[i] == keys[i] && iv[i] == vs[i];
        assert keys[i] != keys[n];
      }
    }
    forall k | k !in keys ensures Lookup(result, k) == Lookup(fields, k) {
      assert k !in ik;
    }
  }

  /**
   * The update patch does what it says: afterwards every updated field holds its new value, every
   * other automation field its old one, and no other field of the work item changes.
   */
  lemma UpdateRoundTrip(fields: Fields, updates: AutomationDetails)
    ensures DetailsOf(ApplyPatch(fields, UpdateOps(updates))) == Overlay(DetailsOf(fields), updates)
    ensures forall k :: k !in AutomationFields ==> Lookup(ApplyPatch(fields, UpdateOps(updates)), k) == Lookup(fields, k)
  {
    AutomationFieldsDistinct();
    UpdateOpsAsReplaces(updates);
    ApplyReplaces(fields, AutomationFields, Values(updates));
    var after := DetailsOf(ApplyPatch(fields, UpdateOps(updates)));
    var expected := Overlay(DetailsOf(fields), updates);
    assert Values(after) == Values(expected) by {
      forall i | 0 <= i < |AutomationFields| ensures Values(after)[i] == Values(expected)[i] { }
    }
  }

  /** After the clear patch only the status field is set, to "Not Automated"; no other field changes. */
  lemma ClearRoundTrip(fields: Fields)
    ensures DetailsOf(ApplyPatch(fields, ClearPatch)) == NoDetails.(automationStatus := Some("Not Automated"))
    ensures forall k :: k !in AutomationFields ==> Lookup(ApplyPatch(fields, ClearPatch), k) == Lookup(fields, k)
  {
    ApplyClearShape(fields, AutomatedTestIdField, AutomatedTestNameField, AutomatedTestStorageField,
      AutomatedTestTypeField, AutomationStatusField, AutomationStatusCustomField, "Not Automated");
  }

  /** A patch of the clear patch's shape, four removes, a replace and a remove, on any fields. */
  lemma ApplyClearShape(fields: Fields, a: string, b: string, c: string, d: string, e: string, f: string, v: string)
    ensures ApplyPatch(fields, [Remove(a), Remove(b), Remove(c), Remove(d), Replace(e, v), Remove(f)])
      == ((((fields - {a}) - {b}) - {c}) - {d})[e := v] - {f}
  {
    var p := [Remove(a), Remove(b), Remove(c), Remove(d), Replace(e, v), Remove(f)];
    var f1 := fields - {a};
    var f2 := f1 - {b};
    var f3 := f2 - {c};
    var f4 := f3 - {d};
    var f5 := f4[e := v];
    assert ApplyPatch(fields, p) == ApplyPatch(f1, p[1..]);
    assert ApplyPatch(f1, p[1..]) == ApplyPatch(f2, p[2..]) by { assert p[1..][1..] == p[2..]; }
    assert ApplyPatch(f2, p[2..]) == ApplyPatch(f3, p[3..]) by { assert p[2..][1..] == p[3..]; }
    assert ApplyPatch(f3, p[3..]) == ApplyPatch(f4, p[4..]) by { assert p[3..][1..] == p[4..]; }
    assert ApplyPatch(f4, p[4..]) == ApplyPatch(f5, p[5..]) by { assert p[4..][1..] == p[5..]; }
    assert ApplyPatch(f5, p[5..]) == f5 - {f} by { assert p[5..][1..] == []; }
  }

  /** The patch operations are sent to the service, which answers with the updated work item or throws. */
  type Reply = Result<bool, string>

  /**
   * `updateAutomationDetailsInWorkItem`: `setup` is the error from acquiring a token or a client
   * (thrown before the patch is built), `reply` the outcome of `updateWorkItem` (`true` for a
   * non-null work item). Also returns the patch sent, if one was.
   */
  method UpdateAutomationDetails(updates: AutomationDetails, setup: Option<string>, reply: Reply)
    returns (r: Result<bool, string>, sent: Option<seq<PatchOp>>)
    ensures setup.Some? ==> r == Failure(UpdatePrefix + setup.value) && sent == None
    ensures setup.None? && UpdateOps(updates) == [] ==>
      r == Failure(UpdatePrefix + "No updates provided") && sent == None
    ensures setup.None? && UpdateOps(updates) != [] ==> (sent == Some(UpdateOps(updates)) &&
      r == (if reply.Success? then reply else Failure(UpdatePrefix + reply.error)))
  {
    sent := None;
    if setup.Some? {
      r := Failure(UpdatePrefix + setup.value);
      return;
    }
    var patch := BuildUpdatePatch(updates);
    if patch.Failure? {
      r := Failure(UpdatePrefix + patch.error);
      return;
    }
    sent := Some(patch.value);
    if reply.Failure? {
      r := Failure(UpdatePrefix + reply.error);
    } else {
      r := reply;
    }
  }

  /**
   * `clearAutomationDetailsInWorkItem`: once a client is at hand it sends `ClearPatch`, whose effect
   * `ClearRoundTrip` describes; `sent` is the document sent, if any.
   */
  method ClearAutomationDetails(setup: Option<string>, reply: Reply)
    returns (r: Result<bool, string>, sent: Option<seq<PatchOp>>)
    ensures setup.Some? ==> r == Failure(ClearPrefix + setup.value) && sent == None
    ensures setup.None? ==> (sent == Some(ClearPatch) &&
      r == (if reply.Success? then reply else Failure(ClearPrefix + reply.error)))
  {
    sent := None;
    if setup.Some? {
      r := Failure(ClearPrefix + setup.value);
      return;
    }
    var patch := ClearPatch;
    sent := Some(patch);
    if reply.Failure? {
      r := Failure(ClearPrefix + reply.error);
    } else {
      r := reply;
    }
  }
}
