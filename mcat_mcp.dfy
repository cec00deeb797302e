/**
 * `MCATMCP`: the four test-case tools and two prompts it registers, the result each tool handler
 * returns for the outcome of its helper, and the argument builder of `update_automation_details`.
 */
module McatMcp {
  import opened Wrappers
  import opened JsValues
  import opened StepParsing
  import opened AzureHelper
  import opened BaseMcp

  // ---------------------------------------------------------------------------------------------
  // Tool results
  // ---------------------------------------------------------------------------------------------

  /**
   * One `{type: "text", text}` content block. `JsonText(v)` is the block whose text is
   * `JSON.stringify(v, null, 2)`: the value is kept, its rendering is not modelled.
   */
  datatype Block = Text(text: string) | JsonText(value: Json)

  /** A tool's answer; `isError` is `false` where the handler leaves the property out. */
  datatype ToolResult = ToolResult(content: seq<Block>, isError: bool)

  const TestCaseErrorPrefix := "Error fetching test case: "
  const DetailsErrorPrefix := "Error getting automation details: "
  const UpdateErrorPrefix := "Error updating automation details: "
  const ClearErrorPrefix := "Error clearing automation details: "

  /** The `catch` branch every handler shares: one text block after the tool's prefix, flagged as an error. */
  function ErrorResult(prefix: string, message: string): (r: ToolResult)
    ensures |r.content| == 1 && r.content[0].Text? && r.isError
    ensures |r.content[0].text| == |prefix| + |message|
    ensures r.content[0].text[..|prefix|] == prefix && r.content[0].text[|prefix|..] == message
  {
    ToolResult([Text(prefix + message)], true)
  }

  /** A single text block without the error flag. */
  function TextResult(text: string): (r: ToolResult)
    ensures r.content == [Text(text)] && !r.isError
  {
    ToolResult([Text(text)], false)
  }

  // ---------------------------------------------------------------------------------------------
  // get_test_case
  // ---------------------------------------------------------------------------------------------

  function StepJson(s: TestStep): Json {
    JObj(map[
      "step" := JNum(s.step),
      "action" := JStr(s.action),
      "expectedResult" := JArr(seq(|s.expectedResult|, k requires 0 <= k < |s.expectedResult| => JStr(s.expectedResult[k])))])
  }

  /** The JSON of a `TestCaseResult`. */
  function TestCaseJson(r: TestCaseResult): Json {
    JObj(map["steps" := JArr(seq(|r.steps|, k requires 0 <= k < |r.steps| => StepJson(r.steps[k])))])
  }


  /** Reads a step record back out of its JSON. */
  function ReadStep(j: Json): Option<TestStep> {
    var step, action, expected := Get(j, "step"), Get(j, "action"), Get(j, "expectedResult");
    if step.None? || !step.value.JNum? || step.value.n < 0 then None
    else if action.None? || !action.value.JStr? || expected.None? || !expected.value.JArr? then None
    else
      var items := expected.value.items;
      if exists k :: 0 <= k < |items| && !items[k].JStr? then None
      else Some(TestStep(step.value.n, action.value.s, seq(|items|, k requires 0 <= k < |items| => items[k].s)))
  }

  /** Reads a `TestCaseResult` back out of its JSON. */
  function ReadTestCase(j: Json): Option<TestCaseResult> {
    var steps := Get(j, "steps");
    if steps.None? || !steps.value.JArr? then None
    else
      var items := steps.value.items;
      if exists k :: 0 <= k < |items| && ReadStep(items[k]).None? then None
      else Some(TestCaseResult(seq(|items|, k requires 0 <= k < |items| => ReadStep(items[k]).value)))
  }

  lemma {:induction false} StepJsonReadBack(s: TestStep)
    ensures ReadStep(StepJson(s)) == Some(s)
  {
    var items := seq(|s.expectedResult|, k requires 0 <= k < |s.expectedResult| => JStr(s.expectedResult[k]));
    assert Get(StepJson(s), "expectedResult") == Some(JArr(items));
    assert seq(|items|, k requires 0 <= k < |items| => items[k].s) == s.expectedResult;
  }

  /** The JSON a successful `get_test_case` returns holds the whole result: reading it back gives it again. */
  lemma {:induction false} TestCaseJsonReadBack(r: TestCaseResult)
    ensures ReadTestCase(TestCaseJson(r)) == Some(r)
  {
    var items := seq(|r.steps|, k requires 0 <= k < |r.steps| => StepJson(r.steps[k]));
    forall k | 0 <= k < |items| ensures ReadStep(items[k]) == Some(r.steps[k]) {
      StepJsonReadBack(r.steps[k]);
    }
    assert Get(TestCaseJson(r), "steps") == Some(JArr(items));
    assert seq(|items|, k requires 0 <= k < |items| => ReadStep(items[k]).value) == r.steps;
  }

  /** The `get_test_case` handler, given what `getStepsFromTestcase` returned or threw. */
  function GetTestCaseTool(outcome: Result<TestCaseResult, string>): (r: ToolResult)
    ensures |r.content| == 1
    ensures r.isError <==> outcome.Failure?
    ensures outcome.Success? ==> r.content[0] == JsonText(TestCaseJson(outcome.value))
    ensures outcome.Failure? ==> r == ErrorResult(TestCaseErrorPrefix, outcome.error)
  {
    match outcome
    case Success(result) => ToolResult([JsonText(TestCaseJson(result))], false)
    case Failure(e) => ErrorResult(TestCaseErrorPrefix, e)
  }

  // ---------------------------------------------------------------------------------------------
  // get_automation_details
  // ---------------------------------------------------------------------------------------------

  const DetailKeys: seq<string> := ["automatedTestId", "automatedTestName", "automatedTestStorage",
                                    "automatedTestType", "automationStatus", "automationStatusCustom"]

  lemma DetailKeysDistinct()
    ensures forall a, b :: 0 <= a < b < 6 ==> DetailKeys[a] != DetailKeys[b]
  {
    assert DetailKeys[1][13] != DetailKeys[3][13];
  }

  /** The JSON of an `AutomationDetails`: `JSON.stringify` leaves out the `undefined` properties. */
  function DetailsJson(d: AutomationDetails): (j: Json)
    ensures j.JObj?
    ensures forall i :: 0 <= i < 6 ==>
      (DetailKeys[i] in j.members <==> Values(d)[i].Some?)
      && (Values(d)[i].Some? ==> j.members[DetailKeys[i]] == JStr(Values(d)[i].value))
  {
    var vs := Values(d);
    DetailKeysDistinct();
    JObj(map i | 0 <= i < 6 && vs[i].Some? :: DetailKeys[i] := JStr(vs[i].value))
  }

  /** Reads a property back: present as a string, or absent. */
  function ReadDetail(j: Json, key: string): Option<string> {
    var v := Get(j, key);
    if v.Some? && v.value.JStr? then Some(v.value.s) else None
  }

  function ReadDetails(j: Json): AutomationDetails {
    AutomationDetails(ReadDetail(j, "automatedTestId"), ReadDetail(j, "automatedTestName"),
                      ReadDetail(j, "automatedTestStorage"), ReadDetail(j, "automatedTestType"),
                      ReadDetail(j, "automationStatus"), ReadDetail(j, "automationStatusCustom"))
  }

  /** The JSON a successful `get_automation_details` returns holds every defined field and no other. */
  lemma {:induction false} DetailsJsonReadBack(d: AutomationDetails)
    ensures ReadDetails(DetailsJson(d)) == d
  {
    var j := DetailsJson(d);
    assert ReadDetail(j, DetailKeys[0]) == d.automatedTestId;
    assert ReadDetail(j, DetailKeys[1]) == d.automatedTestName;
    assert ReadDetail(j, DetailKeys[2]) == d.automatedTestStorage;
    assert ReadDetail(j, DetailKeys[3]) == d.automatedTestType;
    assert ReadDetail(j, DetailKeys[4]) == d.automationStatus;
    assert ReadDetail(j, DetailKeys[5]) == d.automationStatusCustom;
  }

  /** The `get_automation_details` handler. */
  function GetAutomationDetailsTool(outcome: Result<AutomationDetails, string>): (r: ToolResult)
    ensures |r.content| == 1
    ensures r.isError <==> outcome.Failure?
    ensures outcome.Success? ==> r.content[0] == JsonText(DetailsJson(outcome.value))
    ensures outcome.Failure? ==> r == ErrorResult(DetailsErrorPrefix, outcome.error)
  {
    match outcome
    case Success(details) => ToolResult([JsonText(DetailsJson(details))], false)
    case Failure(e) => ErrorResult(DetailsErrorPrefix, e)
  }

  // ---------------------------------------------------------------------------------------------
  // update_automation_details and clear_automation_details
  // ---------------------------------------------------------------------------------------------

  /** The `automatedTestType` the update tool always sends. */
  const L2 := "L2"

  /** The text of a completed update or clear; `done` and `failed` are the two forms of the verb. */
  function OutcomeText(success: bool, done: string, failed: string, workItemId: string): string {
    (if success then "Successfully " + done else "Failed to " + failed) + " automation details for work item " + workItemId
  }

  /** The text the update tool returns once `updateAutomationDetailsInWorkItem` answered `success`. */
  function UpdatedText(success: bool, workItemId: string): string {
    OutcomeText(success, "updated", "update", workItemId)
  }

  /** The text the clear tool returns once `clearAutomationDetailsInWorkItem` answered `success`. */
  function ClearedText(success: bool, workItemId: string): string {
    OutcomeText(success, "cleared", "clear", workItemId)
  }

  const SuccessWord := "Successfully "
  const FailureWord := "Failed to "

  /** An outcome text starts with the word for which way the call went. */
  lemma OutcomeTextStart(success: bool, done: string, failed: string, workItemId: string)
    ensures var w := if success then SuccessWord else FailureWord;
      |w| <= |OutcomeText(success, done, failed, workItemId)| && OutcomeText(success, done, failed, workItemId)[..|w|] == w
  {
    var w := if success then SuccessWord else FailureWord;
    var rest := (if success then done else failed) + " automation details for work item " + workItemId;
    assert OutcomeText(success, done, failed, workItemId) == w + rest;
    assert (w + rest)[..|w|] == w;
  }

  /** The update and clear texts say which way the call went: one starts "Successfully", the other "Failed to". */
  lemma {:induction false} OutcomeTextsDiffer(workItemId: string)
    ensures UpdatedText(true, workItemId)[..|SuccessWord|] == SuccessWord
    ensures UpdatedText(false, workItemId)[..|FailureWord|] == FailureWord
    ensures ClearedText(true, workItemId)[..|SuccessWord|] == SuccessWord
    ensures ClearedText(false, workItemId)[..|FailureWord|] == FailureWord
    ensures UpdatedText(true, workItemId) != UpdatedText(false, workItemId)
    ensures ClearedText(true, workItemId) != ClearedText(false, workItemId)
  {
    OutcomeTextStart(true, "updated", "update", workItemId);
    OutcomeTextStart(false, "updated", "update", workItemId);
    OutcomeTextStart(true, "cleared", "clear", workItemId);
    OutcomeTextStart(false, "cleared", "clear", workItemId);
    assert UpdatedText(true, workItemId)[0] == SuccessWord[0] != FailureWord[0] == UpdatedText(false, workItemId)[0];
    assert ClearedText(true, workItemId)[0] == SuccessWord[0] != FailureWord[0] == ClearedText(false, workItemId)[0];
  }

  /**
   * The argument builder of the update handler (`updates` filled property by property): the id,
   * and the same value as the name, when given; the storage when given; the type "L2"; the status
   * when given; never the custom status.
   */
  method BuildUpdates(automatedTestId: Option<string>, automatedTestStorage: Option<string>, automationStatus: Option<string>)
    returns (updates: AutomationDetails)
    ensures updates.automatedTestType == Some(L2)
    ensures updates.automatedTestId == automatedTestId && updates.automatedTestName == automatedTestId
    ensures updates.automatedTestStorage == automatedTestStorage
    ensures updates.automationStatus == automationStatus
    ensures updates.automationStatusCustom == None
    ensures UpdateOps(updates) != []
  {
    updates := NoDetails;
    if automatedTestId.Some? {
      updates := updates.(automatedTestId := automatedTestId);
      updates := updates.(automatedTestName := automatedTestId);
    }
    if automatedTestStorage.Some? {
      updates := updates.(automatedTestStorage := automatedTestStorage);
    }
    updates := updates.(automatedTestType := Some(L2));
    if automationStatus.Some? {
      updates := updates.(automationStatus := automationStatus);
    }
    UpdateOpsEmpty(updates);
  }

  /**
   * The `update_automation_details` handler: build the updates, send them, and report. Because the
   * type is always set, the patch is never empty, so "No updates provided" cannot arise here.
   */
  method UpdateAutomationDetailsTool(workItemId: string, automatedTestId: Option<string>,
                                     automatedTestStorage: Option<string>, automationStatus: Option<string>,
                                     setup: Option<string>, reply: AzureHelper.Reply)
    returns (r: ToolResult, sent: Option<seq<PatchOp>>)
    ensures setup.Some? ==> r == ErrorResult(UpdateErrorPrefix, UpdatePrefix + setup.value) && sent == None
    ensures setup.None? ==> sent == Some(UpdateOps(AutomationDetails(automatedTestId, automatedTestId,
      automatedTestStorage, Some(L2), automationStatus, None)))
    ensures setup.None? ==> sent.Some? && sent.value != []
    ensures setup.None? ==> Replace(AutomatedTestTypeField, L2) in sent.value
    ensures setup.None? && automatedTestId.Some? ==>
      Replace(AutomatedTestIdField, automatedTestId.value) in sent.value
      && Replace(AutomatedTestNameField, automatedTestId.value) in sent.value
    ensures setup.None? && reply.Success? ==> r == TextResult(UpdatedText(reply.value, workItemId))
    ensures setup.None? && reply.Failure? ==> r == ErrorResult(UpdateErrorPrefix, UpdatePrefix + reply.error)
  {
    var updates := BuildUpdates(automatedTestId, automatedTestStorage, automationStatus);
    var outcome;
    outcome, sent := UpdateAutomationDetails(updates, setup, reply);
    if setup.None? {
      UpdateOpsMembership(updates, 3, L2);
      assert Values(updates)[3] == Some(L2);
      if automatedTestId.Some? {
        UpdateOpsMembership(updates, 0, automatedTestId.value);
        UpdateOpsMembership(updates, 1, automatedTestId.value);
      }
    }
    match outcome {
      case Success(success) =>
        r := TextResult(UpdatedText(success, workItemId));
      case Failure(e) =>
        r := ErrorResult(UpdateErrorPrefix, e);
    }
  }

  /** The `clear_automation_details` handler: send the clear patch and report. */
  method ClearAutomationDetailsTool(workItemId: string, setup: Option<string>, reply: AzureHelper.Reply)
    returns (r: ToolResult, sent: Option<seq<PatchOp>>)
    ensures setup.Some? ==> r == ErrorResult(ClearErrorPrefix, ClearPrefix + setup.value) && sent == None
    ensures setup.None? ==> sent == Some(ClearPatch)
    ensures setup.None? && reply.Success? ==> r == TextResult(ClearedText(reply.value, workItemId))
    ensures setup.None? && reply.Failure? ==> r == ErrorResult(ClearErrorPrefix, ClearPrefix + reply.error)
  {
    var outcome;
    outcome, sent := ClearAutomationDetails(setup, reply);
    match outcome {
      case Success(success) =>
        r := TextResult(ClearedText(success, workItemId));
      case Failure(e) =>
        r := ErrorResult(ClearErrorPrefix, e);
    }
  }

  // ---------------------------------------------------------------------------------------------
  // Registration
  // ---------------------------------------------------------------------------------------------

  const McatTools: seq<string> := ["get_test_case", "get_automation_details", "update_automation_details", "clear_automation_details"]
  const McatPrompts: seq<string> := ["write-new-mcat", "run-and-debug-mcat"]

  /** `new MCATMCP(server).register()`: the four tools, then the two prompts, appended to the server's registry. */
  method RegisterMcat(server: Server) returns (mcp: Mcp)
    modifies server
    ensures fresh(mcp) && mcp.server == server
    ensures mcp.trace == [ToolsHook, PromptsHook]
    ensures server.log == old(server.log) + ToolEntries(McatTools) + PromptEntries(McatPrompts)
  {
    mcp := new Mcp(server, McatTools, McatPrompts);
    mcp.Register();
  }

  /** The entries MCAT adds, spelled out: tools first, in source order, then prompts. */
  lemma {:induction false} McatRegistrationOrder()
    ensures ToolEntries(McatTools) + PromptEntries(McatPrompts) ==
      [ToolEntry("get_test_case"), ToolEntry("get_automation_details"),
       ToolEntry("update_automation_details"), ToolEntry("clear_automation_details"),
       PromptEntry("write-new-mcat"), PromptEntry("run-and-debug-mcat")]
  {
    ToolsBeforePrompts(McatTools, McatPrompts);
  }
}
