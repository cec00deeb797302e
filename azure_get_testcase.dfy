/**
 * The second copy of the test-step reader. Its `stripTags`, `splitExpected` and the two loops of
 * its `getStepsFromTestcase` are the same text as the helper module's, so they are served by
 * `StepParsing`; this module holds its own entry point and states what its loop promises.
 */
module AzureGetTestcase {
  import opened Wrappers
  import opened JsText
  import opened StepParsing
  import opened AzureHelper

  /**
   * `getStepsFromTestcase` of this copy: the same outcome as the helper module's for every
   * work-item request and parser output.
   */
  method GetStepsFromTestcase(fetched: Fetched, textContents: string -> seq<string>)
    returns (r: Result<TestCaseResult, string>)
    ensures r == StepsOutcome(fetched, textContents)
  {
    if fetched.Failure? {
      return Failure("Authentication or API call failed: " + fetched.error);
    }
    var result := TestCaseResult([]);
    if fetched.value.Some? && StepsField in fetched.value.value && fetched.value.value[StepsField] != [] {
      var stepsHtml := fetched.value.value[StepsField];
      result := ExtractSteps(textContents(stepsHtml));
    }
    return Success(result);
  }

  /** Steps are numbered 1, 2, ... with no gap, one per pair: `ceil(n / 2)` steps from `n` strings. */
  lemma {:induction false} StepNumbering(texts: seq<string>)
    ensures |StepsFor(texts).steps| == (|texts| + 1) / 2
    ensures forall j :: 0 <= j < |StepsFor(texts).steps| ==> StepsFor(texts).steps[j].step == j + 1
  {
  }

  lemma {:induction false} StepAtAction(clean: seq<string>, j: nat)
    requires 2 * j < |clean|
    ensures StepAt(clean, j).action == OrElse(clean[2 * j], "")
  {
  }

  lemma {:induction false} StepsForAt(texts: seq<string>, j: nat)
    requires 2 * j < |texts|
    ensures StepsFor(texts).steps[j] == StepAt(Cleaned(texts), j)
  {
  }

  lemma {:induction false} StepAtExpected(clean: seq<string>, j: nat, raw: string)
    requires 2 * j + 1 < |clean| && clean[2 * j + 1] == raw && raw != []
    ensures StepAt(clean, j).expectedResult == SplitExpected(raw)
  {
  }

  /** Even positions are actions: step `j` takes the cleaned string at `2j`. */
  lemma {:induction false} EvenActions(texts: seq<string>, j: nat)
    requires 2 * j < |texts|
    ensures StepsFor(texts).steps[j].action == StripTags(Trim(texts[2 * j]))
  {
    StepsForAt(texts, j);
    StepAtAction(Cleaned(texts), j);
    CleanedAt(texts, 2 * j);
  }

  /** Odd positions are expected results: step `j` splits the cleaned string at `2j + 1`. */
  lemma {:induction false} OddExpected(texts: seq<string>, j: nat)
    requires 2 * j + 1 < |texts|
    ensures StepsFor(texts).steps[j].expectedResult == SplitExpected(StripTags(Trim(texts[2 * j + 1])))
  {
    var clean := Cleaned(texts);
    StepsForAt(texts, j);
    CleanedAt(texts, 2 * j + 1);
    StepAtExpected(clean, j, StripTags(Trim(texts[2 * j + 1])));
  }

  /** A last action without a partner gets the expected result `["none"]`. */
  lemma {:induction false} LoneActionNone(texts: seq<string>)
    requires |texts| % 2 == 1
    ensures StepsFor(texts).steps[|texts| / 2].expectedResult == ["none"]
  {
    var clean := Cleaned(texts);
    var j := |texts| / 2;
    assert StepsFor(texts).steps[j] == StepAt(clean, j);
    assert ExpectedRaw(clean, 2 * j + 1) == "none";
    SplitExpectedNone();
  }

  /** A work item without a (non-empty) steps field gives `{steps: []}`. */
  lemma {:induction false} AbsentStepsField(item: Option<Fields>, textContents: string -> seq<string>)
    requires item.None? || StepsField !in item.value || item.value[StepsField] == []
    ensures StepsOutcome(Success(item), textContents) == Success(TestCaseResult([]))
  {
  }
}
