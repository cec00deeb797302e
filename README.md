# azure-pr-mcp core in Dafny

This project models the logic of the azure-pr-mcp server and proves properties of that model. Azure DevOps test cases, work items and pull requests are reached through MCP tools. The tools themselves are thin wrappers around remote calls.

The modelled logic:

- **Test-step extraction** (`StepParsing`, `AzureHelper.GetStepsFromTestcase`, `AzureGetTestcase`).
  - `stripTags` is modelled as the JavaScript regex replace `/<.*?>/g`: scan from the left, stop at the first `>` on the same line, skip one character after a failed attempt. This is followed by `trim` and the `"none"` fallback.
  - `splitExpected`: entity removal, then `trim`, then the global match of `\d+\.\s*([^\d]+?)(?=(?:\d+\.|$))`, then marker removal, trim and filter, all with JavaScript's matching rules.
  - The two loops of `getStepsFromTestcase` become methods with loop invariants. One fills the trimmed text contents. The other walks the cleaned strings two at a time, numbering the steps.
  - `src/helper/azureGetTestcase.ts` repeats the same `stripTags`, `splitExpected` and loops text for text. One model serves both files, and each file's entry point is proved equal to the same specification function.
- **Automation fields** (`AzureHelper`).
  - Reading the six fields out of a work item.
  - The conditional, ordered JSON-Patch document for an update, with its "No updates provided" error.
  - The fixed "clear" document.
  - A reference reading `ApplyPatch` of what a patch does to a field map, lenient about missing targets (see "## Left out"). The builders are proved against it: an update overlays the defined values, and a clear leaves only the status "Not Automated". No other field changes.
- **Pull-request helpers** (`AzureIdentity`).
  - The REST URL templates.
  - The latest-iteration `reduce` with JavaScript truthiness.
  - The change-entry mapping with its defaults.
  - The inline-comment payload, proved by reading it back.
  - The thread projection.
  - The composition in `getPRFileChanges`.
  - A token request and a `fetch` become inputs. The reply of `fetch` is a function of the request URL (and body), so the model also fixes which URL each request goes to.
- **Registration.**
  - `BaseMcp.Mcp` has a `server` that is fixed at construction. Its `Register` runs the tools hook and then the prompts hook.
  - `McatMcp` is the MCAT subclass: its tool and prompt names, the argument builder of `update_automation_details`, and the result each handler returns.

The model follows the source's branches and constants. Remote calls, the HTML parser and the credential are parameters:

- `Fetched`: the work item or the thrown error.
- `textContents`: what the parser finds.
- `setup` and `reply`: the errors before the patch is sent and the answer to it.
- `Auth` and `Reply`: the token and the `fetch` outcomes.

Error messages carry each helper's `catch` prefix exactly as written.

## Model

| member | source | states |
|---|---|---|
| JsText.Trim | src/helper/azureHelper.ts:30 | `trim` leaves no white space at either end and adds no character |
| JsText.TrimStartSuffix | src/helper/azureHelper.ts:30 | `trimStart` keeps a suffix and drops only white space |
| JsText.TrimEndPrefix | src/helper/azureHelper.ts:30 | `trimEnd` keeps a prefix and drops only white space |
| JsText.TrimIdempotent | src/helper/azureHelper.ts:40 | trimming twice is trimming once |
| JsText.TrimEmpty | src/helper/azureHelper.ts:50 | the trimmed text is empty exactly when every character is JavaScript white space |
| JsText.IntToStringInjective | src/helper/azureIdentity.ts:118 | different integers give different `${n}` texts |
| StepParsing.StripTags | src/helper/azureHelper.ts:28-31 | `stripTags` never returns the empty string |
| StepParsing.RemoveTags | src/helper/azureHelper.ts:29 | the lazy, line-bounded global replace `/<.*?>/g`, deleting from the left; it never lengthens the text (its other properties are in `StripTagsIsTagFree`, `StripTagsDeletesSpan`, `StripTagsAllTags`) |
| StepParsing.StripTagsIsTagFree | src/helper/azureHelper.ts:29 | after the replace, no `<…>` span closed on its line remains |
| StepParsing.StripTagsIdempotent | src/helper/azureHelper.ts:28-31 | cleaning a cleaned string changes nothing |
| StepParsing.StripTagsWithoutAngle | src/helper/azureHelper.ts:29-30 | text without `<` is only trimmed, with "none" for blank text |
| StepParsing.StripTagsDeletesSpan | src/helper/azureHelper.ts:29 | a `<…>` span without `>` or a line break inside is deleted, and the text before it is kept |
| StepParsing.StripTagsBlank | src/helper/azureGetTestcase.ts:24-27 | any text of white space only gives "none" |
| StepParsing.StripTagsAllTags | src/helper/azureGetTestcase.ts:24-27 | any text made only of `<x>` spans, none holding `>` or a line break, gives "none" |
| StepParsing.RemoveEntitiesWithoutAmp | src/helper/azureHelper.ts:39 | the entity replace leaves text without `&` unchanged |
| StepParsing.RemoveEntities | src/helper/azureHelper.ts:39 | the global replace of `&[a-zA-Z0-9#]+;` by nothing, from the left; it never lengthens the text (what it deletes is stated by `RemoveEntitiesDeletesEntity` and `RemoveEntitiesWithoutAmp`) |
| StepParsing.RemoveEntitiesDeletesEntity | src/helper/azureHelper.ts:38-39 | an entity `&name;` (a non-empty name of `[a-zA-Z0-9#]`) after text without `&` is deleted, the text before it is kept, and the replace goes on after the `;` |
| StepParsing.MatchAt | src/helper/azureHelper.ts:43 | a match is a digit run, a `.` and a non-empty digit-free rest, followed by end of text or another `N.` |
| StepParsing.NumberedMatches | src/helper/azureHelper.ts:43 | every match of the global scan has the numbered-segment shape |
| StepParsing.MatchAtComplete | src/helper/azureHelper.ts:43 | the converse of `MatchAt`'s contract: a prefix of the numbered-segment shape followed by the end or another `N.` is exactly the match found there |
| StepParsing.NumberedMatchesEmpty | src/helper/azureHelper.ts:43 | the global scan returns `null` exactly when no position of the text starts a match |
| StepParsing.SplitExpected | src/helper/azureHelper.ts:37-54 | the result is a non-empty list of non-empty strings |
| StepParsing.SplitExpectedCases | src/helper/azureHelper.ts:39-53 | the result is the filtered items if any, else the cleaned text, else `["none"]` |
| StepParsing.SplitExpectedShape | src/helper/azureHelper.ts:43-50 | every element is trimmed and non-empty; when numbered items exist, none contains a digit |
| StepParsing.ItemShape | src/helper/azureHelper.ts:48 | an item loses its `N.` marker, is trimmed and holds no digit |
| StepParsing.StripMarker | src/helper/azureHelper.ts:48 | `replace(/^\d+\.\s*/, '')`: a leading digit run with its `.` and the white space after it is dropped (definition only; stated by `StripMarkerSuffix` and `ItemShape`) |
| StepParsing.StripMarkerSuffix | src/helper/azureHelper.ts:48 | the stripped match is a suffix of the match |
| StepParsing.Item | src/helper/azureHelper.ts:48 | one item: the match without its marker, trimmed (definition only; stated by `ItemShape`) |
| StepParsing.Items | src/helper/azureHelper.ts:48-49 | the map and the `filter(m => m)`: never more items than matches, none empty (its order and contents are stated by `ItemsShape` and `SplitExpectedOfNumbered`) |
| StepParsing.SplitExpectedBlank | src/helper/azureHelper.ts:50-53 | a text blank after entity removal and trim gives `["none"]` |
| StepParsing.SplitExpectedWithoutMarker | src/helper/azureHelper.ts:43-53 | with no digit directly before a `.`, nothing matches and the cleaned text comes back as the only element |
| StepParsing.SplitExpectedWithoutMatch | src/helper/azureHelper.ts:43-53 | when no position of the cleaned text starts a match, the cleaned text comes back as the only element, or `["none"]` when it is empty |
| StepParsing.NumberedMatchesSkip | src/helper/azureHelper.ts:43 | a digit-free prefix before the first number yields no match |
| StepParsing.SplitExpectedOfNumbered | src/helper/azureHelper.ts:34-54 | a digit-free prefix followed by items numbered `1.`, `2.`, … run together splits back into the non-empty items, in order |
| StepParsing.SplitTwoItems | src/helper/azureHelper.ts:34-54 | any two plain, non-empty items numbered `1.` and `2.` split back into those two items |
| StepParsing.DocumentedExampleText | src/helper/azureGetTestcase.ts:29-31 | numbering "First step" and "Second step" gives "1. First step2. Second step" |
| StepParsing.DocumentedExampleSplit | src/helper/azureGetTestcase.ts:29-31 | that text splits into `["First step", "Second step"]` |
| StepParsing.CollectTexts | src/helper/azureHelper.ts:311-316 | the pushed strings are the trimmed text contents, one per element, in order |
| StepParsing.PairUp | src/helper/azureHelper.ts:321-338 | `ceil(n/2)` steps; step `j` is numbered `j+1` from the strings at `2j` and `2j+1`, with "none" when the second is missing |
| StepParsing.Cleaned | src/helper/azureHelper.ts:319-320 | one `stripTags` result per text content, in order (its elements are stated by `EvenActions` and `OddExpected`) |
| StepParsing.StepAt | src/helper/azureHelper.ts:325-336 | step `j` of the loop: number `j+1`, action `clean[2j] \|\| ''`, expected `splitExpected` of `ExpectedRaw` (definition only; stated by `EvenActions`, `OddExpected`, `LoneActionNone`, `ExtractedStepShape`) |
| StepParsing.ExpectedRaw | src/helper/azureHelper.ts:327 | `cleanParamStrings[i + 1] \|\| 'none'` (definition only; stated by `OddExpected` and `LoneActionNone`) |
| StepParsing.StepsFor | src/helper/azureHelper.ts:311-338 | the specification of the loops: `ceil(n/2)` steps, step `j` built from the cleaned strings at `2j` and `2j+1` |
| StepParsing.ExtractSteps | src/helper/azureHelper.ts:311-338 | the two loops together produce `StepsFor` of the text contents |
| StepParsing.ExtractedStepShape | src/helper/azureHelper.ts:319-338 | step `j` is numbered `j+1`; its action is the cleaned string `2j` and is never empty; its expected list is non-empty and trimmed |
| StepParsing.SplitExpectedNone | src/helper/azureHelper.ts:327-329 | the "none" fallback splits into `["none"]` |
| AzureHelper.GetStepsFromTestcase | src/helper/azureHelper.ts:276-345 | errors get the prefix; a work item without steps gives `{steps: []}`; otherwise the step count and each step are as the loops give |
| AzureHelper.StepsOutcome | src/helper/azureHelper.ts:276-345 | the outcome the method is proved to return: the prefixed error, `{steps: []}` without steps HTML, otherwise `StepsFor` of the parsed text contents (definition only; its cases are stated by `AbsentStepsField`, `EvenActions`, `OddExpected`) |
| AzureGetTestcase.GetStepsFromTestcase | src/helper/azureGetTestcase.ts:55-124 | the second copy's outcome is equal to the first's for every input |
| AzureGetTestcase.StepNumbering | src/helper/azureGetTestcase.ts:100-117 | step numbers run 1, 2, … without a gap, `ceil(n/2)` of them |
| AzureGetTestcase.EvenActions | src/helper/azureGetTestcase.ts:98-104 | step `j`'s action is the cleaned string at `2j` |
| AzureGetTestcase.OddExpected | src/helper/azureGetTestcase.ts:98-108 | step `j`'s expected result splits the cleaned string at `2j+1` |
| AzureGetTestcase.LoneActionNone | src/helper/azureGetTestcase.ts:105-108 | a final action without a partner has the expected result `["none"]` |
| AzureGetTestcase.AbsentStepsField | src/helper/azureGetTestcase.ts:79-81 | a missing or empty Steps field gives `{steps: []}` |
| AzureHelper.DetailsOf | src/helper/azureHelper.ts:92-103 | each of the six details is the value of its field when present |
| AzureHelper.GetAutomationDetails | src/helper/azureHelper.ts:92-108 | errors get the prefix; a missing work item gives the empty record; otherwise each detail is its field's value |
| AzureHelper.BuildUpdatePatch | src/helper/azureHelper.ts:139-192 | the pushes build the update patch, and an empty patch is the "No updates provided" error |
| AzureHelper.UpdateOps | src/helper/azureHelper.ts:139-187 | the six conditional pushes as one list, in field order (definition only; stated by `UpdateOpsMembership`, `UpdateOpsShape`, `UpdateOpsEmpty`, `UpdateRoundTrip`) |
| AzureHelper.UpdateOpsMembership | src/helper/azureHelper.ts:141-187 | the patch replaces field `i` with `v` exactly when update `i` is `v` |
| AzureHelper.UpdateOpsShape | src/helper/azureHelper.ts:141-187 | only `replace` ops on automation fields, in the fixed field order |
| AzureHelper.UpdateOpsEmpty | src/helper/azureHelper.ts:189-192 | the patch is empty exactly when no update is defined |
| AzureHelper.ReplacesEmpty | src/helper/azureHelper.ts:139-192 | a conditional push list is empty exactly when every value is undefined |
| AzureHelper.ReplacesOrdered | src/helper/azureHelper.ts:139-187 | the ops come in the order of the fields |
| AzureHelper.UpdateRoundTrip | src/helper/azureHelper.ts:139-199 | applying the update patch sets exactly the defined details and changes no other field |
| AzureHelper.ClearRoundTrip | src/helper/azureHelper.ts:232-258 | after the clear patch only the status is left, as "Not Automated"; other fields are unchanged |
| AzureHelper.ClearPatchPerField | src/helper/azureHelper.ts:232-258 | the clear patch has one op per automation field, in field order; only the status is replaced, with "Not Automated", the other five are removed |
| AzureHelper.ApplyPatch | src/helper/azureHelper.ts:195-199 | the service's reading of the patch sent to `updateWorkItem`, not of source lines: `replace` sets a field, `remove` deletes it, in order (definition only; a lenient reading, see "## Left out") |
| AzureHelper.ApplyPatchFrame | src/helper/azureHelper.ts:195-199 | a field that no op names keeps its value or stays absent |
| AzureHelper.UpdateAutomationDetails | src/helper/azureHelper.ts:122-204 | setup errors and an empty patch fail with the prefix and send nothing; otherwise the update patch is sent and the reply is passed on |
| AzureHelper.ClearAutomationDetails | src/helper/azureHelper.ts:215-270 | setup errors fail with the prefix; otherwise the clear patch is sent and the reply is passed on |
| AzureIdentity.UrlShape | src/helper/azureIdentity.ts:62 | every request URL lies below the pull request's path and ends in `?api-version=7.0` |
| AzureIdentity.PullRequestBase | src/helper/azureIdentity.ts:62 | the path of the pull request shared by the three request URLs (definition only; stated by `UrlShape` and `ChangesUrlInjective`) |
| AzureIdentity.IterationsUrl | src/helper/azureIdentity.ts:62 | the iterations URL (definition only; stated by `UrlShape` and `LatestIterationIdSuccess`) |
| AzureIdentity.ChangesUrl | src/helper/azureIdentity.ts:118 | the changes URL of one iteration (definition only; stated by `UrlShape`, `ChangesUrlInjective` and `ChangesEchoIteration`) |
| AzureIdentity.ThreadsUrl | src/helper/azureIdentity.ts:238 | the threads URL, the same for posting and listing threads at line 310 (definition only; stated by `UrlShape`) |
| AzureIdentity.HttpError | src/helper/azureIdentity.ts:74 | the `HTTP <status>: <statusText>` message, also at lines 130 and 322 (definition only; stated by `Request` and `LatestIterationIdErrors`) |
| AzureIdentity.Prefixed | src/helper/azureIdentity.ts:94-95 | a failure gets the function's prefix in front of its message, and a success passes through unchanged |
| AzureIdentity.ChangesUrlInjective | src/helper/azureIdentity.ts:118 | different iterations have different changes URLs |
| AzureIdentity.Request | src/helper/azureIdentity.ts:53-75 | no token, a rejected fetch and a non-2xx status each give their error; success only with a token and `response.ok` |
| AzureIdentity.LatestIterationId | src/helper/azureIdentity.ts:47-97 | `getPRLatestIterationId`: the request, the empty-list check, the reduce and the id check (definition only; stated by `LatestIterationIdErrors` and `LatestIterationIdSuccess`) |
| AzureIdentity.PickLatestIsMember | src/helper/azureIdentity.ts:85-87 | the reduce returns an element of the list |
| AzureIdentity.Later | src/helper/azureIdentity.ts:86 | the `reduce` callback: the current iteration only when both ids are truthy and the current one is larger (definition only; stated by `PickLatestStuck` and `PickLatestIsMaximal`) |
| AzureIdentity.PickLatest | src/helper/azureIdentity.ts:85-87 | the left-to-right `reduce` that moves to the current iteration only when both ids are truthy and the current one is larger (definition only; stated by `PickLatestIsMember`, `PickLatestStuck`, `PickLatestIsMaximal`) |
| AzureIdentity.PickLatestStuck | src/helper/azureIdentity.ts:85-87 | an id-less first iteration is never replaced |
| AzureIdentity.PickLatestIsMaximal | src/helper/azureIdentity.ts:85-87 | from a first iteration with an id, the pick has an id no smaller than any other id; id-less iterations are skipped |
| AzureIdentity.LatestIsMaximum | src/helper/azureIdentity.ts:85-93 | with all ids positive, the result is the largest id |
| AzureIdentity.FirstWithoutIdFails | src/helper/azureIdentity.ts:85-91 | an id-less first iteration fails with 'Could not determine latest iteration ID' |
| AzureIdentity.SelectLatest | src/helper/azureIdentity.ts:80-82 | a missing or empty list fails with 'No iterations found for this pull request'; a returned id is never 0 |
| AzureIdentity.LatestIsListed | src/helper/azureIdentity.ts:85-93 | a returned id belongs to some listed iteration |
| AzureIdentity.LatestIterationIdErrors | src/helper/azureIdentity.ts:53-96 | each of the six errors behind its prefix: no token, a rejected token request, a rejected fetch, a non-2xx status, no iterations, an id-less first iteration |
| AzureIdentity.LatestIterationIdSuccess | src/helper/azureIdentity.ts:62-93 | a returned id came from a successful request to the iterations URL, is listed, and is not below any listed id |
| AzureIdentity.MapChange | src/helper/azureIdentity.ts:141-149 | a missing or empty changeType becomes 'unknown' and a missing path or url becomes ''; the other values pass through |
| AzureIdentity.MapChangesOrder | src/helper/azureIdentity.ts:141 | the mapping keeps count and order and commutes with concatenation |
| AzureIdentity.MapChanges | src/helper/azureIdentity.ts:141 | `changeEntries.map(...)`: one change per entry (its elements and order are stated by `MapChangesOrder` and `MapChange`) |
| AzureIdentity.ChangesOf | src/helper/azureIdentity.ts:136-154 | the requested id is echoed; missing entries give no changes |
| AzureIdentity.IterationChanges | src/helper/azureIdentity.ts:102-158 | `getPRIterationChanges`: the request to the changes URL, then the mapping (definition only; stated by `MissingChangeEntries` and `ChangesEchoIteration`) |
| AzureIdentity.MissingChangeEntries | src/helper/azureIdentity.ts:136-138 | a response without `changeEntries` gives `{iterationId, changes: []}` |
| AzureIdentity.ChangesEchoIteration | src/helper/azureIdentity.ts:118-154 | a success echoes the requested id and maps the entries of exactly that iteration's URL |
| AzureIdentity.FileChangesWithoutLatest | src/helper/azureIdentity.ts:171-188 | without a latest id the error is passed on behind the prefix |
| AzureIdentity.FileChanges | src/helper/azureIdentity.ts:163-189 | `getPRFileChanges`: the latest id, then that iteration's changes (definition only; stated by `FileChangesWithoutLatest` and `FileChangesOfLatest`) |
| AzureIdentity.FileChangesOfLatest | src/helper/azureIdentity.ts:171-185 | a success reports the latest iteration's id and that iteration's changes |
| AzureIdentity.ThreadPayloadReadBack | src/helper/azureIdentity.ts:241-260 | one text comment with the content, status "active", start = end = `{line, offset: 1}`; reading back gives the arguments |
| AzureIdentity.ThreadPayload | src/helper/azureIdentity.ts:240-260 | the thread object posted for an inline comment (definition only; stated by `ThreadPayloadReadBack`) |
| AzureIdentity.ProjectThread | src/helper/azureIdentity.ts:279-286 | only the six thread properties, with their values |
| AzureIdentity.ProjectThreadIdempotent | src/helper/azureIdentity.ts:328-335 | projecting a projected thread changes nothing |
| AzureIdentity.AddInlineCommentCreated | src/helper/azureIdentity.ts:263-286 | an accepted post returns the created thread's six properties |
| AzureIdentity.AddInlineCommentRefused | src/helper/azureIdentity.ts:272-275 | a refused post reports the status line and the response text behind the prefix |
| AzureIdentity.AddInlineComment | src/helper/azureIdentity.ts:220-290 | `addPRInlineComment`: post the payload to the threads URL and project the reply (definition only; stated by `AddInlineCommentCreated` and `AddInlineCommentRefused`) |
| AzureIdentity.ThreadsOf | src/helper/azureIdentity.ts:326-335 | a falsy `value` lists no threads; otherwise one projected thread per listed thread, in order |
| AzureIdentity.NoThreadValue | src/helper/azureIdentity.ts:326 | a response without `value` lists no threads |
| AzureIdentity.CommentThreadsProjected | src/helper/azureIdentity.ts:326-335 | listed threads hold only the six properties |
| AzureIdentity.CommentThreads | src/helper/azureIdentity.ts:295-339 | `getPRCommentThreads`: the request to the threads URL and the projection of each listed thread (definition only; stated by `ThreadsOf`, `NoThreadValue`, `CommentThreadsProjected`) |
| BaseMcp.Mcp.constructor | src/mcp/baseMcp.ts:9-11 | the server is set once; the `server` field is a `const` |
| BaseMcp.Mcp.RegisterTools | src/mcp/mcatMcp.ts:18-156 | the tools hook registers its tools in order |
| BaseMcp.Mcp.RegisterPrompts | src/mcp/mcatMcp.ts:161-242 | the prompts hook registers its prompts in order |
| BaseMcp.Mcp.Register | src/mcp/baseMcp.ts:16-19 | the tools hook and then the prompts hook, each once, and nothing else |
| BaseMcp.ToolsBeforePrompts | src/mcp/baseMcp.ts:16-19 | in what one `register()` adds, every tool comes before every prompt |
| McatMcp.ErrorResult | src/mcp/mcatMcp.ts:36-45 | one text block, flagged as an error, that is the prefix followed by the message |
| McatMcp.GetTestCaseTool | src/mcp/mcatMcp.ts:26-45 | one block; it is an error exactly on failure; on success, the JSON of the result |
| McatMcp.TestCaseJsonReadBack | src/mcp/mcatMcp.ts:32 | the JSON holds the whole test-case result |
| McatMcp.TestCaseJson | src/mcp/mcatMcp.ts:32 | the JSON value of a test-case result (definition only; stated by `TestCaseJsonReadBack`) |
| McatMcp.DetailsJson | src/mcp/mcatMcp.ts:62 | a property appears exactly for each defined detail |
| McatMcp.DetailsJsonReadBack | src/mcp/mcatMcp.ts:62 | reading the JSON back gives the details |
| McatMcp.GetAutomationDetailsTool | src/mcp/mcatMcp.ts:56-75 | one block; it is an error exactly on failure; on success, the JSON of the details |
| McatMcp.OutcomeTextsDiffer | src/mcp/mcatMcp.ts:106-108 | "Successfully …" for `true` and "Failed to …" for `false`, with the same split for clear |
| McatMcp.OutcomeText | src/mcp/mcatMcp.ts:106-108 | the reply text, "Successfully …" or "Failed to …" followed by the work item (definition only; stated by `OutcomeTextStart` and `OutcomeTextsDiffer`) |
| McatMcp.OutcomeTextStart | src/mcp/mcatMcp.ts:106-108 | the reply text starts with "Successfully " for `true` and with "Failed to " for `false` |
| McatMcp.UpdatedText | src/mcp/mcatMcp.ts:106-108 | the update tool's reply text (definition only; stated by `OutcomeTextsDiffer`) |
| McatMcp.ClearedText | src/mcp/mcatMcp.ts:138-140 | the clear tool's reply text (definition only; stated by `OutcomeTextsDiffer`) |
| McatMcp.BuildUpdates | src/mcp/mcatMcp.ts:90-99 | type "L2"; name equals the id or neither is set; storage and status are copied; the custom status is never set; the patch is never empty |
| McatMcp.UpdateAutomationDetailsTool | src/mcp/mcatMcp.ts:88-122 | the patch sent is exactly `UpdateOps` of the built updates (id and name from the id, storage and status as given, type L2, no custom status), so it is never empty and has type L2; the reply gives the text, and errors get both prefixes |
| McatMcp.ClearAutomationDetailsTool | src/mcp/mcatMcp.ts:131-154 | the clear patch is sent; the reply gives the text, and errors get both prefixes |
| McatMcp.RegisterMcat | src/index.ts:31-32 | MCAT appends its four tools and then its two prompts |
| McatMcp.McatRegistrationOrder | src/mcp/mcatMcp.ts:20-215 | in order: get_test_case, get_automation_details, update_automation_details, clear_automation_details, write-new-mcat, run-and-debug-mcat |

For properties that hold across several calls, the lemmas are the partners of the operations:

- `StepParsing.SplitExpectedOfNumbered` also covers `"Step 1. Open"` giving `["Open"]`, by taking the prefix "Step ".
- It also covers `"1. 2. x"` giving `["x"]`, because the first item is empty there.

## Left out

- HTML parsing: `new JSDOM(...)` and `querySelectorAll('parameterizedstring')` are a foreign parser. The text contents are an input (`textContents`).
- Errors thrown by the parser are left out.
- Remote calls are inputs:
  - `DefaultAzureCredential`;
  - `azure-devops-node-api` (`getWorkItem`, `updateWorkItem`);
  - `fetch`, `response.json()` and `response.text()`.
- Async sequencing is plain order.
- `parseInt(workItemId)` is left out; the work item outcome is given directly.
- `JSON.stringify(result, null, 2)`: the rendering is not modelled. A `JsonText` block carries the JSON value itself.
- `error instanceof Error ? error.message : String(error)`: every failure is modelled as an `Error` with a message.
- JavaScript strings are UTF-16 code units. The model uses Dafny `char`s, and the white-space set is the one `trim` and `\s` share.
- Work-item field values are modelled as strings, the `as string` casts. Non-string values are left out.
- Response bodies of other shapes than the code expects are left out. These shapes would make JavaScript throw a `TypeError`:
  - a non-array `value` or `changeEntries`;
  - a `null` element;
  - a non-numeric iteration id.
- The `>` comparison of non-numeric ids is left out.
- The `toString` of object or array change types is left out.
- `AzureIdentity.Iteration`: ids are integers or absent. A negative id counts as truthy, as in JavaScript.
- JSON numbers are integers; floating point is left out.
- Prompt bodies of `write-new-mcat` and `run-and-debug-mcat` are literal templates. Only their registration is modelled.
- Tool descriptions and zod input schemas are left out. Schema validation and duplicate-name detection happen inside the MCP SDK.
- The `prFilesMcp.ts`, `prCommentsMcp.ts`, `snykMcp.ts` and `createATPMcp.ts` handlers are not part of this model, and neither is the process code in `src/index.ts`.
- AzureHelper.GetAutomationDetails: in the source, a work item with fields gives an object with all six keys, each `undefined` when its field is absent, while a missing work item gives `{}`. The model has no key presence, so both become `NoDetails` when no field is set. The difference disappears anyway once `JSON.stringify` renders the result for the tool, which drops `undefined` properties.
- AzureIdentity.ProjectThread: in the source, each created or listed thread is an object literal with all six keys (azureIdentity.ts:279-286 and 328-335), each `undefined` when the reply lacks it. The model keeps only the properties that are present, so a key that is there but `undefined` and a missing key are the same. This carries through `ThreadsOf`, `AddInlineCommentCreated` and `CommentThreads`. `JSON.stringify` drops `undefined` properties, so the rendered text is the same either way.
- AzureHelper.ApplyPatch: a lenient reading of the patch. `replace` on an absent field adds it, and `remove` on an absent field does nothing. Sections 4.2 and 4.3 of RFC 6902 require the target of both to exist. `UpdateRoundTrip` and `ClearRoundTrip` hold under this lenient reading; how Azure DevOps treats a missing target is not part of this model.
- `StepParsing.DocumentedExampleSplit` states the documented example of `splitExpected` in two steps, through `Numbered`, rather than on the literal text.
- `StepParsing.SplitExpectedWithoutMarker` is a sufficient syntactic condition for no match; the exact condition is the one of `SplitExpectedWithoutMatch`, through `NumberedMatchesEmpty`.
