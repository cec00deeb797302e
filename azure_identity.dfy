/**
 * The pull-request helpers. Each remote call is reduced to its outcome: the credential's answer
 * (`Auth`) and the reply of `fetch`, given as a function of the request URL (and body), so the
 * model also says WHICH request the code sends.
 */
module AzureIdentity {
  import opened Wrappers
  import opened JsText
  import opened JsValues

  // ---------------------------------------------------------------------------------------------
  // Request URLs
  // ---------------------------------------------------------------------------------------------

  const ApiRoot := "https://dev.azure.com/"
  const ApiVersion := "?api-version=7.0"

  /** The pull request's REST path, shared by every request. */
  function PullRequestBase(organization: string, project: string, repositoryId: string, pullRequestId: int): string {
    ApiRoot + organization + "/" + project + "/_apis/git/repositories/" + repositoryId
      + "/pullRequests/" + IntToString(pullRequestId)
  }

  /** A request URL: a resource below the pull request, at API version 7.0. */
  function RequestUrl(organization: string, project: string, repositoryId: string, pullRequestId: int, resource: string): string {
    PullRequestBase(organization, project, repositoryId, pullRequestId) + "/" + resource + ApiVersion
  }

  function IterationsUrl(organization: string, project: string, repositoryId: string, pullRequestId: int): string {
    RequestUrl(organization, project, repositoryId, pullRequestId, "iterations")
  }

  function ChangesUrl(organization: string, project: string, repositoryId: string, pullRequestId: int, iterationId: int): string {
    RequestUrl(organization, project, repositoryId, pullRequestId, "iterations/" + IntToString(iterationId) + "/changes")
  }

  function ThreadsUrl(organization: string, project: string, repositoryId: string, pullRequestId: int): string {
    RequestUrl(organization, project, repositoryId, pullRequestId, "threads")
  }

  /** `url` lies below the pull request's path `base` and asks for API version 7.0. */
  predicate UnderPullRequest(url: string, base: string) {
    |url| >= |base| + 1 + |ApiVersion| && url[..|base| + 1] == base + "/" && url[|url| - |ApiVersion|..] == ApiVersion
  }

  /** Every request URL lies below the pull request's path and asks for API version 7.0. */
  lemma {:induction false} UrlShape(organization: string, project: string, repositoryId: string, pullRequestId: int, resource: string)
    ensures UnderPullRequest(RequestUrl(organization, project, repositoryId, pullRequestId, resource),
                             PullRequestBase(organization, project, repositoryId, pullRequestId))
  {
    var base := PullRequestBase(organization, project, repositoryId, pullRequestId);
    var url := RequestUrl(organization, project, repositoryId, pullRequestId, resource);
    assert url == (base + "/") + (resource + ApiVersion);
  }

  /** Text between a common prefix and a common suffix is determined by the whole. */
  lemma {:induction false} CancelAround(p: string, x: string, y: string, q: string)
    requires p + x + q == p + y + q
    ensures x == y
  {
    var u, v := p + x + q, p + y + q;
    assert |x| == |y|;
    assert x == u[|p|..|p| + |x|];
    assert y == v[|p|..|p| + |y|];
  }

  /** The changes request names its iteration: different iterations are asked for at different URLs. */
  lemma {:induction false} ChangesUrlInjective(organization: string, project: string, repositoryId: string, pullRequestId: int, a: int, b: int)
    requires ChangesUrl(organization, project, repositoryId, pullRequestId, a)
          == ChangesUrl(organization, project, repositoryId, pullRequestId, b)
    ensures a == b
  {
    var base := PullRequestBase(organization, project, repositoryId, pullRequestId);
    CancelAround(base + "/", "iterations/" + IntToString(a) + "/changes", "iterations/" + IntToString(b) + "/changes", ApiVersion);
    CancelAround("iterations/", IntToString(a), IntToString(b), "/changes");
    IntToStringInjective(a, b);
  }

  // ---------------------------------------------------------------------------------------------
  // Remote calls
  // ---------------------------------------------------------------------------------------------

  /** What `credential.getToken(...)` does: resolve to a token, resolve to `null`, or reject. */
  datatype Auth = Token | NoToken | AuthError(message: string)

  /** What `fetch` does: reject, or resolve to a response with its status line, text and JSON body. */
  datatype Reply<T> =
    | Threw(message: string)
    | Responded(status: int, statusText: string, text: string, body: T)

  /** `response.ok`. */
  predicate Ok<T>(reply: Reply<T>) {
    reply.Responded? && 200 <= reply.status <= 299
  }

  const NoTokenMessage := "Failed to get access token"

  function HttpError(status: int, statusText: string): string {
    "HTTP " + IntToString(status) + ": " + statusText
  }

  /**
   * The token check, the request and the `response.ok` check every helper performs.
   * `withText` is the comment helper's variant that appends the response text to the error.
   */
  function Request<T>(auth: Auth, reply: Reply<T>, withText: bool): (r: Result<T, string>)
    ensures auth.NoToken? ==> r == Failure(NoTokenMessage)
    ensures auth.AuthError? ==> r == Failure(auth.message)
    ensures auth.Token? && reply.Threw? ==> r == Failure(reply.message)
    ensures r.Success? <==> auth.Token? && Ok(reply)
    ensures r.Success? ==> r.value == reply.body
    ensures auth.Token? && reply.Responded? && !Ok(reply) ==>
      r == Failure(if withText then HttpError(reply.status, reply.statusText) + " - " + reply.text
                   else HttpError(reply.status, reply.statusText))
  {
    match auth
    case NoToken => Failure(NoTokenMessage)
    case AuthError(m) => Failure(m)
    case Token =>
      match reply
      case Threw(m) => Failure(m)
      case Responded(status, statusText, text, body) =>
        if 200 <= status <= 299 then Success(body)
        else if withText then Failure(HttpError(status, statusText) + " - " + text)
        else Failure(HttpError(status, statusText))
  }

  /** The `catch` block of each helper: rethrow with the helper's own prefix. */
  function Prefixed<T>(prefix: string, r: Result<T, string>): (q: Result<T, string>)
    ensures q.Success? <==> r.Success?
    ensures r.Success? ==> q == r
    ensures r.Failure? ==> q.error == prefix + r.error
  {
    match r
    case Success(v) => Success(v)
    case Failure(e) => Failure(prefix + e)
  }

  // ---------------------------------------------------------------------------------------------
  // Latest iteration
  // ---------------------------------------------------------------------------------------------

  /** One element of `data.value`; `id` is `None` when missing or `null`. */
  datatype Iteration = Iteration(id: Option<int>)

  /** JavaScript truthiness of an iteration id: present and not 0. */
  predicate HasId(it: Iteration) {
    it.id.Some? && it.id.value != 0
  }

  /** The reducer: move to `current` only when both ids are truthy and `current`'s is larger. */
  function Later(latest: Iteration, current: Iteration): Iteration {
    if HasId(current) && HasId(latest) && current.id.value > latest.id.value then current else latest
  }

  /** `iterations.reduce(Later)` without an initial value: a fold from the left starting at the first element. */
  function PickLatest(iterations: seq<Iteration>): Iteration
    requires iterations != []
    decreases |iterations|
  {
    if |iterations| == 1 then iterations[0]
    else Later(PickLatest(iterations[..|iterations| - 1]), iterations[|iterations| - 1])
  }

  const LatestPrefix := "Failed to get latest iteration ID: "
  const NoIterationsMessage := "No iterations found for this pull request"
  const NoLatestMessage := "Could not determine latest iteration ID"

  /** The checks after the response arrived; `value` is `None` when `data.value` is falsy. */
  function SelectLatest(value: Option<seq<Iteration>>): (r: Result<int, string>)
    ensures value.None? || value.value == [] ==> r == Failure(NoIterationsMessage)
    ensures r.Success? ==> r.value != 0
  {
    if value.None? || |value.value| == 0 then Failure(NoIterationsMessage)
    else
      var latest := PickLatest(value.value);
      if !HasId(latest) then Failure(NoLatestMessage) else Success(latest.id.value)
  }

  /** `getPRLatestIterationId`. */
  function LatestIterationId(organization: string, project: string, repositoryId: string, pullRequestId: int,
                             auth: Auth, fetch: string -> Reply<Option<seq<Iteration>>>): (r: Result<int, string>)
  {
    var reply := Request(auth, fetch(IterationsUrl(organization, project, repositoryId, pullRequestId)), false);
    Prefixed(LatestPrefix, if reply.Failure? then Failure(reply.error) else SelectLatest(reply.value))
  }

  /** The picked iteration is always one of the list's. */
  lemma {:induction false} PickLatestIsMember(iterations: seq<Iteration>)
    requires iterations != []
    ensures PickLatest(iterations) in iterations
    decreases |iterations|
  {
    if |iterations| > 1 {
      var init := iterations[..|iterations| - 1];
      PickLatestIsMember(init);
      assert PickLatest(init) in iterations by { assert forall x :: x in init ==> x in iterations; }
    }
  }

  /** An id-less first iteration is never left: the reducer compares nothing against it. */
  lemma {:induction false} PickLatestStuck(iterations: seq<Iteration>)
    requires iterations != [] && !HasId(iterations[0])
    ensures PickLatest(iterations) == iterations[0]
    decreases |iterations|
  {
    if |iterations| > 1 {
      PickLatestStuck(iterations[..|iterations| - 1]);
    }
  }

  /**
   * When the first iteration has an id, the pick has one too and it is at least every id in the
   * list: iterations without an id are skipped rather than chosen.
   */
  lemma {:induction false} PickLatestIsMaximal(iterations: seq<Iteration>)
    requires iterations != [] && HasId(iterations[0])
    ensures HasId(PickLatest(iterations))
    ensures forall k :: 0 <= k < |iterations| && HasId(iterations[k]) ==>
      iterations[k].id.value <= PickLatest(iterations).id.value
    decreases |iterations|
  {
    if |iterations| > 1 {
      var init := iterations[..|iterations| - 1];
      PickLatestIsMaximal(init);
      forall k | 0 <= k < |iterations| && HasId(iterations[k])
        ensures iterations[k].id.value <= PickLatest(iterations).id.value
      {
        if k < |init| {
          assert iterations[k] == init[k];
        }
      }
    }
  }

  /** When every id is positive, the returned id is the largest one. */
  lemma {:induction false} LatestIsMaximum(iterations: seq<Iteration>)
    requires iterations != []
    requires forall k :: 0 <= k < |iterations| ==> iterations[k].id.Some? && iterations[k].id.value > 0
    ensures SelectLatest(Some(iterations)).Success?
    ensures var id := SelectLatest(Some(iterations)).value;
      (exists k :: 0 <= k < |iterations| && iterations[k].id == Some(id))
      && forall k :: 0 <= k < |iterations| ==> iterations[k].id.value <= id
  {
    PickLatestIsMaximal(iterations);
    PickLatestIsMember(iterations);
    var p := PickLatest(iterations);
    var k :| 0 <= k < |iterations| && iterations[k] == p;
    assert iterations[k].id == Some(p.id.value);
  }

  /** An id-less first iteration makes the call fail, whatever follows it. */
  lemma {:induction false} FirstWithoutIdFails(iterations: seq<Iteration>)
    requires iterations != [] && !HasId(iterations[0])
    ensures SelectLatest(Some(iterations)) == Failure(NoLatestMessage)
  {
    PickLatestStuck(iterations);
  }

  /** A returned id is the id of some iteration in the list, and never 0. */
  lemma {:induction false} LatestIsListed(iterations: seq<Iteration>)
    requires SelectLatest(Some(iterations)).Success?
    ensures var id := SelectLatest(Some(iterations)).value;
      id != 0 && exists k :: 0 <= k < |iterations| && iterations[k].id == Some(id)
  {
    PickLatestIsMember(iterations);
    var p := PickLatest(iterations);
    var k :| 0 <= k < |iterations| && iterations[k] == p;
    assert iterations[k].id == Some(p.id.value);
  }

  /** The six errors of `getPRLatestIterationId`, each behind the helper's prefix. */
  lemma {:induction false} LatestIterationIdErrors(organization: string, project: string, repositoryId: string, pullRequestId: int,
                                                    auth: Auth, fetch: string -> Reply<Option<seq<Iteration>>>)
    ensures var r := LatestIterationId(organization, project, repositoryId, pullRequestId, auth, fetch);
      var reply := fetch(IterationsUrl(organization, project, repositoryId, pullRequestId));
      && (auth.NoToken? ==> r == Failure(LatestPrefix + NoTokenMessage))
      && (auth.AuthError? ==> r == Failure(LatestPrefix + auth.message))
      && (auth.Token? && reply.Threw? ==> r == Failure(LatestPrefix + reply.message))
      && (auth.Token? && reply.Responded? && !Ok(reply) ==>
            r == Failure(LatestPrefix + HttpError(reply.status, reply.statusText)))
      && (auth.Token? && Ok(reply) && (reply.body.None? || reply.body.value == []) ==>
            r == Failure(LatestPrefix + NoIterationsMessage))
      && (auth.Token? && Ok(reply) && reply.body.Some? && reply.body.value != [] && !HasId(reply.body.value[0]) ==>
            r == Failure(LatestPrefix + NoLatestMessage))
  {
    var reply := fetch(IterationsUrl(organization, project, repositoryId, pullRequestId));
    if auth.Token? && Ok(reply) && reply.body.Some? && reply.body.value != [] && !HasId(reply.body.value[0]) {
      FirstWithoutIdFails(reply.body.value);
    }
  }

  /**
   * A returned id comes from a successful request to the iterations URL; it is the id of one of
   * the listed iterations, not 0, and no listed id is larger.
   */
  lemma {:induction false} LatestIterationIdSuccess(organization: string, project: string, repositoryId: string, pullRequestId: int,
                                                     auth: Auth, fetch: string -> Reply<Option<seq<Iteration>>>)
    requires LatestIterationId(organization, project, repositoryId, pullRequestId, auth, fetch).Success?
    ensures var id := LatestIterationId(organization, project, repositoryId, pullRequestId, auth, fetch).value;
      var reply := fetch(IterationsUrl(organization, project, repositoryId, pullRequestId));
      && auth.Token? && Ok(reply) && reply.body.Some?
      && id != 0
      && (exists k :: 0 <= k < |reply.body.value| && reply.body.value[k].id == Some(id))
      && (forall k :: 0 <= k < |reply.body.value| && HasId(reply.body.value[k]) ==> reply.body.value[k].id.value <= id)
  {
    var reply := fetch(IterationsUrl(organization, project, repositoryId, pullRequestId));
    var iterations := reply.body.value;
    LatestIsListed(iterations);
    if !HasId(iterations[0]) {
      FirstWithoutIdFails(iterations);
    }
    PickLatestIsMaximal(iterations);
  }

  // ---------------------------------------------------------------------------------------------
  // Iteration changes
  // ---------------------------------------------------------------------------------------------

  /** A `changeType` value: Azure DevOps sends a name or an enum number. */
  datatype Scalar = SStr(s: string) | SNum(n: int) | SBool(b: bool)

  /** `value.toString()`. */
  function ScalarText(v: Scalar): string {
    match v
    case SStr(s) => s
    case SNum(n) => IntToString(n)
    case SBool(b) => if b then "true" else "false"
  }

  /** `change.item` as sent: `path` and `url` may be missing. */
  datatype ItemRef = ItemRef(path: Option<string>, url: Option<string>)

  /** One element of `changeEntries` as sent. */
  datatype ChangeEntry = ChangeEntry(changeType: Option<Scalar>, item: Option<ItemRef>,
                                     sourceServerItem: Option<string>, originalPath: Option<string>)

  datatype ChangedItem = ChangedItem(path: string, url: string)

  /** `PRFileChange`. */
  datatype PRFileChange = PRFileChange(changeType: string, item: ChangedItem,
                                       sourceServerItem: Option<string>, originalPath: Option<string>)

  /** `PRIterationResult`. */
  datatype PRIterationResult = PRIterationResult(iterationId: int, changes: seq<PRFileChange>)

  /** `x || ''` on an optional string. */
  function OrEmpty(x: Option<string>): string {
    if x.Some? then x.value else ""
  }

  /** The callback of `changeEntries.map`: defaults for what is missing, pass-through for the rest. */
  function MapChange(e: ChangeEntry): (r: PRFileChange)
    ensures r.changeType != []
    ensures r.changeType == "unknown" <==> e.changeType.None? || ScalarText(e.changeType.value) in {"", "unknown"}
    ensures e.changeType.Some? && ScalarText(e.changeType.value) != "" ==> r.changeType == ScalarText(e.changeType.value)
    ensures r.item.path == "" <==> e.item.None? || e.item.value.path.None? || e.item.value.path.value == ""
    ensures r.item.url == "" <==> e.item.None? || e.item.value.url.None? || e.item.value.url.value == ""
    ensures e.item.Some? && e.item.value.path.Some? ==> r.item.path == e.item.value.path.value
    ensures e.item.Some? && e.item.value.url.Some? ==> r.item.url == e.item.value.url.value
    ensures r.sourceServerItem == e.sourceServerItem && r.originalPath == e.originalPath
  {
    var kind := if e.changeType.Some? then ScalarText(e.changeType.value) else "";
    PRFileChange(
      if kind != "" then kind else "unknown",
      ChangedItem(if e.item.Some? then OrEmpty(e.item.value.path) else "",
                  if e.item.Some? then OrEmpty(e.item.value.url) else ""),
      e.sourceServerItem,
      e.originalPath)
  }

  /** `changeEntries.map(MapChange)`. */
  function MapChanges(entries: seq<ChangeEntry>): (r: seq<PRFileChange>)
    ensures |r| == |entries|
  {
    seq(|entries|, k requires 0 <= k < |entries| => MapChange(entries[k]))
  }

  /** The mapping keeps count and order: it works entry by entry and commutes with concatenation. */
  lemma {:induction false} MapChangesOrder(a: seq<ChangeEntry>, b: seq<ChangeEntry>)
    ensures MapChanges(a + b) == MapChanges(a) + MapChanges(b)
    ensures forall k :: 0 <= k < |a| ==> MapChanges(a)[k] == MapChange(a[k])
  {
    var l, r := MapChanges(a + b), MapChanges(a) + MapChanges(b);
    forall k | 0 <= k < |l| ensures l[k] == r[k] {
      if k < |a| {
        assert (a + b)[k] == a[k];
      } else {
        assert (a + b)[k] == b[k - |a|];
      }
    }
  }

  const ChangesPrefix := "Failed to get iteration changes: "

  /** The answer once the response arrived; `entries` is `None` when `data` or `data.changeEntries` is falsy. */
  function ChangesOf(iterationId: int, entries: Option<seq<ChangeEntry>>): (r: PRIterationResult)
    ensures r.iterationId == iterationId
    ensures entries.None? ==> r.changes == []
    ensures entries.Some? ==> r.changes == MapChanges(entries.value)
  {
    if entries.None? then PRIterationResult(iterationId, [])
    else PRIterationResult(iterationId, MapChanges(entries.value))
  }

  /** `getPRIterationChanges`. */
  function IterationChanges(organization: string, project: string, repositoryId: string, pullRequestId: int,
                            iterationId: int, auth: Auth, fetch: string -> Reply<Option<seq<ChangeEntry>>>)
    : (r: Result<PRIterationResult, string>)
  {
    var reply := Request(auth, fetch(ChangesUrl(organization, project, repositoryId, pullRequestId, iterationId)), false);
    Prefixed(ChangesPrefix, if reply.Failure? then Failure(reply.error) else Success(ChangesOf(iterationId, reply.value)))
  }

  /** A response without `changeEntries` gives no changes for the requested iteration. */
  lemma {:induction false} MissingChangeEntries(organization: string, project: string, repositoryId: string, pullRequestId: int,
                                                 iterationId: int, fetch: string -> Reply<Option<seq<ChangeEntry>>>)
    requires var reply := fetch(ChangesUrl(organization, project, repositoryId, pullRequestId, iterationId));
      Ok(reply) && reply.body.None?
    ensures IterationChanges(organization, project, repositoryId, pullRequestId, iterationId, Token, fetch)
         == Success(PRIterationResult(iterationId, []))
  {
  }

  /** A successful answer echoes the requested iteration, whatever the response held. */
  lemma {:induction false} ChangesEchoIteration(organization: string, project: string, repositoryId: string, pullRequestId: int,
                                                 iterationId: int, auth: Auth, fetch: string -> Reply<Option<seq<ChangeEntry>>>)
    requires IterationChanges(organization, project, repositoryId, pullRequestId, iterationId, auth, fetch).Success?
    ensures var r := IterationChanges(organization, project, repositoryId, pullRequestId, iterationId, auth, fetch).value;
      var body := fetch(ChangesUrl(organization, project, repositoryId, pullRequestId, iterationId)).body;
      r.iterationId == iterationId
      && (body.None? ==> r.changes == [])
      && (body.Some? ==> (|r.changes| == |body.value|
          && forall k :: 0 <= k < |body.value| ==> r.changes[k] == MapChange(body.value[k])))
  {
    var body := fetch(ChangesUrl(organization, project, repositoryId, pullRequestId, iterationId)).body;
    if body.Some? {
      MapChangesOrder(body.value, []);
    }
  }

  // ---------------------------------------------------------------------------------------------
  // File changes of the latest iteration
  // ---------------------------------------------------------------------------------------------

  const FileChangesPrefix := "Failed to get PR file changes: "

  /**
   * `getPRFileChanges`: the latest iteration's id, then that iteration's changes. Each step asks
   * for its own token, hence two `Auth` outcomes.
   */
  function FileChanges(organization: string, project: string, repositoryId: string, pullRequestId: int,
                       latestAuth: Auth, fetchIterations: string -> Reply<Option<seq<Iteration>>>,
                       changesAuth: Auth, fetchChanges: string -> Reply<Option<seq<ChangeEntry>>>)
    : (r: Result<PRIterationResult, string>)
  {
    var latest := LatestIterationId(organization, project, repositoryId, pullRequestId, latestAuth, fetchIterations);
    if latest.Failure? then Failure(FileChangesPrefix + latest.error)
    else Prefixed(FileChangesPrefix,
                  IterationChanges(organization, project, repositoryId, pullRequestId, latest.value, changesAuth, fetchChanges))
  }

  /** When no latest id can be had, the changes are never asked for: the error is passed on behind the prefix. */
  lemma {:induction false} FileChangesWithoutLatest(organization: string, project: string, repositoryId: string, pullRequestId: int,
                                                     latestAuth: Auth, fetchIterations: string -> Reply<Option<seq<Iteration>>>,
                                                     changesAuth: Auth, fetchChanges: string -> Reply<Option<seq<ChangeEntry>>>)
    requires LatestIterationId(organization, project, repositoryId, pullRequestId, latestAuth, fetchIterations).Failure?
    ensures var latest := LatestIterationId(organization, project, repositoryId, pullRequestId, latestAuth, fetchIterations);
      FileChanges(organization, project, repositoryId, pullRequestId, latestAuth, fetchIterations, changesAuth, fetchChanges)
        == Failure(FileChangesPrefix + latest.error)
  {
  }

  /**
   * A successful answer reports the latest iteration's id, and its changes are the mapping of
   * what the changes URL of exactly that iteration returned.
   */
  lemma {:induction false} FileChangesOfLatest(organization: string, project: string, repositoryId: string, pullRequestId: int,
                                                latestAuth: Auth, fetchIterations: string -> Reply<Option<seq<Iteration>>>,
                                                changesAuth: Auth, fetchChanges: string -> Reply<Option<seq<ChangeEntry>>>)
    requires FileChanges(organization, project, repositoryId, pullRequestId, latestAuth, fetchIterations, changesAuth, fetchChanges).Success?
    ensures var latest := LatestIterationId(organization, project, repositoryId, pullRequestId, latestAuth, fetchIterations);
      var r := FileChanges(organization, project, repositoryId, pullRequestId, latestAuth, fetchIterations, changesAuth, fetchChanges).value;
      var body := fetchChanges(ChangesUrl(organization, project, repositoryId, pullRequestId, r.iterationId)).body;
      && latest.Success? && r.iterationId == latest.value && r.iterationId != 0
      && r.changes == (if body.Some? then MapChanges(body.value) else [])
  {
    var latest := LatestIterationId(organization, project, repositoryId, pullRequestId, latestAuth, fetchIterations);
    var reply := Request(latestAuth, fetchIterations(IterationsUrl(organization, project, repositoryId, pullRequestId)), false);
    assert reply.Success?;
    LatestIsListed(reply.value.value);
  }

  // ---------------------------------------------------------------------------------------------
  // Comment threads
  // ---------------------------------------------------------------------------------------------

  function Position(lineNumber: int): Json {
    JObj(map["line" := JNum(lineNumber), "offset" := JNum(1)])
  }

  /** The body `addPRInlineComment` posts. */
  function ThreadPayload(filePath: string, lineNumber: int, commentText: string): Json {
    JObj(map[
      "comments" := JArr([JObj(map["commentType" := JStr("text"), "content" := JStr(commentText)])]),
      "status" := JStr("active"),
      "threadContext" := JObj(map[
        "filePath" := JStr(filePath),
        "rightFileStart" := Position(lineNumber),
        "rightFileEnd" := Position(lineNumber)])])
  }

  /** An inline comment request as the service reads it back out of the posted body. */
  datatype InlineComment = InlineComment(filePath: string, lineNumber: int, commentText: string)

  /**
   * Reads a posted body: it must hold exactly one text comment, status "active", and a right-side
   * range that starts and ends at offset 1 of the same line.
   */
  function ReadThreadPayload(body: Json): Option<InlineComment> {
    var comments := Get(body, "comments");
    var context := Get(body, "threadContext");
    if Get(body, "status") != Some(JStr("active")) || context.None? then None
    else if comments.None? || !comments.value.JArr? || |comments.value.items| != 1 then None
    else
      var comment := comments.value.items[0];
      var path := Get(context.value, "filePath");
      var start := Get(context.value, "rightFileStart");
      if Get(comment, "commentType") != Some(JStr("text")) then None
      else if path.None? || !path.value.JStr? || start.None? || start != Get(context.value, "rightFileEnd") then None
      else
        var line := Get(start.value, "line");
        var content := Get(comment, "content");
        if Get(start.value, "offset") != Some(JNum(1)) || line.None? || !line.value.JNum? then None
        else if content.None? || !content.value.JStr? then None
        else Some(InlineComment(path.value.s, line.value.n, content.value.s))
  }

  /**
   * The payload carries one text comment with the given content, the active status, and the same
   * position `{line: lineNumber, offset: 1}` as start and end: reading it back returns the arguments.
   */
  lemma {:induction false} ThreadPayloadReadBack(filePath: string, lineNumber: int, commentText: string)
    ensures ReadThreadPayload(ThreadPayload(filePath, lineNumber, commentText))
         == Some(InlineComment(filePath, lineNumber, commentText))
    ensures ThreadPayload(filePath, lineNumber, commentText).members.Keys == {"comments", "status", "threadContext"}
  {
    var body := ThreadPayload(filePath, lineNumber, commentText);
    var context := body.members["threadContext"];
    assert Get(body, "status") == Some(JStr("active"));
    assert Get(context, "rightFileStart") == Get(context, "rightFileEnd") == Some(Position(lineNumber));
  }

  /** The six `PRCommentThread` properties the helpers copy out of a thread. */
  const ThreadKeys: set<string> := {"id", "publishedDate", "lastUpdatedDate", "comments", "status", "threadContext"}

  /** The projection both comment helpers apply; an `undefined` property is left out of the object. */
  function ProjectThread(thread: map<string, Json>): (r: map<string, Json>)
    ensures r.Keys <= ThreadKeys
    ensures forall k :: k in ThreadKeys && k in thread ==> k in r && r[k] == thread[k]
    ensures forall k :: k in r ==> k in thread && r[k] == thread[k]
  {
    Restrict(thread, ThreadKeys)
  }

  /** Projecting a projected thread changes nothing. */
  lemma {:induction false} ProjectThreadIdempotent(thread: map<string, Json>)
    ensures ProjectThread(ProjectThread(thread)) == ProjectThread(thread)
  {
    RestrictIdempotent(thread, ThreadKeys);
  }

  const CommentPrefix := "Failed to add PR inline comment: "
  const ThreadsPrefix := "Failed to get PR comment threads: "

  /** `addPRInlineComment`; `post` answers a request given its URL and body. */
  function AddInlineComment(organization: string, project: string, repositoryId: string, pullRequestId: int,
                            filePath: string, lineNumber: int, commentText: string,
                            auth: Auth, post: (string, Json) -> Reply<map<string, Json>>)
    : (r: Result<map<string, Json>, string>)
  {
    var reply := post(ThreadsUrl(organization, project, repositoryId, pullRequestId),
                      ThreadPayload(filePath, lineNumber, commentText));
    Prefixed(CommentPrefix, match Request(auth, reply, true)
                            case Failure(e) => Failure(e)
                            case Success(created) => Success(ProjectThread(created)))
  }

  /** An accepted post returns the created thread cut down to its six properties. */
  lemma {:induction false} AddInlineCommentCreated(organization: string, project: string, repositoryId: string, pullRequestId: int,
                                                    filePath: string, lineNumber: int, commentText: string,
                                                    post: (string, Json) -> Reply<map<string, Json>>)
    requires Ok(post(ThreadsUrl(organization, project, repositoryId, pullRequestId),
                     ThreadPayload(filePath, lineNumber, commentText)))
    ensures var reply := post(ThreadsUrl(organization, project, repositoryId, pullRequestId),
                              ThreadPayload(filePath, lineNumber, commentText));
      var r := AddInlineComment(organization, project, repositoryId, pullRequestId, filePath, lineNumber, commentText, Token, post);
      r.Success? && r.value.Keys == reply.body.Keys * ThreadKeys
      && forall k :: k in r.value ==> r.value[k] == reply.body[k]
  {
  }

  /** A refused post reports the status line and the response text, after the helper's prefix. */
  lemma {:induction false} AddInlineCommentRefused(organization: string, project: string, repositoryId: string, pullRequestId: int,
                                                    filePath: string, lineNumber: int, commentText: string,
                                                    post: (string, Json) -> Reply<map<string, Json>>)
    requires var reply := post(ThreadsUrl(organization, project, repositoryId, pullRequestId),
                               ThreadPayload(filePath, lineNumber, commentText));
      reply.Responded? && !Ok(reply)
    ensures var reply := post(ThreadsUrl(organization, project, repositoryId, pullRequestId),
                              ThreadPayload(filePath, lineNumber, commentText));
      AddInlineComment(organization, project, repositoryId, pullRequestId, filePath, lineNumber, commentText, Token, post)
        == Failure(CommentPrefix + (HttpError(reply.status, reply.statusText) + " - " + reply.text))
  {
  }

  /** `data.value || []` mapped through the projection; `value` is `None` when falsy. */
  function ThreadsOf(value: Option<seq<map<string, Json>>>): (r: seq<map<string, Json>>)
    ensures value.None? ==> r == []
    ensures value.Some? ==> |r| == |value.value|
    ensures value.Some? ==> forall k :: 0 <= k < |r| ==> r[k] == ProjectThread(value.value[k])
  {
    if value.None? then [] else seq(|value.value|, k requires 0 <= k < |value.value| => ProjectThread(value.value[k]))
  }

  /** `getPRCommentThreads`. */
  function CommentThreads(organization: string, project: string, repositoryId: string, pullRequestId: int,
                          auth: Auth, fetch: string -> Reply<Option<seq<map<string, Json>>>>)
    : (r: Result<seq<map<string, Json>>, string>)
  {
    var reply := Request(auth, fetch(ThreadsUrl(organization, project, repositoryId, pullRequestId)), false);
    Prefixed(ThreadsPrefix, if reply.Failure? then Failure(reply.error) else Success(ThreadsOf(reply.value)))
  }

  /** A response whose `value` is falsy lists no threads. */
  lemma {:induction false} NoThreadValue(organization: string, project: string, repositoryId: string, pullRequestId: int,
                                          fetch: string -> Reply<Option<seq<map<string, Json>>>>)
    requires var reply := fetch(ThreadsUrl(organization, project, repositoryId, pullRequestId));
      Ok(reply) && reply.body.None?
    ensures CommentThreads(organization, project, repositoryId, pullRequestId, Token, fetch) == Success([])
  {
  }

  /** Listed threads carry only the six properties, and each listed thread is already in projected form. */
  lemma {:induction false} CommentThreadsProjected(organization: string, project: string, repositoryId: string, pullRequestId: int,
                                                    auth: Auth, fetch: string -> Reply<Option<seq<map<string, Json>>>>)
    requires CommentThreads(organization, project, repositoryId, pullRequestId, auth, fetch).Success?
    ensures var threads := CommentThreads(organization, project, repositoryId, pullRequestId, auth, fetch).value;
      forall k :: 0 <= k < |threads| ==> threads[k].Keys <= ThreadKeys && ProjectThread(threads[k]) == threads[k]
  {
    var threads := CommentThreads(organization, project, repositoryId, pullRequestId, auth, fetch).value;
    var body := fetch(ThreadsUrl(organization, project, repositoryId, pullRequestId)).body;
    forall k | 0 <= k < |threads|
      ensures threads[k].Keys <= ThreadKeys && ProjectThread(threads[k]) == threads[k]
    {
      ProjectThreadIdempotent(body.value[k]);
    }
  }
}
