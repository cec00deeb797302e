/**
 * `BaseMCP`: a server handle fixed at construction, and `register()`, which runs the tools hook and
 * then the prompts hook. A subclass supplies the hooks; here each hook registers the names the
 * subclass gives, so a subclass is a `BaseMcp` built with its own tool and prompt names.
 */
module BaseMcp {

  /** One entry of the server's registry. */
  datatype Registration = ToolEntry(name: string) | PromptEntry(name: string)

  /** The MCP server: registrations are appended in call order. */
  class Server {
    var log: seq<Registration>

    constructor()
      ensures log == []
    {
      log := [];
    }

    method RegisterTool(name: string)
      modifies this
      ensures log == old(log) + [ToolEntry(name)]
    {
      log := log + [ToolEntry(name)];
    }

    method RegisterPrompt(name: string)
      modifies this
      ensures log == old(log) + [PromptEntry(name)]
    {
      log := log + [PromptEntry(name)];
    }
  }

  /** The registry entries for a list of tool names, in order. */
  function ToolEntries(names: seq<string>): (r: seq<Registration>)
    ensures |r| == |names|
  {
    seq(|names|, k requires 0 <= k < |names| => ToolEntry(names[k]))
  }

  /** The registry entries for a list of prompt names, in order. */
  function PromptEntries(names: seq<string>): (r: seq<Registration>)
    ensures |r| == |names|
  {
    seq(|names|, k requires 0 <= k < |names| => PromptEntry(names[k]))
  }

  /** The two hooks, as they show in the trace `register()` leaves. */
  datatype Hook = ToolsHook | PromptsHook

  class Mcp {
    /** Assigned by the constructor only. */
    const server: Server
    const toolNames: seq<string>
    const promptNames: seq<string>
    /** The hooks run so far. */
    var trace: seq<Hook>

    constructor(server: Server, toolNames: seq<string>, promptNames: seq<string>)
      ensures this.server == server && this.toolNames == toolNames && this.promptNames == promptNames
      ensures trace == []
    {
      this.server := server;
      this.toolNames := toolNames;
      this.promptNames := promptNames;
      trace := [];
    }

    /** `registerTools`: one `registerTool` call per tool, in order. */
    method RegisterTools()
      modifies this, server
      ensures trace == old(trace) + [ToolsHook]
      ensures server.log == old(server.log) + ToolEntries(toolNames)
    {
      var i := 0;
      while i < |toolNames|
        invariant 0 <= i <= |toolNames|
        invariant trace == old(trace)
        invariant server.log == old(server.log) + ToolEntries(toolNames[..i])
      {
        server.RegisterTool(toolNames[i]);
        assert ToolEntries(toolNames[..i + 1]) == ToolEntries(toolNames[..i]) + [ToolEntry(toolNames[i])];
        i := i + 1;
      }
      assert toolNames[..i] == toolNames;
      trace := trace + [ToolsHook];
    }

    /** `registerPrompts`: one `registerPrompt` call per prompt, in order. */
    method RegisterPrompts()
      modifies this, server
      ensures trace == old(trace) + [PromptsHook]
      ensures server.log == old(server.log) + PromptEntries(promptNames)
    {
      var i := 0;
      while i < |promptNames|
        invariant 0 <= i <= |promptNames|
        invariant trace == old(trace)
        invariant server.log == old(server.log) + PromptEntries(promptNames[..i])
      {
        server.RegisterPrompt(promptNames[i]);
        assert PromptEntries(promptNames[..i + 1]) == PromptEntries(promptNames[..i]) + [PromptEntry(promptNames[i])];
        i := i + 1;
      }
      assert promptNames[..i] == promptNames;
      trace := trace + [PromptsHook];
    }

    /** `register()`: the tools hook, then the prompts hook, each once, and nothing else. */
    method Register()
      modifies this, server
      ensures trace == old(trace) + [ToolsHook, PromptsHook]
      ensures server.log == old(server.log) + ToolEntries(toolNames) + PromptEntries(promptNames)
    {
      RegisterTools();
      RegisterPrompts();
    }
  }

  /** In what one `register()` appends, every tool comes before every prompt. */
  lemma {:induction false} ToolsBeforePrompts(toolNames: seq<string>, promptNames: seq<string>)
    ensures var added := ToolEntries(toolNames) + PromptEntries(promptNames);
      forall i, j :: 0 <= i < j < |added| && added[j].ToolEntry? ==> added[i].ToolEntry?
    ensures var added := ToolEntries(toolNames) + PromptEntries(promptNames);
      forall k :: 0 <= k < |added| ==>
        (k < |toolNames| ==> added[k] == ToolEntry(toolNames[k]))
        && (k >= |toolNames| ==> added[k] == PromptEntry(promptNames[k - |toolNames|]))
  {
    var t, p := ToolEntries(toolNames), PromptEntries(promptNames);
    var added := t + p;
    forall k | 0 <= k < |added|
      ensures (k < |toolNames| ==> added[k] == ToolEntry(toolNames[k]))
        && (k >= |toolNames| ==> added[k] == PromptEntry(promptNames[k - |toolNames|]))
      ensures added[k].ToolEntry? <==> k < |toolNames|
    {
      if k < |t| {
        assert added[k] == t[k];
      } else {
        assert added[k] == p[k - |t|];
      }
    }
  }
}
