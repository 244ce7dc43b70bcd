/**
 * `build_specs`: the ordered list of tool specs offered to the model and
 * the handlers registered by tool name, pushed section by section into a
 * registry builder according to the tools configuration, followed by the
 * MCP tools in name order and the dynamic tools in the order given.
 */
module ToolRegistry {
  import opened Wrappers
  import opened Json
  import opened ToolSpec
  import Order

  /** The kinds of tool spec, reduced to what identifies them. */
  datatype ToolSpecKind =
    | FunctionTool(name: string)
    | FreeformTool(name: string)
    | LocalShellTool
    | WebSearchTool(externalWebAccess: bool)

  /** The name a spec is called by. */
  function ToolName(spec: ToolSpecKind): string {
    match spec
    case FunctionTool(name) => name
    case FreeformTool(name) => name
    case LocalShellTool => "local_shell"
    case WebSearchTool(_) => "web_search"
  }

  datatype ConfiguredToolSpec = ConfiguredToolSpec(spec: ToolSpecKind, supportsParallelToolCalls: bool)

  datatype Handler =
    | ShellHandler | UnifiedExecHandler | PlanHandler | ApplyPatchHandler | DynamicToolHandler
    | ViewImageHandler | McpHandler | McpResourceHandler | ShellCommandHandler | BatchesReadFileHandler
    | RequestUserInputHandler | SearchToolBm25Handler | CollabBatchHandler | ClaudeToolAdapterHandler
    | ClaudeWriteHandler | ClaudeEditHandler | ClaudeGlobHandler | ClaudeNotebookEditHandler
    | CollabHandler | GrepFilesHandler | ReadFileHandler | ListDirHandler | TestSyncHandler

  /** A registration: the tool name a handler answers to. */
  datatype Registration = Registration(name: string, handler: Handler)

  /** What a builder holds: the specs in push order and the registrations in order. */
  datatype Registry = Registry(specs: seq<ConfiguredToolSpec>, registrations: seq<Registration>) {
    function Then(next: Registry): Registry {
      Registry(specs + next.specs, registrations + next.registrations)
    }

    function SpecNames(): seq<string> {
      seq(|specs|, i requires 0 <= i < |specs| => ToolName(specs[i].spec))
    }

    function SpecKinds(): seq<ToolSpecKind> {
      seq(|specs|, i requires 0 <= i < |specs| => specs[i].spec)
    }

    function HandlerNames(): seq<string> {
      seq(|registrations|, i requires 0 <= i < |registrations| => registrations[i].name)
    }
  }

  const Empty: Registry := Registry([], [])

  function Serial(spec: ToolSpecKind): ConfiguredToolSpec { ConfiguredToolSpec(spec, false) }
  function Parallel(spec: ToolSpecKind): ConfiguredToolSpec { ConfiguredToolSpec(spec, true) }

  // ---------------------------------------------------------------------------
  // The sections, as values

  /** The shell tool each shell type offers (with its own handlers for unified exec). */
  function ShellToolFor(shellType: ConfigShellToolType): Registry {
    match shellType
    case Default => Registry([Parallel(FunctionTool("shell"))], [])
    case Local => Registry([Parallel(LocalShellTool)], [])
    case UnifiedExec =>
      Registry([Parallel(FunctionTool("exec_command")), Serial(FunctionTool("write_stdin"))],
               [Registration("exec_command", UnifiedExecHandler), Registration("write_stdin", UnifiedExecHandler)])
    case Disabled => Empty
    case ShellCommand => Registry([Parallel(FunctionTool("shell_command"))], [])
  }

  /** The selected shell tool, and the shell aliases whenever there is a shell at all. */
  function ShellSection(config: ToolsConfig): Registry {
    if config.shellType == ConfigShellToolType.Disabled then Empty
    else ShellToolFor(config.shellType).Then(Registry([], ShellAliases))
  }

  const ShellAliases: seq<Registration> := [
    Registration("shell", ShellHandler), Registration("container.exec", ShellHandler),
    Registration("local_shell", ShellHandler), Registration("shell_command", ShellCommandHandler)]

  /** The MCP resource tools and the plan tool, always present. */
  const ResourceAndPlanSection: Registry := Registry(
    [Parallel(FunctionTool("list_mcp_resources")), Parallel(FunctionTool("list_mcp_resource_templates")),
     Parallel(FunctionTool("read_mcp_resource")), Serial(FunctionTool("update_plan"))],
    [Registration("list_mcp_resources", McpResourceHandler),
     Registration("list_mcp_resource_templates", McpResourceHandler),
     Registration("read_mcp_resource", McpResourceHandler), Registration("update_plan", PlanHandler)])

  /** `request_user_input` with collaboration modes, then the search tool and its alias when enabled. */
  function OptionalCoreSection(config: ToolsConfig): Registry {
    var ask :=
      if config.collaborationModesTools then
        Registry([Serial(FunctionTool("request_user_input"))], [Registration("request_user_input", RequestUserInputHandler)])
      else Empty;
    var search :=
      if config.searchTool then
        Registry([Parallel(FunctionTool("search_tool_bm25")), Parallel(FunctionTool("ToolSearch"))],
                 [Registration("search_tool_bm25", SearchToolBm25Handler), Registration("ToolSearch", ClaudeToolAdapterHandler)])
      else Empty;
    ask.Then(search)
  }

  /** `apply_patch` in the configured form, then the batch file reader. */
  function PatchAndReadSection(config: ToolsConfig): Registry {
    var patch :=
      match config.applyPatchToolType
      case Some(Freeform) => Registry([Serial(FreeformTool("apply_patch"))], [Registration("apply_patch", ApplyPatchHandler)])
      case Some(Function) => Registry([Serial(FunctionTool("apply_patch"))], [Registration("apply_patch", ApplyPatchHandler)])
      case None => Empty;
    patch.Then(Registry([Parallel(FunctionTool("batches_read_file"))], [Registration("batches_read_file", BatchesReadFileHandler)]))
  }

  /** One experimental tool, present when the model lists it. */
  function ExperimentalTool(config: ToolsConfig, name: string, handler: Handler): Registry {
    if name in config.experimentalSupportedTools then
      Registry([Parallel(FunctionTool(name))], [Registration(name, handler)])
    else Empty
  }

  function ExperimentalSection(config: ToolsConfig): Registry {
    ExperimentalTool(config, "grep_files", GrepFilesHandler)
      .Then(ExperimentalTool(config, "read_file", ReadFileHandler))
      .Then(ExperimentalTool(config, "list_dir", ListDirHandler))
      .Then(ExperimentalTool(config, "test_sync_tool", TestSyncHandler))
  }

  /** The hosted web search in the configured mode, then the image viewer. */
  function WebAndImageSection(config: ToolsConfig): Registry {
    var web :=
      match config.webSearchMode
      case Some(Cached) => Registry([Serial(WebSearchTool(false))], [])
      case Some(Live) => Registry([Serial(WebSearchTool(true))], [])
      case _ => Empty;
    web.Then(Registry([Parallel(FunctionTool("view_image"))], [Registration("view_image", ViewImageHandler)]))
  }

  /** The collaboration tools and the Claude-style aliases; `AskUserQuestion` also needs collaboration modes. */
  function CollabSection(config: ToolsConfig): Registry {
    if !config.collabTools then Empty
    else
      var ask := if config.collaborationModesTools then [Serial(FunctionTool("AskUserQuestion"))] else [];
      var askHandler :=
        if config.collaborationModesTools then [Registration("AskUserQuestion", ClaudeToolAdapterHandler)] else [];
      Registry(CollabSpecsBeforeAsk + ask + CollabSpecsAfterAsk,
               CollabHandlersBeforeAsk + askHandler + CollabHandlersAfterAsk)
  }

  const CollabSpecsBeforeAsk: seq<ConfiguredToolSpec> := CollabAgentSpecs + ClaudeTaskSpecs

  const CollabAgentSpecs: seq<ConfiguredToolSpec> := [
    Serial(FunctionTool("spawn_agent")), Serial(FunctionTool("send_input")), Serial(FunctionTool("task_batch")),
    Serial(FunctionTool("task_send_batch")), Serial(FunctionTool("resume_agent")), Parallel(FunctionTool("wait")),
    Parallel(FunctionTool("wait_agents")), Parallel(FunctionTool("list_agents")), Serial(FunctionTool("rename_agent")),
    Serial(FunctionTool("close_agent")), Serial(FunctionTool("close_agents"))]

  const ClaudeTaskSpecs: seq<ConfiguredToolSpec> := [
    Serial(FunctionTool("Task")), Parallel(FunctionTool("TaskOutput")), Serial(FunctionTool("TaskStop")),
    Serial(FunctionTool("Skill"))]

  const CollabSpecsAfterAsk: seq<ConfiguredToolSpec> := [
    Serial(FunctionTool("Bash")), Parallel(FunctionTool("Read")), Parallel(FunctionTool("Grep")),
    Serial(FunctionTool("TodoWrite")), Serial(FunctionTool("EnterPlanMode")), Serial(FunctionTool("ExitPlanMode")),
    Serial(FunctionTool("Write")), Serial(FunctionTool("Edit")), Parallel(FunctionTool("Glob")),
    Serial(FunctionTool("NotebookEdit"))]

  const CollabHandlersBeforeAsk: seq<Registration> := CollabAgentHandlers + ClaudeTaskHandlers

  const CollabAgentHandlers: seq<Registration> := [
    Registration("spawn_agent", CollabHandler), Registration("send_input", CollabHandler),
    Registration("task_batch", CollabBatchHandler), Registration("task_send_batch", CollabBatchHandler),
    Registration("resume_agent", CollabHandler), Registration("wait", CollabHandler),
    Registration("wait_agents", CollabHandler), Registration("list_agents", CollabHandler),
    Registration("rename_agent", CollabHandler), Registration("close_agent", CollabHandler),
    Registration("close_agents", CollabHandler)]

  const ClaudeTaskHandlers: seq<Registration> := [
    Registration("Task", ClaudeToolAdapterHandler), Registration("TaskOutput", ClaudeToolAdapterHandler),
    Registration("TaskStop", ClaudeToolAdapterHandler), Registration("Skill", ClaudeToolAdapterHandler)]

  const CollabHandlersAfterAsk: seq<Registration> := [
    Registration("Bash", ClaudeToolAdapterHandler), Registration("Read", ClaudeToolAdapterHandler),
    Registration("Grep", ClaudeToolAdapterHandler), Registration("TodoWrite", ClaudeToolAdapterHandler),
    Registration("EnterPlanMode", ClaudeToolAdapterHandler), Registration("ExitPlanMode", ClaudeToolAdapterHandler),
    Registration("Write", ClaudeWriteHandler), Registration("Edit", ClaudeEditHandler),
    Registration("Glob", ClaudeGlobHandler), Registration("NotebookEdit", ClaudeNotebookEditHandler)]

  /** Every built-in section, in the order `build_specs` pushes them. */
  function BuiltinSections(config: ToolsConfig): Registry {
    CoreSections(config).Then(CollabSection(config))
  }

  /** The built-in sections before the collaboration tools. */
  function CoreSections(config: ToolsConfig): Registry {
    ShellSection(config)
      .Then(ResourceAndPlanSection)
      .Then(OptionalCoreSection(config))
      .Then(PatchAndReadSection(config))
      .Then(ExperimentalSection(config))
      .Then(WebAndImageSection(config))
  }

  // ---------------------------------------------------------------------------
  // MCP and dynamic tools

  /** An MCP server's tool: its description and its input schema object. */
  datatype McpTool = McpTool(description: Option<string>, inputSchema: map<string, Json>)

  /** A tool supplied by the client at run time. */
  datatype DynamicToolSpec = DynamicToolSpec(name: string, description: string, inputSchema: Json)

  /**
   * The schema an MCP tool is offered with: `properties` filled with `{}`
   * when missing or null, then sanitised.
   */
  function McpInputSchema(tool: McpTool): (r: Json)
    ensures r.JObj? && "properties" in r.fields
  {
    var m := tool.inputSchema;
    var withProperties :=
      if "properties" !in m || m["properties"] == JNull then m["properties" := JObj(map[])] else m;
    Sanitize(JObj(withProperties))
  }

  /**
   * One MCP entry: its spec and handler when its schema converts, nothing
   * otherwise. Whether the sanitised schema deserialises into the
   * tool-schema subset is the `parses` parameter.
   */
  function McpEntryOf(name: string, tools: map<string, McpTool>, parses: Json -> bool): Registry
    requires name in tools
  {
    if parses(McpInputSchema(tools[name])) then Registry([Serial(FunctionTool(name))], [Registration(name, McpHandler)])
    else Empty
  }

  /** The MCP tools whose schemas convert, in the order of `names`. */
  function McpEntries(names: seq<string>, tools: map<string, McpTool>, parses: Json -> bool): Registry
    requires forall n :: n in names ==> n in tools
  {
    if names == [] then Empty
    else McpEntryOf(names[0], tools, parses).Then(McpEntries(names[1..], tools, parses))
  }

  /**
   * The MCP section: the map's entries sorted by fully qualified name.
   * `iteration` is the order the map yields its keys in, which is
   * unspecified.
   */
  function McpSection(mcpTools: Option<map<string, McpTool>>, iteration: seq<string>, parses: Json -> bool): Registry
    requires mcpTools.Some? ==> IsIterationOrder(iteration, mcpTools.value)
  {
    match mcpTools
    case None => Empty
    case Some(tools) =>
      assert forall n :: n in Order.SortStrings(iteration) ==> n in tools by {
        forall n | n in Order.SortStrings(iteration)
          ensures n in tools
        {
          Order.SortKeepsMembers(iteration, n);
        }
      }
      McpEntries(Order.SortStrings(iteration), tools, parses)
  }

  /** `iteration` lists each key of `tools` exactly once. */
  ghost predicate IsIterationOrder(iteration: seq<string>, tools: map<string, McpTool>) {
    Order.Distinct(iteration) && forall n :: n in iteration <==> n in tools
  }

  /** One dynamic tool: its spec and handler when its schema converts, nothing otherwise. */
  function DynamicEntryOf(tool: DynamicToolSpec, parses: Json -> bool): Registry {
    if parses(Sanitize(tool.inputSchema)) then
      Registry([Serial(FunctionTool(tool.name))], [Registration(tool.name, DynamicToolHandler)])
    else Empty
  }

  /** The dynamic tools whose schemas convert, in the order given. */
  function DynamicSection(tools: seq<DynamicToolSpec>, parses: Json -> bool): Registry {
    if tools == [] then Empty
    else DynamicEntryOf(tools[0], parses).Then(DynamicSection(tools[1..], parses))
  }

  /** Everything `build_specs` registers. */
  function Catalogue(config: ToolsConfig, mcpTools: Option<map<string, McpTool>>, iteration: seq<string>,
                     dynamicTools: seq<DynamicToolSpec>, parses: Json -> bool): Registry
    requires mcpTools.Some? ==> IsIterationOrder(iteration, mcpTools.value)
  {
    BuiltinSections(config).Then(McpSection(mcpTools, iteration, parses)).Then(DynamicSection(dynamicTools, parses))
  }

  // ---------------------------------------------------------------------------
  // The builder

  /** The registry builder: specs and handler registrations appended in call order. */
  class ToolRegistryBuilder {
    var specs: seq<ConfiguredToolSpec>
    var registrations: seq<Registration>

    function Contents(): Registry
      reads this
    {
      Registry(specs, registrations)
    }

    constructor()
      ensures Contents() == Empty
    {
      specs := [];
      registrations := [];
    }

    method PushSpec(spec: ToolSpecKind)
      modifies this
      ensures specs == old(specs) + [Serial(spec)] && registrations == old(registrations)
    {
      specs := specs + [Serial(spec)];
    }

    method PushSpecWithParallelSupport(spec: ToolSpecKind, supportsParallelToolCalls: bool)
      modifies this
      ensures specs == old(specs) + [ConfiguredToolSpec(spec, supportsParallelToolCalls)]
      ensures registrations == old(registrations)
    {
      specs := specs + [ConfiguredToolSpec(spec, supportsParallelToolCalls)];
    }

    method RegisterHandler(name: string, handler: Handler)
      modifies this
      ensures specs == old(specs) && registrations == old(registrations) + [Registration(name, handler)]
    {
      registrations := registrations + [Registration(name, handler)];
    }
  }

  lemma ThenAssociative(a: Registry, b: Registry, c: Registry)
    ensures a.Then(b).Then(c) == a.Then(b.Then(c))
  {
  }

  lemma ThenEmpty(a: Registry)
    ensures a.Then(Empty) == a && Empty.Then(a) == a
  {
  }

  method AddShellTool(builder: ToolRegistryBuilder, shellType: ConfigShellToolType)
    modifies builder
    ensures builder.Contents() == old(builder.Contents()).Then(ShellToolFor(shellType))
  {
    match shellType {
      case Default =>
        builder.PushSpecWithParallelSupport(FunctionTool("shell"), true);
      case Local =>
        builder.PushSpecWithParallelSupport(LocalShellTool, true);
      case UnifiedExec =>
        builder.PushSpecWithParallelSupport(FunctionTool("exec_command"), true);
        builder.PushSpec(FunctionTool("write_stdin"));
        builder.RegisterHandler("exec_command", UnifiedExecHandler);
        builder.RegisterHandler("write_stdin", UnifiedExecHandler);
      case Disabled =>
      case ShellCommand =>
        builder.PushSpecWithParallelSupport(FunctionTool("shell_command"), true);
    }
  }

  method RegisterShellAliases(builder: ToolRegistryBuilder)
    modifies builder
    ensures builder.specs == old(builder.specs)
    ensures builder.registrations == old(builder.registrations) + ShellAliases
  {
    builder.RegisterHandler("shell", ShellHandler);
    builder.RegisterHandler("container.exec", ShellHandler);
    builder.RegisterHandler("local_shell", ShellHandler);
    builder.RegisterHandler("shell_command", ShellCommandHandler);
  }

  method AddShellTools(builder: ToolRegistryBuilder, config: ToolsConfig)
    modifies builder
    ensures builder.Contents() == old(builder.Contents()).Then(ShellSection(config))
  {
    AddShellTool(builder, config.shellType);
    if config.shellType != ConfigShellToolType.Disabled {
      ghost var chosen := builder.Contents();
      RegisterShellAliases(builder);
      assert builder.Contents() == chosen.Then(Registry([], ShellAliases));
      ThenAssociative(old(builder.Contents()), ShellToolFor(config.shellType), Registry([], ShellAliases));
    } else {
      ThenEmpty(old(builder.Contents()));
    }
  }

  method AddResourceAndPlanTools(builder: ToolRegistryBuilder)
    modifies builder
    ensures builder.specs == old(builder.specs) + ResourceAndPlanSection.specs
    ensures builder.registrations == old(builder.registrations) + ResourceAndPlanSection.registrations
  {
    builder.PushSpecWithParallelSupport(FunctionTool("list_mcp_resources"), true);
    builder.PushSpecWithParallelSupport(FunctionTool("list_mcp_resource_templates"), true);
    builder.PushSpecWithParallelSupport(FunctionTool("read_mcp_resource"), true);
    builder.RegisterHandler("list_mcp_resources", McpResourceHandler);
    builder.RegisterHandler("list_mcp_resource_templates", McpResourceHandler);
    builder.RegisterHandler("read_mcp_resource", McpResourceHandler);
    builder.PushSpec(FunctionTool("update_plan"));
    builder.RegisterHandler("update_plan", PlanHandler);
  }

  method AddOptionalCoreTools(builder: ToolRegistryBuilder, config: ToolsConfig)
    modifies builder
    ensures builder.Contents() == old(builder.Contents()).Then(OptionalCoreSection(config))
  {
    if config.collaborationModesTools {
      builder.PushSpec(FunctionTool("request_user_input"));
      builder.RegisterHandler("request_user_input", RequestUserInputHandler);
    }
    if config.searchTool {
      builder.PushSpecWithParallelSupport(FunctionTool("search_tool_bm25"), true);
      builder.PushSpecWithParallelSupport(FunctionTool("ToolSearch"), true);
      builder.RegisterHandler("search_tool_bm25", SearchToolBm25Handler);
      builder.RegisterHandler("ToolSearch", ClaudeToolAdapterHandler);
    }
  }

  method AddPatchAndReadTools(builder: ToolRegistryBuilder, config: ToolsConfig)
    modifies builder
    ensures builder.Contents() == old(builder.Contents()).Then(PatchAndReadSection(config))
  {
    match config.applyPatchToolType {
      case Some(Freeform) =>
        builder.PushSpec(FreeformTool("apply_patch"));
        builder.RegisterHandler("apply_patch", ApplyPatchHandler);
      case Some(Function) =>
        builder.PushSpec(FunctionTool("apply_patch"));
        builder.RegisterHandler("apply_patch", ApplyPatchHandler);
      case None =>
    }
    builder.PushSpecWithParallelSupport(FunctionTool("batches_read_file"), true);
    builder.RegisterHandler("batches_read_file", BatchesReadFileHandler);
  }

  method AddExperimentalTool(builder: ToolRegistryBuilder, config: ToolsConfig, name: string, handler: Handler)
    modifies builder
    ensures builder.Contents() == old(builder.Contents()).Then(ExperimentalTool(config, name, handler))
  {
    if name in config.experimentalSupportedTools {
      builder.PushSpecWithParallelSupport(FunctionTool(name), true);
      builder.RegisterHandler(name, handler);
    }
  }

  method AddExperimentalTools(builder: ToolRegistryBuilder, config: ToolsConfig)
    modifies builder
    ensures builder.Contents() == old(builder.Contents()).Then(ExperimentalSection(config))
  {
    ghost var start := builder.Contents();
    var grep := ExperimentalTool(config, "grep_files", GrepFilesHandler);
    var read := ExperimentalTool(config, "read_file", ReadFileHandler);
    var list := ExperimentalTool(config, "list_dir", ListDirHandler);
    var sync := ExperimentalTool(config, "test_sync_tool", TestSyncHandler);
    AddExperimentalTool(builder, config, "grep_files", GrepFilesHandler);
    AddExperimentalTool(builder, config, "read_file", ReadFileHandler);
    ThenAssociative(start, grep, read);
    AddExperimentalTool(builder, config, "list_dir", ListDirHandler);
    ThenAssociative(start, grep.Then(read), list);
    AddExperimentalTool(builder, config, "test_sync_tool", TestSyncHandler);
    ThenAssociative(start, grep.Then(read).Then(list), sync);
  }

  method AddWebAndImageTools(builder: ToolRegistryBuilder, config: ToolsConfig)
    modifies builder
    ensures builder.Contents() == old(builder.Contents()).Then(WebAndImageSection(config))
  {
    match config.webSearchMode {
      case Some(Cached) =>
        builder.PushSpec(WebSearchTool(false));
      case Some(Live) =>
        builder.PushSpec(WebSearchTool(true));
      case _ =>
    }
    builder.PushSpecWithParallelSupport(FunctionTool("view_image"), true);
    builder.RegisterHandler("view_image", ViewImageHandler);
  }

  method PushCollabSpecsBeforeAsk(builder: ToolRegistryBuilder)
    modifies builder
    ensures builder.specs == old(builder.specs) + CollabSpecsBeforeAsk
    ensures builder.registrations == old(builder.registrations)
  {
    PushCollabAgentSpecs(builder);
    ghost var agents := builder.specs;
    builder.PushSpec(FunctionTool("Task"));
    builder.PushSpecWithParallelSupport(FunctionTool("TaskOutput"), true);
    builder.PushSpec(FunctionTool("TaskStop"));
    builder.PushSpec(FunctionTool("Skill"));
    assert builder.specs == agents + ClaudeTaskSpecs;
  }

  method PushCollabAgentSpecs(builder: ToolRegistryBuilder)
    modifies builder
    ensures builder.specs == old(builder.specs) + CollabAgentSpecs
    ensures builder.registrations == old(builder.registrations)
  {
    builder.PushSpec(FunctionTool("spawn_agent"));
    builder.PushSpec(FunctionTool("send_input"));
    builder.PushSpec(FunctionTool("task_batch"));
    builder.PushSpec(FunctionTool("task_send_batch"));
    builder.PushSpec(FunctionTool("resume_agent"));
    builder.PushSpecWithParallelSupport(FunctionTool("wait"), true);
    builder.PushSpecWithParallelSupport(FunctionTool("wait_agents"), true);
    builder.PushSpecWithParallelSupport(FunctionTool("list_agents"), true);
    builder.PushSpec(FunctionTool("rename_agent"));
    builder.PushSpec(FunctionTool("close_agent"));
    builder.PushSpec(FunctionTool("close_agents"));
  }

  method PushCollabSpecsAfterAsk(builder: ToolRegistryBuilder)
    modifies builder
    ensures builder.specs == old(builder.specs) + CollabSpecsAfterAsk
    ensures builder.registrations == old(builder.registrations)
  {
    builder.PushSpec(FunctionTool("Bash"));
    builder.PushSpecWithParallelSupport(FunctionTool("Read"), true);
    builder.PushSpecWithParallelSupport(FunctionTool("Grep"), true);
    builder.PushSpec(FunctionTool("TodoWrite"));
    builder.PushSpec(FunctionTool("EnterPlanMode"));
    builder.PushSpec(FunctionTool("ExitPlanMode"));
    builder.PushSpec(FunctionTool("Write"));
    builder.PushSpec(FunctionTool("Edit"));
    builder.PushSpecWithParallelSupport(FunctionTool("Glob"), true);
    builder.PushSpec(FunctionTool("NotebookEdit"));
  }

  method RegisterCollabHandlersBeforeAsk(builder: ToolRegistryBuilder)
    modifies builder
    ensures builder.specs == old(builder.specs)
    ensures builder.registrations == old(builder.registrations) + CollabHandlersBeforeAsk
  {
    RegisterCollabAgentHandlers(builder);
    ghost var agents := builder.registrations;
    builder.RegisterHandler("Task", ClaudeToolAdapterHandler);
    builder.RegisterHandler("TaskOutput", ClaudeToolAdapterHandler);
    builder.RegisterHandler("TaskStop", ClaudeToolAdapterHandler);
    builder.RegisterHandler("Skill", ClaudeToolAdapterHandler);
    assert builder.registrations == agents + ClaudeTaskHandlers;
  }

  method RegisterCollabAgentHandlers(builder: ToolRegistryBuilder)
    modifies builder
    ensures builder.specs == old(builder.specs)
    ensures builder.registrations == old(builder.registrations) + CollabAgentHandlers
  {
    builder.RegisterHandler("spawn_agent", CollabHandler);
    builder.RegisterHandler("send_input", CollabHandler);
    builder.RegisterHandler("task_batch", CollabBatchHandler);
    builder.RegisterHandler("task_send_batch", CollabBatchHandler);
    builder.RegisterHandler("resume_agent", CollabHandler);
    builder.RegisterHandler("wait", CollabHandler);
    builder.RegisterHandler("wait_agents", CollabHandler);
    builder.RegisterHandler("list_agents", CollabHandler);
    builder.RegisterHandler("rename_agent", CollabHandler);
    builder.RegisterHandler("close_agent", CollabHandler);
    builder.RegisterHandler("close_agents", CollabHandler);
  }

  method RegisterCollabHandlersAfterAsk(builder: ToolRegistryBuilder)
    modifies builder
    ensures builder.specs == old(builder.specs)
    ensures builder.registrations == old(builder.registrations) + CollabHandlersAfterAsk
  {
    builder.RegisterHandler("Bash", ClaudeToolAdapterHandler);
    builder.RegisterHandler("Read", ClaudeToolAdapterHandler);
    builder.RegisterHandler("Grep", ClaudeToolAdapterHandler);
    builder.RegisterHandler("TodoWrite", ClaudeToolAdapterHandler);
    builder.RegisterHandler("EnterPlanMode", ClaudeToolAdapterHandler);
    builder.RegisterHandler("ExitPlanMode", ClaudeToolAdapterHandler);
    builder.RegisterHandler("Write", ClaudeWriteHandler);
    builder.RegisterHandler("Edit", ClaudeEditHandler);
    builder.RegisterHandler("Glob", ClaudeGlobHandler);
    builder.RegisterHandler("NotebookEdit", ClaudeNotebookEditHandler);
  }

  method AddCollabTools(builder: ToolRegistryBuilder, config: ToolsConfig)
    modifies builder
    ensures builder.Contents() == old(builder.Contents()).Then(CollabSection(config))
  {
    if config.collabTools {
      PushCollabSpecsBeforeAsk(builder);
      if config.collaborationModesTools {
        builder.PushSpec(FunctionTool("AskUserQuestion"));
      }
      PushCollabSpecsAfterAsk(builder);
      RegisterCollabHandlersBeforeAsk(builder);
      if config.collaborationModesTools {
        builder.RegisterHandler("AskUserQuestion", ClaudeToolAdapterHandler);
      }
      RegisterCollabHandlersAfterAsk(builder);
    }
  }

  method AddMcpEntry(builder: ToolRegistryBuilder, name: string, tools: map<string, McpTool>, parses: Json -> bool)
    requires name in tools
    modifies builder
    ensures builder.Contents() == old(builder.Contents()).Then(McpEntryOf(name, tools, parses))
  {
    match McpToolToOpenAiTool(name, tools[name], parses) {
      case Ok(converted) =>
        builder.PushSpec(converted);
        builder.RegisterHandler(name, McpHandler);
      case Err(_) =>
    }
  }

  /** `mcp_tool_to_openai_tool`, reduced to whether the sanitised schema converts. */
  function McpToolToOpenAiTool(name: string, tool: McpTool, parses: Json -> bool): (r: Result<ToolSpecKind, Json>)
    ensures r.Ok? <==> parses(McpInputSchema(tool))
    ensures r.Ok? ==> r.value == FunctionTool(name)
    ensures r.Err? ==> r.error == McpInputSchema(tool)
  {
    var schema := McpInputSchema(tool);
    if parses(schema) then Ok(FunctionTool(name)) else Err(schema)
  }

  method AddMcpTools(builder: ToolRegistryBuilder, mcpTools: Option<map<string, McpTool>>, iteration: seq<string>,
                     parses: Json -> bool)
    requires mcpTools.Some? ==> IsIterationOrder(iteration, mcpTools.value)
    modifies builder
    ensures builder.Contents() == old(builder.Contents()).Then(McpSection(mcpTools, iteration, parses))
  {
    if mcpTools.Some? {
      var tools := mcpTools.value;
      var entries := Order.SortStrings(iteration);
      forall n | n in entries
        ensures n in tools
      {
        Order.SortKeepsMembers(iteration, n);
      }
      ghost var target := old(builder.Contents()).Then(McpEntries(entries, tools, parses));
      for i := 0 to |entries|
        invariant builder.Contents().Then(McpEntries(entries[i..], tools, parses)) == target
      {
        assert entries[i..][1..] == entries[i + 1..];
        ThenAssociative(builder.Contents(), McpEntryOf(entries[i], tools, parses), McpEntries(entries[i + 1..], tools, parses));
        AddMcpEntry(builder, entries[i], tools, parses);
      }
      assert entries[|entries|..] == [];
    }
  }

  method AddDynamicTool(builder: ToolRegistryBuilder, tool: DynamicToolSpec, parses: Json -> bool)
    modifies builder
    ensures builder.Contents() == old(builder.Contents()).Then(DynamicEntryOf(tool, parses))
  {
    if parses(Sanitize(tool.inputSchema)) {
      builder.PushSpec(FunctionTool(tool.name));
      builder.RegisterHandler(tool.name, DynamicToolHandler);
    }
  }

  method AddDynamicTools(builder: ToolRegistryBuilder, dynamicTools: seq<DynamicToolSpec>, parses: Json -> bool)
    modifies builder
    ensures builder.Contents() == old(builder.Contents()).Then(DynamicSection(dynamicTools, parses))
  {
    ghost var target := old(builder.Contents()).Then(DynamicSection(dynamicTools, parses));
    for i := 0 to |dynamicTools|
      invariant builder.Contents().Then(DynamicSection(dynamicTools[i..], parses)) == target
    {
      assert dynamicTools[i..][1..] == dynamicTools[i + 1..];
      ThenAssociative(builder.Contents(), DynamicEntryOf(dynamicTools[i], parses), DynamicSection(dynamicTools[i + 1..], parses));
      AddDynamicTool(builder, dynamicTools[i], parses);
    }
    assert dynamicTools[|dynamicTools|..] == [];
  }

  /** `build_specs`: every section in order into a fresh builder. */
  method BuildSpecs(config: ToolsConfig, mcpTools: Option<map<string, McpTool>>, iteration: seq<string>,
                    dynamicTools: seq<DynamicToolSpec>, parses: Json -> bool) returns (builder: ToolRegistryBuilder)
    requires mcpTools.Some? ==> IsIterationOrder(iteration, mcpTools.value)
    ensures builder.Contents() == Catalogue(config, mcpTools, iteration, dynamicTools, parses)
  {
    builder := new ToolRegistryBuilder();
    AddShellTools(builder, config);
    ThenEmpty(ShellSection(config));
    AddResourceAndPlanTools(builder);
    AddOptionalCoreTools(builder, config);
    AddPatchAndReadTools(builder, config);
    AddExperimentalTools(builder, config);
    AddWebAndImageTools(builder, config);
    AddCollabTools(builder, config);
    AddMcpTools(builder, mcpTools, iteration, parses);
    AddDynamicTools(builder, dynamicTools, parses);
  }

  // ---------------------------------------------------------------------------
  // Properties of the catalogue

  lemma SpecNamesThen(a: Registry, b: Registry)
    ensures a.Then(b).SpecNames() == a.SpecNames() + b.SpecNames()
    ensures a.Then(b).HandlerNames() == a.HandlerNames() + b.HandlerNames()
  {
  }

  /** Every spec the model can call (all but the hosted web search) has a handler under its name. */
  predicate HandlersCover(r: Registry) {
    forall s :: s in r.specs && !s.spec.WebSearchTool? ==> ToolName(s.spec) in r.HandlerNames()
  }

  /** Specs and registrations name the same tools in the same order. */
  predicate Paired(r: Registry) {
    r.SpecNames() == r.HandlerNames()
  }

  lemma PairedCovers(r: Registry)
    requires Paired(r)
    ensures HandlersCover(r)
  {
    forall s | s in r.specs && !s.spec.WebSearchTool?
      ensures ToolName(s.spec) in r.HandlerNames()
    {
      var i :| 0 <= i < |r.specs| && r.specs[i] == s;
      assert r.SpecNames()[i] == ToolName(s.spec);
    }
  }

  lemma ThenPaired(a: Registry, b: Registry)
    requires Paired(a) && Paired(b)
    ensures Paired(a.Then(b))
  {
    SpecNamesThen(a, b);
  }

  lemma ThenCovers(a: Registry, b: Registry)
    requires HandlersCover(a) && HandlersCover(b)
    ensures HandlersCover(a.Then(b))
  {
    SpecNamesThen(a, b);
    forall s | s in a.Then(b).specs && !s.spec.WebSearchTool?
      ensures ToolName(s.spec) in a.Then(b).HandlerNames()
    {
      if s in a.specs {
        assert ToolName(s.spec) in a.HandlerNames();
      } else {
        assert s in b.specs;
        assert ToolName(s.spec) in b.HandlerNames();
      }
    }
  }

  lemma {:induction false} McpEntriesPaired(names: seq<string>, tools: map<string, McpTool>, parses: Json -> bool)
    requires forall n :: n in names ==> n in tools
    ensures Paired(McpEntries(names, tools, parses))
  {
    if names != [] {
      McpEntriesPaired(names[1..], tools, parses);
      ThenPaired(McpEntryOf(names[0], tools, parses), McpEntries(names[1..], tools, parses));
    }
  }

  lemma {:induction false} DynamicSectionPaired(tools: seq<DynamicToolSpec>, parses: Json -> bool)
    ensures Paired(DynamicSection(tools, parses))
  {
    if tools != [] {
      DynamicSectionPaired(tools[1..], parses);
      ThenPaired(DynamicEntryOf(tools[0], parses), DynamicSection(tools[1..], parses));
    }
  }

  lemma CollabSectionPaired(config: ToolsConfig)
    ensures Paired(CollabSection(config))
  {
    var r := CollabSection(config);
    if config.collabTools {
      assert Paired(Registry(CollabAgentSpecs, CollabAgentHandlers));
      assert Paired(Registry(ClaudeTaskSpecs, ClaudeTaskHandlers));
      assert Paired(Registry(CollabSpecsAfterAsk, CollabHandlersAfterAsk));
      var ask := if config.collaborationModesTools then [Serial(FunctionTool("AskUserQuestion"))] else [];
      var askHandler :=
        if config.collaborationModesTools then [Registration("AskUserQuestion", ClaudeToolAdapterHandler)] else [];
      ThenPaired(Registry(CollabAgentSpecs, CollabAgentHandlers), Registry(ClaudeTaskSpecs, ClaudeTaskHandlers));
      ThenPaired(Registry(CollabSpecsBeforeAsk, CollabHandlersBeforeAsk), Registry(ask, askHandler));
      ThenPaired(Registry(CollabSpecsBeforeAsk + ask, CollabHandlersBeforeAsk + askHandler),
                 Registry(CollabSpecsAfterAsk, CollabHandlersAfterAsk));
    }
  }

  lemma MiddleSectionsPaired(config: ToolsConfig)
    ensures Paired(ResourceAndPlanSection) && Paired(OptionalCoreSection(config))
    ensures Paired(PatchAndReadSection(config)) && Paired(ExperimentalSection(config))
  {
    ThenPaired(ExperimentalTool(config, "grep_files", GrepFilesHandler), ExperimentalTool(config, "read_file", ReadFileHandler));
    ThenPaired(ExperimentalTool(config, "grep_files", GrepFilesHandler).Then(ExperimentalTool(config, "read_file", ReadFileHandler)),
               ExperimentalTool(config, "list_dir", ListDirHandler));
    ThenPaired(ExperimentalTool(config, "grep_files", GrepFilesHandler).Then(ExperimentalTool(config, "read_file", ReadFileHandler))
                 .Then(ExperimentalTool(config, "list_dir", ListDirHandler)),
               ExperimentalTool(config, "test_sync_tool", TestSyncHandler));
  }

  lemma ShellSectionCovered(config: ToolsConfig)
    ensures HandlersCover(ShellSection(config))
  {
    var r := ShellSection(config);
    if config.shellType != ConfigShellToolType.Disabled {
      var chosen := ShellToolFor(config.shellType);
      SpecNamesThen(chosen, Registry([], ShellAliases));
      assert Registry([], ShellAliases).HandlerNames() == ["shell", "container.exec", "local_shell", "shell_command"];
      forall s | s in r.specs && !s.spec.WebSearchTool?
        ensures ToolName(s.spec) in r.HandlerNames()
      {
        assert s in chosen.specs;
        if config.shellType == ConfigShellToolType.UnifiedExec {
          assert chosen.HandlerNames() == ["exec_command", "write_stdin"];
        } else {
          assert ToolName(s.spec) in ["shell", "local_shell", "shell_command"];
        }
      }
    }
  }

  lemma WebAndImageCovered(config: ToolsConfig)
    ensures HandlersCover(WebAndImageSection(config))
  {
    var r := WebAndImageSection(config);
    assert r.HandlerNames() == ["view_image"];
    forall s | s in r.specs && !s.spec.WebSearchTool?
      ensures ToolName(s.spec) in r.HandlerNames()
    {
      assert s == Parallel(FunctionTool("view_image"));
    }
  }

  /** The built-in sections register a handler for every tool they offer except the hosted web search. */
  lemma BuiltinSectionsCovered(config: ToolsConfig)
    ensures HandlersCover(BuiltinSections(config))
  {
    MiddleSectionsPaired(config);
    CollabSectionPaired(config);
    var r0 := ShellSection(config);
    ShellSectionCovered(config);
    PairedCovers(ResourceAndPlanSection);
    ThenCovers(r0, ResourceAndPlanSection);
    var r1 := r0.Then(ResourceAndPlanSection);
    PairedCovers(OptionalCoreSection(config));
    ThenCovers(r1, OptionalCoreSection(config));
    var r2 := r1.Then(OptionalCoreSection(config));
    PairedCovers(PatchAndReadSection(config));
    ThenCovers(r2, PatchAndReadSection(config));
    var r3 := r2.Then(PatchAndReadSection(config));
    PairedCovers(ExperimentalSection(config));
    ThenCovers(r3, ExperimentalSection(config));
    var r4 := r3.Then(ExperimentalSection(config));
    WebAndImageCovered(config);
    ThenCovers(r4, WebAndImageSection(config));
    var r5 := r4.Then(WebAndImageSection(config));
    PairedCovers(CollabSection(config));
    ThenCovers(r5, CollabSection(config));
  }

  /**
   * Every tool `build_specs` offers, built-in, MCP or dynamic, has a
   * handler registered under its name; only the hosted web search has none.
   */
  lemma EveryToolHasHandler(config: ToolsConfig, mcpTools: Option<map<string, McpTool>>, iteration: seq<string>,
                            dynamicTools: seq<DynamicToolSpec>, parses: Json -> bool)
    requires mcpTools.Some? ==> IsIterationOrder(iteration, mcpTools.value)
    ensures HandlersCover(Catalogue(config, mcpTools, iteration, dynamicTools, parses))
  {
    BuiltinSectionsCovered(config);
    var mcp := McpSection(mcpTools, iteration, parses);
    if mcpTools.Some? {
      forall n | n in Order.SortStrings(iteration)
        ensures n in mcpTools.value
      {
        Order.SortKeepsMembers(iteration, n);
      }
      McpEntriesPaired(Order.SortStrings(iteration), mcpTools.value, parses);
    }
    PairedCovers(mcp);
    ThenCovers(BuiltinSections(config), mcp);
    DynamicSectionPaired(dynamicTools, parses);
    PairedCovers(DynamicSection(dynamicTools, parses));
    ThenCovers(BuiltinSections(config).Then(mcp), DynamicSection(dynamicTools, parses));
  }

  /** Every name the core sections can offer. */
  const CoreToolNames: set<string> := {
    "shell", "local_shell", "exec_command", "write_stdin", "shell_command",
    "list_mcp_resources", "list_mcp_resource_templates", "read_mcp_resource", "update_plan",
    "request_user_input", "search_tool_bm25", "ToolSearch", "apply_patch", "batches_read_file",
    "grep_files", "read_file", "list_dir", "test_sync_tool", "web_search", "view_image"}

  /** The collaboration tools and Claude-style aliases, apart from `AskUserQuestion`. */
  const CollabToolNames: set<string> := {
    "spawn_agent", "send_input", "task_batch", "task_send_batch", "resume_agent", "wait", "wait_agents",
    "list_agents", "rename_agent", "close_agent", "close_agents", "Task", "TaskOutput", "TaskStop", "Skill",
    "Bash", "Read", "Grep", "TodoWrite", "EnterPlanMode", "ExitPlanMode", "Write", "Edit", "Glob", "NotebookEdit"}

  const CollabAgentNames: set<string> := {
    "spawn_agent", "send_input", "task_batch", "task_send_batch", "resume_agent", "wait", "wait_agents",
    "list_agents", "rename_agent", "close_agent", "close_agents"}
  const ClaudeTaskNames: set<string> := {"Task", "TaskOutput", "TaskStop", "Skill"}
  const ClaudeAfterAskNames: set<string> := {
    "Bash", "Read", "Grep", "TodoWrite", "EnterPlanMode", "ExitPlanMode", "Write", "Edit", "Glob", "NotebookEdit"}

  lemma CollabToolNamesUnion()
    ensures CollabToolNames == CollabAgentNames + ClaudeTaskNames + ClaudeAfterAskNames
    ensures "AskUserQuestion" !in CollabToolNames
  {
  }

  /** No core tool shares a name with a collaboration tool. */
  lemma CoreNameNotCollab(n: string)
    requires n in CoreToolNames
    ensures n !in CollabToolNames && n != "AskUserQuestion"
  {
  }

  lemma InThen(a: Registry, b: Registry, n: string)
    ensures n in a.Then(b).SpecNames() <==> n in a.SpecNames() || n in b.SpecNames()
  {
    SpecNamesThen(a, b);
  }

  /** The names the core sections can offer, section by section. */
  const ShellNames: set<string> := {"shell", "local_shell", "exec_command", "write_stdin", "shell_command"}
  const ResourceAndPlanNames: set<string> :=
    {"list_mcp_resources", "list_mcp_resource_templates", "read_mcp_resource", "update_plan"}
  const OptionalCoreNames: set<string> := {"request_user_input", "search_tool_bm25", "ToolSearch"}
  const PatchAndReadNames: set<string> := {"apply_patch", "batches_read_file"}
  const ExperimentalNames: set<string> := {"grep_files", "read_file", "list_dir", "test_sync_tool"}
  const WebAndImageNames: set<string> := {"web_search", "view_image"}

  lemma CoreToolNamesUnion()
    ensures CoreToolNames ==
      ShellNames + ResourceAndPlanNames + OptionalCoreNames + PatchAndReadNames + ExperimentalNames + WebAndImageNames
    ensures "request_user_input" !in ShellNames + ResourceAndPlanNames + PatchAndReadNames + ExperimentalNames + WebAndImageNames
  {
    CoreToolNamesCovered();
    RequestUserInputOnlyOptional();
  }

  lemma CoreToolNamesCovered()
    ensures CoreToolNames ==
      ShellNames + ResourceAndPlanNames + OptionalCoreNames + PatchAndReadNames + ExperimentalNames + WebAndImageNames
  {
  }

  lemma RequestUserInputOnlyOptional()
    ensures "request_user_input" !in ShellNames + ResourceAndPlanNames + PatchAndReadNames + ExperimentalNames + WebAndImageNames
  {
  }

  lemma CoreSectionsNames(config: ToolsConfig, n: string)
    requires n in CoreSections(config).SpecNames()
    ensures n in CoreToolNames
    ensures n == "request_user_input" ==> config.collaborationModesTools
  {
    CoreToolNamesUnion();
    var r0 := ShellSection(config);
    var r1 := r0.Then(ResourceAndPlanSection);
    var r2 := r1.Then(OptionalCoreSection(config));
    var r3 := r2.Then(PatchAndReadSection(config));
    var r4 := r3.Then(ExperimentalSection(config));
    InThen(r4, WebAndImageSection(config), n);
    InThen(r3, ExperimentalSection(config), n);
    InThen(r2, PatchAndReadSection(config), n);
    InThen(r1, OptionalCoreSection(config), n);
    InThen(r0, ResourceAndPlanSection, n);
    if n in r0.SpecNames() {
      ShellSectionNames(config, n);
    } else if n in OptionalCoreSection(config).SpecNames() {
      OptionalCoreSectionNames(config, n);
    } else if n in ExperimentalSection(config).SpecNames() {
      ExperimentalSectionNames(config, n);
    } else if n in PatchAndReadSection(config).SpecNames() {
      PatchAndReadSectionNames(config, n);
    } else if n in ResourceAndPlanSection.SpecNames() {
      ResourceAndPlanSectionNames(n);
    } else {
      WebAndImageSectionNames(config, n);
    }
  }

  lemma ResourceAndPlanSectionNames(n: string)
    requires n in ResourceAndPlanSection.SpecNames()
    ensures n in ResourceAndPlanNames
  {
    assert ResourceAndPlanSection.SpecNames() ==
      ["list_mcp_resources", "list_mcp_resource_templates", "read_mcp_resource", "update_plan"];
  }

  lemma PatchAndReadSectionNames(config: ToolsConfig, n: string)
    requires n in PatchAndReadSection(config).SpecNames()
    ensures n in PatchAndReadNames
  {
  }

  lemma WebAndImageSectionNames(config: ToolsConfig, n: string)
    requires n in WebAndImageSection(config).SpecNames()
    ensures n in WebAndImageNames
  {
  }

  lemma ShellSectionNames(config: ToolsConfig, n: string)
    requires n in ShellSection(config).SpecNames()
    ensures n in ShellNames
  {
    if config.shellType != ConfigShellToolType.Disabled {
      InThen(ShellToolFor(config.shellType), Registry([], ShellAliases), n);
    }
  }

  lemma OptionalCoreSectionNames(config: ToolsConfig, n: string)
    requires n in OptionalCoreSection(config).SpecNames()
    ensures n in OptionalCoreNames
    ensures n == "request_user_input" ==> config.collaborationModesTools
  {
    var ask :=
      if config.collaborationModesTools then
        Registry([Serial(FunctionTool("request_user_input"))], [Registration("request_user_input", RequestUserInputHandler)])
      else Empty;
    var search :=
      if config.searchTool then
        Registry([Parallel(FunctionTool("search_tool_bm25")), Parallel(FunctionTool("ToolSearch"))],
                 [Registration("search_tool_bm25", SearchToolBm25Handler), Registration("ToolSearch", ClaudeToolAdapterHandler)])
      else Empty;
    InThen(ask, search, n);
  }

  lemma ExperimentalSectionNames(config: ToolsConfig, n: string)
    requires n in ExperimentalSection(config).SpecNames()
    ensures n in ExperimentalNames
  {
    var grep := ExperimentalTool(config, "grep_files", GrepFilesHandler);
    var read := ExperimentalTool(config, "read_file", ReadFileHandler);
    var list := ExperimentalTool(config, "list_dir", ListDirHandler);
    var sync := ExperimentalTool(config, "test_sync_tool", TestSyncHandler);
    InThen(grep.Then(read).Then(list), sync, n);
    InThen(grep.Then(read), list, n);
    InThen(grep, read, n);
  }

  lemma CollabSectionNames(config: ToolsConfig, n: string)
    ensures n in CollabSection(config).SpecNames() <==>
      config.collabTools && (n in CollabToolNames || (n == "AskUserQuestion" && config.collaborationModesTools))
  {
    if config.collabTools {
      var ask := if config.collaborationModesTools then [Serial(FunctionTool("AskUserQuestion"))] else [];
      var askHandler :=
        if config.collaborationModesTools then [Registration("AskUserQuestion", ClaudeToolAdapterHandler)] else [];
      var agents := Registry(CollabAgentSpecs, CollabAgentHandlers);
      var tasks := Registry(ClaudeTaskSpecs, ClaudeTaskHandlers);
      var askPart := Registry(ask, askHandler);
      var after := Registry(CollabSpecsAfterAsk, CollabHandlersAfterAsk);
      assert CollabSection(config) == agents.Then(tasks).Then(askPart).Then(after);
      InThen(agents.Then(tasks).Then(askPart), after, n);
      InThen(agents.Then(tasks), askPart, n);
      InThen(agents, tasks, n);
      assert askPart.SpecNames() == if config.collaborationModesTools then ["AskUserQuestion"] else [];
      CollabToolNamesUnion();
      AgentNamesListed(n);
      TaskNamesListed(n);
      AfterAskNamesListed(n);
    }
  }

  lemma AgentNamesListed(n: string)
    ensures n in Registry(CollabAgentSpecs, CollabAgentHandlers).SpecNames() <==> n in CollabAgentNames
  {
    assert Registry(CollabAgentSpecs, CollabAgentHandlers).SpecNames() == [
      "spawn_agent", "send_input", "task_batch", "task_send_batch", "resume_agent", "wait", "wait_agents",
      "list_agents", "rename_agent", "close_agent", "close_agents"];
  }

  lemma TaskNamesListed(n: string)
    ensures n in Registry(ClaudeTaskSpecs, ClaudeTaskHandlers).SpecNames() <==> n in ClaudeTaskNames
  {
    assert Registry(ClaudeTaskSpecs, ClaudeTaskHandlers).SpecNames() == ["Task", "TaskOutput", "TaskStop", "Skill"];
  }

  lemma AfterAskNamesListed(n: string)
    ensures n in Registry(CollabSpecsAfterAsk, CollabHandlersAfterAsk).SpecNames() <==> n in ClaudeAfterAskNames
  {
    assert Registry(CollabSpecsAfterAsk, CollabHandlersAfterAsk).SpecNames() == [
      "Bash", "Read", "Grep", "TodoWrite", "EnterPlanMode", "ExitPlanMode", "Write", "Edit", "Glob", "NotebookEdit"];
  }

  /** The collaboration tools and the Claude-style aliases are offered exactly when `collab_tools` is set. */
  lemma CollabToolsFollowFlag(config: ToolsConfig, n: string)
    requires n in CollabToolNames
    ensures n in BuiltinSections(config).SpecNames() <==> config.collabTools
  {
    InThen(CoreSections(config), CollabSection(config), n);
    CollabSectionNames(config, n);
    if n in CoreSections(config).SpecNames() {
      CoreSectionsNames(config, n);
      CoreNameNotCollab(n);
      assert false;
    }
  }

  /** `AskUserQuestion` needs both the collaboration tools and collaboration modes. */
  lemma AskUserQuestionNeedsBothFlags(config: ToolsConfig)
    ensures "AskUserQuestion" in BuiltinSections(config).SpecNames() <==>
      config.collabTools && config.collaborationModesTools
  {
    InThen(CoreSections(config), CollabSection(config), "AskUserQuestion");
    CollabSectionNames(config, "AskUserQuestion");
    CollabToolNamesUnion();
    if "AskUserQuestion" in CoreSections(config).SpecNames() {
      CoreSectionsNames(config, "AskUserQuestion");
      CoreNameNotCollab("AskUserQuestion");
      assert false;
    }
  }

  /** `request_user_input` is offered exactly when collaboration modes are on. */
  lemma RequestUserInputFollowsModes(config: ToolsConfig)
    ensures "request_user_input" in BuiltinSections(config).SpecNames() <==> config.collaborationModesTools
  {
    var n := "request_user_input";
    InThen(CoreSections(config), CollabSection(config), n);
    CollabSectionNames(config, n);
    CoreNameNotCollab(n);
    if n in CoreSections(config).SpecNames() {
      CoreSectionsNames(config, n);
    }
    if config.collaborationModesTools {
      var r0 := ShellSection(config);
      var r1 := r0.Then(ResourceAndPlanSection);
      var r2 := r1.Then(OptionalCoreSection(config));
      var r3 := r2.Then(PatchAndReadSection(config));
      var r4 := r3.Then(ExperimentalSection(config));
      var search :=
        if config.searchTool then
          Registry([Parallel(FunctionTool("search_tool_bm25")), Parallel(FunctionTool("ToolSearch"))],
                   [Registration("search_tool_bm25", SearchToolBm25Handler), Registration("ToolSearch", ClaudeToolAdapterHandler)])
        else Empty;
      var ask := Registry([Serial(FunctionTool(n))], [Registration(n, RequestUserInputHandler)]);
      assert ask.SpecNames() == [n];
      assert OptionalCoreSection(config) == ask.Then(search);
      InThen(ask, search, n);
      InThen(r1, OptionalCoreSection(config), n);
      InThen(r2, PatchAndReadSection(config), n);
      InThen(r3, ExperimentalSection(config), n);
      InThen(r4, WebAndImageSection(config), n);
    }
  }

  // ---------------------------------------------------------------------------
  // The hosted web search

  lemma KindsThen(a: Registry, b: Registry)
    ensures a.Then(b).SpecKinds() == a.SpecKinds() + b.SpecKinds()
  {
  }

  /** A spec that is offered is offered under its name. */
  lemma KindNamed(r: Registry, k: ToolSpecKind)
    requires k in r.SpecKinds()
    ensures ToolName(k) in r.SpecNames()
  {
    var i :| 0 <= i < |r.SpecKinds()| && r.SpecKinds()[i] == k;
    assert r.SpecNames()[i] == ToolName(k);
  }

  /** Only function tools: what the MCP and dynamic sections offer. */
  predicate OnlyFunctionTools(r: Registry) {
    forall k :: k in r.SpecKinds() ==> k.FunctionTool?
  }

  lemma ThenOnlyFunctionTools(a: Registry, b: Registry)
    requires OnlyFunctionTools(a) && OnlyFunctionTools(b)
    ensures OnlyFunctionTools(a.Then(b))
  {
    KindsThen(a, b);
  }

  lemma {:induction false} McpEntriesOnlyFunctionTools(names: seq<string>, tools: map<string, McpTool>, parses: Json -> bool)
    requires forall n :: n in names ==> n in tools
    ensures OnlyFunctionTools(McpEntries(names, tools, parses))
  {
    if names != [] {
      McpEntriesOnlyFunctionTools(names[1..], tools, parses);
      ThenOnlyFunctionTools(McpEntryOf(names[0], tools, parses), McpEntries(names[1..], tools, parses));
    }
  }

  lemma {:induction false} DynamicSectionOnlyFunctionTools(tools: seq<DynamicToolSpec>, parses: Json -> bool)
    ensures OnlyFunctionTools(DynamicSection(tools, parses))
  {
    if tools != [] {
      DynamicSectionOnlyFunctionTools(tools[1..], parses);
      ThenOnlyFunctionTools(DynamicEntryOf(tools[0], parses), DynamicSection(tools[1..], parses));
    }
  }

  /** The sections before the web search never offer a tool called `web_search`. */
  lemma NoWebSearchBeforeWebSection(config: ToolsConfig)
    ensures "web_search" !in ShellSection(config).Then(ResourceAndPlanSection).Then(OptionalCoreSection(config))
                               .Then(PatchAndReadSection(config)).Then(ExperimentalSection(config)).SpecNames()
  {
    var n := "web_search";
    var r0 := ShellSection(config);
    var r1 := r0.Then(ResourceAndPlanSection);
    var r2 := r1.Then(OptionalCoreSection(config));
    var r3 := r2.Then(PatchAndReadSection(config));
    InThen(r3, ExperimentalSection(config), n);
    InThen(r2, PatchAndReadSection(config), n);
    InThen(r1, OptionalCoreSection(config), n);
    InThen(r0, ResourceAndPlanSection, n);
    if n in ShellSection(config).SpecNames() {
      ShellSectionNames(config, n);
      assert false;
    }
    if n in ResourceAndPlanSection.SpecNames() {
      ResourceAndPlanSectionNames(n);
      assert false;
    }
    if n in OptionalCoreSection(config).SpecNames() {
      OptionalCoreSectionNames(config, n);
      assert false;
    }
    if n in PatchAndReadSection(config).SpecNames() {
      PatchAndReadSectionNames(config, n);
      assert false;
    }
    if n in ExperimentalSection(config).SpecNames() {
      ExperimentalSectionNames(config, n);
      assert false;
    }
  }

  /** The built-in sections offer the hosted web search exactly as the web search mode says. */
  lemma BuiltinWebSearch(config: ToolsConfig, externalWebAccess: bool)
    ensures WebSearchTool(externalWebAccess) in BuiltinSections(config).SpecKinds() <==>
      config.webSearchMode == Some(if externalWebAccess then WebSearchMode.Live else WebSearchMode.Cached)
  {
    var k := WebSearchTool(externalWebAccess);
    var before := ShellSection(config).Then(ResourceAndPlanSection).Then(OptionalCoreSection(config))
                    .Then(PatchAndReadSection(config)).Then(ExperimentalSection(config));
    KindsThen(CoreSections(config), CollabSection(config));
    KindsThen(before, WebAndImageSection(config));
    if k in before.SpecKinds() {
      KindNamed(before, k);
      NoWebSearchBeforeWebSection(config);
      assert false;
    }
    if k in CollabSection(config).SpecKinds() {
      KindNamed(CollabSection(config), k);
      CollabSectionNames(config, "web_search");
      assert false;
    }
    assert CoreSections(config) == before.Then(WebAndImageSection(config));
    WebSectionKinds(config, externalWebAccess);
  }

  lemma WebSectionKinds(config: ToolsConfig, externalWebAccess: bool)
    ensures WebSearchTool(externalWebAccess) in WebAndImageSection(config).SpecKinds() <==>
      config.webSearchMode == Some(if externalWebAccess then WebSearchMode.Live else WebSearchMode.Cached)
  {
    var web :=
      match config.webSearchMode
      case Some(Cached) => Registry([Serial(WebSearchTool(false))], [])
      case Some(Live) => Registry([Serial(WebSearchTool(true))], [])
      case _ => Empty;
    var image := Registry([Parallel(FunctionTool("view_image"))], [Registration("view_image", ViewImageHandler)]);
    assert WebAndImageSection(config) == web.Then(image);
    KindsThen(web, image);
    assert image.SpecKinds() == [FunctionTool("view_image")];
    assert web.SpecKinds() == match config.webSearchMode
      case Some(Cached) => [WebSearchTool(false)]
      case Some(Live) => [WebSearchTool(true)]
      case _ => [];
  }

  /**
   * The hosted web search is offered with external access off in cached
   * mode, with it on in live mode, and not at all when the mode is disabled
   * or unset.
   */
  lemma WebSearchFollowsMode(config: ToolsConfig, mcpTools: Option<map<string, McpTool>>, iteration: seq<string>,
                             dynamicTools: seq<DynamicToolSpec>, parses: Json -> bool, externalWebAccess: bool)
    requires mcpTools.Some? ==> IsIterationOrder(iteration, mcpTools.value)
    ensures WebSearchTool(externalWebAccess) in Catalogue(config, mcpTools, iteration, dynamicTools, parses).SpecKinds() <==>
      config.webSearchMode == Some(if externalWebAccess then WebSearchMode.Live else WebSearchMode.Cached)
  {
    var mcp := McpSection(mcpTools, iteration, parses);
    var dynamic := DynamicSection(dynamicTools, parses);
    KindsThen(BuiltinSections(config).Then(mcp), dynamic);
    KindsThen(BuiltinSections(config), mcp);
    BuiltinWebSearch(config, externalWebAccess);
    if mcpTools.Some? {
      McpSectionOnlyFunctionTools(mcpTools.value, iteration, parses);
    }
    DynamicSectionOnlyFunctionTools(dynamicTools, parses);
  }

  lemma McpSectionOnlyFunctionTools(tools: map<string, McpTool>, iteration: seq<string>, parses: Json -> bool)
    requires IsIterationOrder(iteration, tools)
    ensures OnlyFunctionTools(McpSection(Some(tools), iteration, parses))
  {
    var sorted := Order.SortStrings(iteration);
    forall n | n in sorted
      ensures n in tools
    {
      Order.SortKeepsMembers(iteration, n);
    }
    McpEntriesOnlyFunctionTools(sorted, tools, parses);
  }

  // ---------------------------------------------------------------------------
  // MCP tools in name order

  /** The MCP entries name exactly the listed tools whose schemas convert. */
  lemma {:induction false} McpEntriesNames(names: seq<string>, tools: map<string, McpTool>, parses: Json -> bool, n: string)
    requires forall m :: m in names ==> m in tools
    ensures n in McpEntries(names, tools, parses).SpecNames() <==> n in names && parses(McpInputSchema(tools[n]))
  {
    if names != [] {
      var head := McpEntryOf(names[0], tools, parses);
      var tail := McpEntries(names[1..], tools, parses);
      McpEntriesNames(names[1..], tools, parses, n);
      SpecNamesThen(head, tail);
      assert head.SpecNames() == if parses(McpInputSchema(tools[names[0]])) then [names[0]] else [];
      assert n in names <==> n == names[0] || n in names[1..] by {
        assert names == [names[0]] + names[1..];
      }
    }
  }

  /** Entries taken from increasing names keep the names increasing. */
  lemma {:induction false} McpEntriesSorted(names: seq<string>, tools: map<string, McpTool>, parses: Json -> bool)
    requires forall m :: m in names ==> m in tools
    requires Order.StrictlySorted(names)
    ensures Order.StrictlySorted(McpEntries(names, tools, parses).SpecNames())
  {
    if names != [] {
      var head := McpEntryOf(names[0], tools, parses);
      var tail := McpEntries(names[1..], tools, parses);
      assert Order.StrictlySorted(names[1..]) by {
        forall p, q | 0 <= p < q < |names[1..]|
          ensures Order.StrLt(names[1..][p], names[1..][q])
        {
          assert names[1..][p] == names[p + 1] && names[1..][q] == names[q + 1];
        }
      }
      McpEntriesSorted(names[1..], tools, parses);
      SpecNamesThen(head, tail);
      if parses(McpInputSchema(tools[names[0]])) {
        assert head.SpecNames() == [names[0]];
        forall y | y in tail.SpecNames()
          ensures Order.StrLt(names[0], y)
        {
          McpEntriesNames(names[1..], tools, parses, y);
          var j :| 0 <= j < |names[1..]| && names[1..][j] == y;
          assert names[j + 1] == y;
        }
        Order.StrictlySortedCons(names[0], tail.SpecNames());
      } else {
        assert head.SpecNames() == [];
        assert head.Then(tail).SpecNames() == tail.SpecNames();
      }
    }
  }

  /**
   * The MCP section names each tool whose schema converts exactly once, in
   * increasing name order.
   */
  lemma McpSectionInNameOrder(tools: map<string, McpTool>, iteration: seq<string>, parses: Json -> bool, n: string)
    requires IsIterationOrder(iteration, tools)
    ensures Order.StrictlySorted(McpSection(Some(tools), iteration, parses).SpecNames())
    ensures n in McpSection(Some(tools), iteration, parses).SpecNames() <==>
      n in tools && parses(McpInputSchema(tools[n]))
  {
    var sorted := Order.SortStrings(iteration);
    forall m | m in sorted
      ensures m in tools
    {
      Order.SortKeepsMembers(iteration, m);
    }
    Order.SortStringsStrict(iteration);
    McpEntriesSorted(sorted, tools, parses);
    McpEntriesNames(sorted, tools, parses, n);
    Order.SortKeepsMembers(iteration, n);
  }

  /** The MCP section does not depend on the order the map yields its keys in. */
  lemma McpSectionOrderIndependent(tools: map<string, McpTool>, first: seq<string>, second: seq<string>,
                                   parses: Json -> bool)
    requires IsIterationOrder(first, tools) && IsIterationOrder(second, tools)
    ensures McpSection(Some(tools), first, parses) == McpSection(Some(tools), second, parses)
  {
    Order.SortDistinctCanonical(first, second);
  }
}
