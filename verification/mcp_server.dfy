/** The Model Context Protocol server in front of the graph store: a fixed
    registry of five tools, a dispatcher that turns a tool call into a store
    call wrapped in a success or error envelope, the request router, and the
    context text that lists the tools for one user. */
module McpServer {
  import opened Wrappers
  import opened Text
  import opened Records

  // ---------------------------------------------------------------------
  // The tool registry
  // ---------------------------------------------------------------------

  /** One property of a tool's input schema. */
  datatype SchemaProperty = SchemaProperty(
    name: string,
    propertyType: string,
    description: string,
    defaultValue: Option<int>)

  /** An input schema: always of type "object". */
  datatype InputSchema = InputSchema(properties: seq<SchemaProperty>, required: seq<string>)

  /** `MCPTool` */
  datatype Tool = Tool(name: string, description: string, inputSchema: InputSchema)

  const UserIdProperty := SchemaProperty("user_id", "string", "Unique identifier for the user", None)

  const ProfileTool := Tool(
    "get_user_profile",
    "Retrieve user profile information including basic details and preferences",
    InputSchema([UserIdProperty], ["user_id"]))

  const HistoryTool := Tool(
    "get_user_game_history",
    "Get user's game attendance history with details about past games",
    InputSchema([UserIdProperty,
                 SchemaProperty("limit", "integer", "Maximum number of records to return", Some(10))],
                ["user_id"]))

  const PreferencesTool := Tool(
    "get_user_preferences",
    "Get user's preferences including favorite teams and sports",
    InputSchema([UserIdProperty], ["user_id"]))

  const SimilarUsersTool := Tool(
    "get_similar_users",
    "Find users with similar attendance patterns and preferences",
    InputSchema([UserIdProperty,
                 SchemaProperty("limit", "integer", "Maximum number of similar users to return", Some(5))],
                ["user_id"]))

  const RecordTool := Tool(
    "record_interaction",
    "Record a user interaction such as a call or purchase attempt",
    InputSchema([UserIdProperty,
                 SchemaProperty("interaction_type", "string", "Type of interaction (call, purchase, email, etc.)", None),
                 SchemaProperty("details", "object", "Additional details about the interaction", None)],
                ["user_id", "interaction_type", "details"]))

  /** `_register_tools`: the five tools, in order. */
  function RegisteredTools(): (tools: seq<Tool>)
    ensures |tools| == 5
    ensures tools[0].name == "get_user_profile" && tools[1].name == "get_user_game_history"
    ensures tools[2].name == "get_user_preferences" && tools[3].name == "get_similar_users"
    ensures tools[4].name == "record_interaction"
    ensures forall i :: 0 <= i < |tools| ==> "user_id" in tools[i].inputSchema.required
  {
    [ProfileTool, HistoryTool, PreferencesTool, SimilarUsersTool, RecordTool]
  }

  /** The names the dispatcher recognises. */
  predicate IsToolName(name: string) {
    name == "get_user_profile" || name == "get_user_game_history" ||
    name == "get_user_preferences" || name == "get_similar_users" || name == "record_interaction"
  }

  /** The dispatcher recognises exactly the registered names. */
  lemma RegistryMatchesDispatch(name: string)
    ensures IsToolName(name) <==> exists i :: 0 <= i < |RegisteredTools()| && RegisteredTools()[i].name == name
  {
    var tools := RegisteredTools();
    if IsToolName(name) {
      if name == "get_user_profile" { assert tools[0].name == name; }
      else if name == "get_user_game_history" { assert tools[1].name == name; }
      else if name == "get_user_preferences" { assert tools[2].name == name; }
      else if name == "get_similar_users" { assert tools[3].name == name; }
      else { assert tools[4].name == name; }
    }
  }

  /** The registered names are pairwise distinct. */
  lemma RegisteredNamesDistinct()
    ensures forall i, j :: 0 <= i < j < |RegisteredTools()| ==> RegisteredTools()[i].name != RegisteredTools()[j].name
  {
    var tools := RegisteredTools();
    assert |tools[0].name| == 16 && |tools[1].name| == 21 && |tools[2].name| == 20;
    assert |tools[3].name| == 17 && |tools[4].name| == 18;
  }

  // ---------------------------------------------------------------------
  // Tool calls
  // ---------------------------------------------------------------------

  /** The tool-call `arguments` object; a key that is absent is `None`. The
      `details` object is the interaction record the store accepts. */
  datatype Arguments = Arguments(
    userId: Option<string>,
    limit: Option<int>,
    interactionType: Option<string>,
    details: Option<InteractionDetails>)

  const NoArguments := Arguments(None, None, None, None)

  /** What a tool call puts under `data`. */
  datatype ToolData =
    | ProfileData(profile: Option<Profile>)
    | HistoryData(history: seq<HistoryEntry>)
    | PreferencesData(preferences: Preferences)
    | SimilarUsersData(users: seq<SimilarUser>)
    | RecordedData(recorded: bool)

  /** `{"success": True, "data": ...}` or `{"success": False, "error": ...}` */
  datatype ToolResponse = ToolSuccess(data: ToolData) | ToolFailure(error: string)

  /** The text f-strings give an optional string: `None` prints as "None". */
  function Shown(s: Option<string>): string {
    if s.Some? then s.value else "None"
  }

  /** The message of the exception subscripting a null `arguments` raises. */
  const NotSubscriptable := "'NoneType' object is not subscriptable"

  /** `arguments[key]`: `str(KeyError)` quotes the missing key. */
  function Required<T>(args: Option<Arguments>, key: string, field: Arguments -> Option<T>): (r: Outcome<T>)
    ensures args.None? ==> r == Raised(NotSubscriptable)
    ensures args.Some? && field(args.value).None? ==> r == Raised("'" + key + "'")
    ensures args.Some? && field(args.value).Some? ==> r == Returned(field(args.value).value)
  {
    if args.None? then Raised(NotSubscriptable)
    else if field(args.value).None? then Raised("'" + key + "'")
    else Returned(field(args.value).value)
  }

  /** A store call's outcome as an envelope. */
  function Envelope<T>(outcome: Outcome<T>, wrap: T -> ToolData): ToolResponse {
    match outcome
    case Returned(v) => ToolSuccess(wrap(v))
    case Raised(m) => ToolFailure(m)
  }

  function UserIdOf(a: Arguments): Option<string> { a.userId }
  function InteractionTypeOf(a: Arguments): Option<string> { a.interactionType }
  function DetailsOf(a: Arguments): Option<InteractionDetails> { a.details }

  /** `handle_tool_call`: route by tool name; a missing argument or a raising
      store call becomes a failure envelope. */
  function HandleToolCall(store: GraphStore, toolName: Option<string>, args: Option<Arguments>): (r: ToolResponse)
    ensures (toolName.None? || !IsToolName(toolName.value)) ==> r == ToolFailure("Unknown tool: " + Shown(toolName))
    ensures r.ToolSuccess? ==> toolName.Some? && IsToolName(toolName.value) && args.Some? && args.value.userId.Some?
  {
    if toolName == Some("get_user_profile") then
      match Required(args, "user_id", UserIdOf)
      case Raised(m) => ToolFailure(m)
      case Returned(uid) => Envelope(store.getUserProfile(uid), p => ProfileData(p))
    else if toolName == Some("get_user_game_history") then
      match Required(args, "user_id", UserIdOf)
      case Raised(m) => ToolFailure(m)
      case Returned(uid) =>
        Envelope(store.getUserGameHistory(uid, args.value.limit.GetOr(10)), h => HistoryData(h))
    else if toolName == Some("get_user_preferences") then
      match Required(args, "user_id", UserIdOf)
      case Raised(m) => ToolFailure(m)
      case Returned(uid) => Envelope(store.getUserPreferences(uid), p => PreferencesData(p))
    else if toolName == Some("get_similar_users") then
      match Required(args, "user_id", UserIdOf)
      case Raised(m) => ToolFailure(m)
      case Returned(uid) =>
        Envelope(store.getSimilarUsers(uid, args.value.limit.GetOr(5)), u => SimilarUsersData(u))
    else if toolName == Some("record_interaction") then
      match Required(args, "user_id", UserIdOf)
      case Raised(m) => ToolFailure(m)
      case Returned(uid) =>
        match Required(args, "interaction_type", InteractionTypeOf)
        case Raised(m) => ToolFailure(m)
        case Returned(kind) =>
          match Required(args, "details", DetailsOf)
          case Raised(m) => ToolFailure(m)
          case Returned(details) => Envelope(store.recordInteraction(uid, kind, details), b => RecordedData(b))
    else
      ToolFailure("Unknown tool: " + Shown(toolName))
  }

  /** Every registered tool reports a missing `user_id` as the failure
      "'user_id'", before it touches the store. */
  lemma MissingUserIdFails(store: GraphStore, name: string, args: Arguments)
    requires IsToolName(name) && args.userId.None?
    ensures HandleToolCall(store, Some(name), Some(args)) == ToolFailure("'user_id'")
  {
  }

  /** An absent limit asks the store for 10 history entries or 5 similar
      users; a raising store call becomes a failure with its message. */
  lemma DefaultLimits(store: GraphStore, uid: string)
    ensures var args := NoArguments.(userId := Some(uid));
      HandleToolCall(store, Some("get_user_game_history"), Some(args)) ==
        (match store.getUserGameHistory(uid, 10)
         case Returned(h) => ToolSuccess(HistoryData(h))
         case Raised(m) => ToolFailure(m))
    ensures var args := NoArguments.(userId := Some(uid));
      HandleToolCall(store, Some("get_similar_users"), Some(args)) ==
        (match store.getSimilarUsers(uid, 5)
         case Returned(u) => ToolSuccess(SimilarUsersData(u))
         case Raised(m) => ToolFailure(m))
  {
  }

  /** With a `user_id` given, each read tool answers with the envelope of its
      store call, and a `limit` given by the caller is the one the store sees. */
  lemma ReadToolCalls(store: GraphStore, args: Arguments)
    requires args.userId.Some?
    ensures HandleToolCall(store, Some("get_user_profile"), Some(args)) ==
      (match store.getUserProfile(args.userId.value)
       case Returned(p) => ToolSuccess(ProfileData(p))
       case Raised(m) => ToolFailure(m))
    ensures HandleToolCall(store, Some("get_user_game_history"), Some(args)) ==
      (match store.getUserGameHistory(args.userId.value, args.limit.GetOr(10))
       case Returned(h) => ToolSuccess(HistoryData(h))
       case Raised(m) => ToolFailure(m))
    ensures HandleToolCall(store, Some("get_user_preferences"), Some(args)) ==
      (match store.getUserPreferences(args.userId.value)
       case Returned(p) => ToolSuccess(PreferencesData(p))
       case Raised(m) => ToolFailure(m))
    ensures HandleToolCall(store, Some("get_similar_users"), Some(args)) ==
      (match store.getSimilarUsers(args.userId.value, args.limit.GetOr(5))
       case Returned(u) => ToolSuccess(SimilarUsersData(u))
       case Raised(m) => ToolFailure(m))
  {
  }

  /** `record_interaction` needs all three arguments, checked in order, and
      wraps what the store returns as `{"recorded": result}`. */
  lemma RecordInteractionCall(store: GraphStore, args: Arguments)
    ensures args.userId.Some? && args.interactionType.None? ==>
      HandleToolCall(store, Some("record_interaction"), Some(args)) == ToolFailure("'interaction_type'")
    ensures args.userId.Some? && args.interactionType.Some? && args.details.None? ==>
      HandleToolCall(store, Some("record_interaction"), Some(args)) == ToolFailure("'details'")
    ensures args.userId.Some? && args.interactionType.Some? && args.details.Some? ==>
      var stored := store.recordInteraction(args.userId.value, args.interactionType.value, args.details.value);
      HandleToolCall(store, Some("record_interaction"), Some(args)) ==
        (if stored.Returned? then ToolSuccess(RecordedData(stored.value)) else ToolFailure(stored.message))
  {
  }

  /** A registered tool called with a null `arguments` fails with the
      subscript error. */
  lemma NullArgumentsFail(store: GraphStore, name: string)
    requires IsToolName(name)
    ensures HandleToolCall(store, Some(name), None) == ToolFailure(NotSubscriptable)
  {
  }

  // ---------------------------------------------------------------------
  // Requests
  // ---------------------------------------------------------------------

  /** `request["params"]`: an object (absent is the empty object) or null.
      `arguments` is `None` when it is null and `NoArguments` when absent. */
  datatype Params = ParamsObject(name: Option<string>, arguments: Option<Arguments>) | ParamsNull

  const NoParams := ParamsObject(None, Some(NoArguments))

  datatype Request = Request(methodName: Option<string>, params: Params)

  /** The response: the tool listing, the tool result as the one text
      content item (its JSON rendering is not modelled), or an error. */
  datatype Response = ToolList(tools: seq<Tool>) | CallContent(result: ToolResponse) | RequestError(error: string)

  /** The server's state: the store client and the registered tools. */
  datatype Server = Server(store: GraphStore, tools: seq<Tool>)

  /** `MCPServer()` over a given store. */
  function NewServer(store: GraphStore): (s: Server)
    ensures s.store == store && s.tools == RegisteredTools()
  {
    Server(store, RegisteredTools())
  }

  /** The message of the exception calling `.get` on a null `params` raises. */
  const NoneHasNoGet := "'NoneType' object has no attribute 'get'"

  /** `handle_request` */
  function HandleRequest(server: Server, request: Request): (r: Response)
    ensures request.methodName == Some("tools/list") ==> r == ToolList(server.tools)
    ensures request.methodName == Some("tools/call") && request.params.ParamsObject? ==>
      r == CallContent(HandleToolCall(server.store, request.params.name, request.params.arguments))
    ensures request.methodName == Some("tools/call") && request.params.ParamsNull? ==> r == RequestError(NoneHasNoGet)
    ensures request.methodName != Some("tools/list") && request.methodName != Some("tools/call") ==>
      r == RequestError("Unknown method: " + Shown(request.methodName))
  {
    if request.methodName == Some("tools/list") then ToolList(server.tools)
    else if request.methodName == Some("tools/call") then
      if request.params.ParamsNull? then RequestError(NoneHasNoGet)
      else CallContent(HandleToolCall(server.store, request.params.name, request.params.arguments))
    else RequestError("Unknown method: " + Shown(request.methodName))
  }

  /** A fresh server lists the five registered tools in registry order, and
      a call without params names no tool. */
  lemma ListingOfNewServer(store: GraphStore)
    ensures HandleRequest(NewServer(store), Request(Some("tools/list"), NoParams)) == ToolList(RegisteredTools())
    ensures HandleRequest(NewServer(store), Request(Some("tools/call"), NoParams)) ==
      CallContent(ToolFailure("Unknown tool: None"))
  {
  }

  // ---------------------------------------------------------------------
  // The user context text
  // ---------------------------------------------------------------------

  function ContextHeader(userId: string): seq<string> {
    ["User Context for " + userId + ":", Repeat('=', 30), "", "Available MCP Tools:"]
  }

  const ContextFooter: seq<string> := [
    "",
    "Use the MCP tools above to gather comprehensive information about the user",
    "before making sales calls. Focus on their game history, preferences, and",
    "similar user patterns to personalize the conversation."]

  /** One listing line per tool, in order. */
  function ToolLines(tools: seq<Tool>): (lines: seq<string>)
    ensures |lines| == |tools|
    ensures forall i :: 0 <= i < |tools| ==> lines[i] == "- " + tools[i].name + ": " + tools[i].description
  {
    if tools == [] then []
    else ToolLines(tools[..|tools| - 1]) + ["- " + tools[|tools| - 1].name + ": " + tools[|tools| - 1].description]
  }

  /** The lines `get_context_for_user` joins. */
  function ContextLines(userId: string, tools: seq<Tool>): (lines: seq<string>)
    ensures |lines| == |tools| + 8
    ensures lines[0] == "User Context for " + userId + ":"
    ensures forall i :: 0 <= i < |tools| ==> lines[4 + i] == "- " + tools[i].name + ": " + tools[i].description
    ensures lines[|lines| - 1] == "similar user patterns to personalize the conversation."
  {
    ContextHeader(userId) + ToolLines(tools) + ContextFooter
  }

  /** `get_context_for_user`: the header lines, one line per tool, the
      closing advice, joined by newlines. */
  method GetContextForUser(server: Server, userId: string) returns (context: string)
    ensures context == Join(ContextLines(userId, server.tools), "\n")
  {
    var parts := ContextHeader(userId);
    var i := 0;
    while i < |server.tools|
      invariant 0 <= i <= |server.tools|
      invariant parts == ContextHeader(userId) + ToolLines(server.tools[..i])
    {
      assert server.tools[..i + 1][..i] == server.tools[..i];
      var tool := server.tools[i];
      parts := parts + ["- " + tool.name + ": " + tool.description];
      i := i + 1;
    }
    assert server.tools[..i] == server.tools;
    parts := parts + ContextFooter;
    context := Join(parts, "\n");
  }

  /** The context begins with the user line and ends with the closing
      advice, whatever the tools. */
  lemma ContextFrame(userId: string, tools: seq<Tool>)
    ensures StartsWith(Join(ContextLines(userId, tools), "\n"), "User Context for " + userId + ":" + "\n")
    ensures EndsWith(Join(ContextLines(userId, tools), "\n"), "similar user patterns to personalize the conversation.")
  {
    var lines := ContextLines(userId, tools);
    JoinStartsWith(lines, "\n");
    JoinEndsWith(lines, "\n");
  }
}
