/**
 * MCPController: the JSON-RPC 2.0 endpoint `POST /mcp`. It dispatches on the
 * request's `method` to `initialize`, `tools/list` and `tools/call`, echoes the
 * request's `id`, and reports an unknown method as error -32601 and any
 * exception inside the dispatch as error -32603 (section 5.1 of the JSON-RPC
 * 2.0 specification).
 */
module Controller {
  import opened Wrappers
  import opened JsonValues
  import opened JavaExceptions
  import opened Repositories
  import opened ToolModel
  import opened Registry
  import opened Schema
  import opened ToolService
  import opened Server

  /** What the endpoint answers: HTTP 200 with a JSON body, or HTTP 500 for an exception that escapes the handler. */
  datatype HttpReply = Ok(body: Value) | ServerError(error: Exception)

  const MethodNotFound := -32601
  const InternalError := -32603

  /** A JSON-RPC response: version, the request's id, and one `result` or `error` member. */
  function Envelope(id: Value, member: string, v: Value): (r: Value)
    requires member in {"result", "error"}
    ensures r.Dict? && Keys(r.entries) == {"jsonrpc", "id", member}
    ensures Get(r.entries, "jsonrpc") == Str("2.0")
    ensures Get(r.entries, "id") == id
    ensures Get(r.entries, member) == v
  {
    var es := [("jsonrpc", Str("2.0")), ("id", id), (member, v)];
    assert es[1..][1..] == [(member, v)];
    assert Get(es[1..], member) == v;
    assert Keys(es[1..]) == {"id", member};
    Dict(es)
  }

  /** The `error` member: a code and a message. */
  function RpcError(code: int, message: string): (r: Value)
    ensures r.Dict? && Keys(r.entries) == {"code", "message"}
    ensures Get(r.entries, "code") == Integer(code) && Get(r.entries, "message") == Str(message)
  {
    Dict([("code", Integer(code)), ("message", Str(message))])
  }

  /** The `-32603` error for an exception thrown inside the dispatch. */
  function Internal(e: Exception, env: Env): Value {
    RpcError(InternalError, "Internal error: " + GetMessage(e, env.describe))
  }

  /** `handleInitialize`: the protocol version, the server's name and version, and the tools capability. */
  function InitializeResult(): (r: Value)
    ensures r.Dict? && Keys(r.entries) == {"protocolVersion", "serverInfo", "capabilities"}
    ensures Get(r.entries, "protocolVersion") == Str("2024-11-05")
    ensures Get(r.entries, "serverInfo") == Dict([("name", Str("patient-care-system")), ("version", Str("1.0.0"))])
    ensures Get(r.entries, "capabilities") == Dict([("tools", Dict([]))])
  {
    var serverInfo := Dict([("name", Str("patient-care-system")), ("version", Str("1.0.0"))]);
    var capabilities := Dict([("tools", Dict([]))]);
    var es := [("protocolVersion", Str("2024-11-05")), ("serverInfo", serverInfo), ("capabilities", capabilities)];
    assert es[1..][1..] == [("capabilities", capabilities)];
    assert Get(es[1..], "capabilities") == capabilities;
    assert Keys(es[1..]) == {"serverInfo", "capabilities"};
    Dict(es)
  }

  /** `handleToolsList`: `{"tools": [...]}`. */
  function ToolsListResult(list: seq<Value>): Value {
    Dict([("tools", List(list))])
  }

  /** `handleToolsCall`'s result: one text content item holding the tool's output. */
  function ToolsCallResult(text: string): (r: Value)
    ensures r.Dict? && Keys(r.entries) == {"content"}
    ensures Get(r.entries, "content") == List([Dict([("type", Str("text")), ("text", Str(text))])])
  {
    Dict([("content", List([Dict([("type", Str("text")), ("text", Str(text))])]))])
  }

  /**
   * `handleToolsCall(params)`: a null `params` dereferences null; `name` must be
   * a string or null and `arguments` a map or null (a null map becomes empty),
   * otherwise the cast fails; then the server's `callTool` runs.
   */
  ghost function ToolsCall(reg: map<string, ToolMetadata>, t: Tables, params: Value, env: Env): (r: (Tables, Result<Value, Exception>))
    ensures r.1.Failure? ==> r.0 == t
  {
    match params
    case Null => (t, Failure(Raised(NullReference("params"))))
    case Dict(ps) =>
      var name := Get(ps, "name");
      var arguments := Get(ps, "arguments");
      if !(name.Null? || name.Str?) then (t, Failure(Raised(ClassCast(name, "java.lang.String"))))
      else if !(arguments.Null? || arguments.Dict?) then (t, Failure(Raised(ClassCast(arguments, "java.util.Map"))))
      else
        var (t', text) := CallOutcome(reg, t, if name.Null? then None else Some(name.s),
                                      if arguments.Null? then [] else arguments.entries, env);
        (t', Success(ToolsCallResult(text)))
    case _ => (t, Failure(Raised(ClassCast(params, "java.util.Map"))))
  }

  /**
   * `handleMCPRequest(request)` over the registry `reg`, with `order` the
   * iteration order `tools/list` sees. A `method` that is neither a string nor
   * null fails its cast before the try and escapes as HTTP 500; a null one
   * fails the switch inside the try.
   */
  ghost function HandleRequest(reg: map<string, ToolMetadata>, t: Tables, request: seq<(string, Value)>, env: Env,
                               order: seq<string>): (r: (Tables, HttpReply))
    requires forall i :: 0 <= i < |order| ==> order[i] in reg
    ensures Get(request, "method") != Str("tools/call") ==> r.0 == t
    ensures r.1.ServerError? <==> !(Get(request, "method").Null? || Get(request, "method").Str?)
  {
    var rpcMethod := Get(request, "method");
    var id := Get(request, "id");
    if !(rpcMethod.Null? || rpcMethod.Str?) then (t, ServerError(Raised(ClassCast(rpcMethod, "java.lang.String"))))
    else if rpcMethod.Null? then (t, Ok(Envelope(id, "error", Internal(Raised(NullReference("method")), env))))
    else if rpcMethod.s == "initialize" then (t, Ok(Envelope(id, "result", InitializeResult())))
    else if rpcMethod.s == "tools/list" then (t, Ok(Envelope(id, "result", ToolsListResult(Entries(reg, order, ToolEntry)))))
    else if rpcMethod.s == "tools/call" then
      var (t', r) := ToolsCall(reg, t, Get(request, "params"), env);
      (t', Ok(match r
              case Success(v) => Envelope(id, "result", v)
              case Failure(e) => Envelope(id, "error", Internal(e, env))))
    else (t, Ok(Envelope(id, "error", RpcError(MethodNotFound, "Method not found: " + rpcMethod.s))))
  }

  /** Every HTTP 200 reply is a JSON-RPC 2.0 response echoing the request's id, with exactly one of `result` and `error`. */
  lemma RepliesAreResponses(reg: map<string, ToolMetadata>, t: Tables, request: seq<(string, Value)>, env: Env,
                            order: seq<string>)
    requires forall i :: 0 <= i < |order| ==> order[i] in reg
    ensures var reply := HandleRequest(reg, t, request, env, order).1;
      reply.Ok? ==>
        && reply.body.Dict?
        && Get(reply.body.entries, "jsonrpc") == Str("2.0")
        && Get(reply.body.entries, "id") == Get(request, "id")
        && (Keys(reply.body.entries) == {"jsonrpc", "id", "result"} || Keys(reply.body.entries) == {"jsonrpc", "id", "error"})
  {
    if Get(request, "method") == Str("tools/call") {
      ToolsCallBranch(reg, t, request, env, order);
    }
  }

  /** `initialize` answers the fixed server description whatever its params, and stores nothing. */
  lemma InitializeBranch(reg: map<string, ToolMetadata>, t: Tables, request: seq<(string, Value)>, env: Env,
                         order: seq<string>)
    requires forall i :: 0 <= i < |order| ==> order[i] in reg
    requires Get(request, "method") == Str("initialize")
    ensures HandleRequest(reg, t, request, env, order) == (t, Ok(Envelope(Get(request, "id"), "result", InitializeResult())))
  {
  }

  /** A null or absent `method` fails the switch inside the try: error -32603, nothing stored. */
  lemma NullMethodIsInternalError(reg: map<string, ToolMetadata>, t: Tables, request: seq<(string, Value)>, env: Env,
                                  order: seq<string>)
    requires forall i :: 0 <= i < |order| ==> order[i] in reg
    requires Get(request, "method").Null?
    ensures HandleRequest(reg, t, request, env, order) ==
      (t, Ok(Envelope(Get(request, "id"), "error",
                      RpcError(-32603, "Internal error: " + GetMessage(Raised(NullReference("method")), env.describe)))))
  {
  }

  /** A `tools/call` whose `params` is null or absent dereferences null: error -32603, nothing stored. */
  lemma NullParamsIsInternalError(reg: map<string, ToolMetadata>, t: Tables, request: seq<(string, Value)>, env: Env,
                                  order: seq<string>)
    requires forall i :: 0 <= i < |order| ==> order[i] in reg
    requires Get(request, "method") == Str("tools/call") && Get(request, "params").Null?
    ensures HandleRequest(reg, t, request, env, order) ==
      (t, Ok(Envelope(Get(request, "id"), "error",
                      RpcError(-32603, "Internal error: " + GetMessage(Raised(NullReference("params")), env.describe)))))
  {
    ToolsCallBranch(reg, t, request, env, order);
  }

  /**
   * A `tools/call` whose name is a string or null and whose arguments are a map
   * or null always succeeds: `callTool`'s text, whatever it says (a tool's
   * output, "Tool not found", "Missing required parameter", "Error calling
   * tool"), becomes the one text content item, and the tables are `callTool`'s.
   */
  lemma ToolsCallWraps(reg: map<string, ToolMetadata>, t: Tables, params: seq<(string, Value)>, env: Env)
    requires Get(params, "name").Null? || Get(params, "name").Str?
    requires Get(params, "arguments").Null? || Get(params, "arguments").Dict?
    ensures var name := if Get(params, "name").Null? then None else Some(Get(params, "name").s);
      var arguments := if Get(params, "arguments").Null? then [] else Get(params, "arguments").entries;
      ToolsCall(reg, t, Dict(params), env) ==
        (CallOutcome(reg, t, name, arguments, env).0, Success(ToolsCallResult(CallOutcome(reg, t, name, arguments, env).1)))
  {
  }

  /** A string method other than the three answers error -32601 naming it, and stores nothing. */
  lemma UnknownMethod(reg: map<string, ToolMetadata>, t: Tables, request: seq<(string, Value)>, env: Env,
                      order: seq<string>, m: string)
    requires forall i :: 0 <= i < |order| ==> order[i] in reg
    requires Get(request, "method") == Str(m) && m !in {"initialize", "tools/list", "tools/call"}
    ensures HandleRequest(reg, t, request, env, order) ==
      (t, Ok(Envelope(Get(request, "id"), "error", RpcError(-32601, "Method not found: " + m))))
  {
  }

  /** A `method` that is a number, a boolean, a list or a map escapes the handler: HTTP 500, nothing stored. */
  lemma NonStringMethod(reg: map<string, ToolMetadata>, t: Tables, request: seq<(string, Value)>, env: Env,
                        order: seq<string>)
    requires forall i :: 0 <= i < |order| ==> order[i] in reg
    requires !Get(request, "method").Null? && !Get(request, "method").Str?
    ensures HandleRequest(reg, t, request, env, order).0 == t
    ensures HandleRequest(reg, t, request, env, order).1.ServerError?
  {
  }

  /**
   * Calling a tool that is not registered is not a JSON-RPC error: the reply
   * is a result whose text content is the "Tool not found" message.
   */
  lemma UnknownToolIsResult(reg: map<string, ToolMetadata>, t: Tables, request: seq<(string, Value)>, env: Env,
                            order: seq<string>, params: seq<(string, Value)>, name: string)
    requires forall i :: 0 <= i < |order| ==> order[i] in reg
    requires Get(request, "method") == Str("tools/call") && Get(request, "params") == Dict(params)
    requires Get(params, "name") == Str(name) && name !in reg
    requires Get(params, "arguments").Null? || Get(params, "arguments").Dict?
    ensures HandleRequest(reg, t, request, env, order) ==
      (t, Ok(Envelope(Get(request, "id"), "result", ToolsCallResult("{\"error\": \"Tool not found: " + name + "\"}"))))
  {
    ToolsCallBranch(reg, t, request, env, order);
    UnknownToolCall(reg, t, params, env, name);
  }

  /** `handleToolsCall` for a tool that is not registered returns the "Tool not found" text as its result. */
  lemma UnknownToolCall(reg: map<string, ToolMetadata>, t: Tables, params: seq<(string, Value)>, env: Env, name: string)
    requires Get(params, "name") == Str(name) && name !in reg
    requires Get(params, "arguments").Null? || Get(params, "arguments").Dict?
    ensures ToolsCall(reg, t, Dict(params), env) ==
      (t, Success(ToolsCallResult("{\"error\": \"Tool not found: " + name + "\"}")))
  {
    assert NameText(Some(name)) == name;
  }

  /** A `tools/call` request is answered from `handleToolsCall`'s outcome. */
  lemma ToolsCallBranch(reg: map<string, ToolMetadata>, t: Tables, request: seq<(string, Value)>, env: Env,
                        order: seq<string>)
    requires forall i :: 0 <= i < |order| ==> order[i] in reg
    requires Get(request, "method") == Str("tools/call")
    ensures var (t', r) := ToolsCall(reg, t, Get(request, "params"), env);
      HandleRequest(reg, t, request, env, order) ==
        (t', Ok(match r
                case Success(v) => Envelope(Get(request, "id"), "result", v)
                case Failure(e) => Envelope(Get(request, "id"), "error", Internal(e, env))))
  {
    assert "tools/call" != "initialize" && "tools/call" != "tools/list";
  }

  /** A `tools/list` request is answered with the entries in the order given. */
  lemma ToolsListBranch(reg: map<string, ToolMetadata>, t: Tables, request: seq<(string, Value)>, env: Env,
                        order: seq<string>)
    requires forall i :: 0 <= i < |order| ==> order[i] in reg
    requires Get(request, "method") == Str("tools/list")
    ensures HandleRequest(reg, t, request, env, order) ==
      (t, Ok(Envelope(Get(request, "id"), "result", ToolsListResult(Entries(reg, order, ToolEntry)))))
  {
    assert "tools/list" != "initialize";
  }

  /** Leaving out `arguments`, or sending null, is calling with an empty map. */
  lemma AbsentArgumentsAreEmpty(reg: map<string, ToolMetadata>, t: Tables, params: seq<(string, Value)>,
                                params': seq<(string, Value)>, env: Env)
    requires Get(params, "arguments").Null? && Get(params', "arguments") == Dict([])
    requires Get(params, "name") == Get(params', "name")
    ensures ToolsCall(reg, t, Dict(params), env) == ToolsCall(reg, t, Dict(params'), env)
  {
  }

  /** Calls that fail inside the dispatch answer error -32603 and store nothing. */
  lemma FailedCallsStoreNothing(reg: map<string, ToolMetadata>, t: Tables, request: seq<(string, Value)>, env: Env,
                                order: seq<string>)
    requires forall i :: 0 <= i < |order| ==> order[i] in reg
    requires Get(request, "method") == Str("tools/call")
    requires ToolsCall(reg, t, Get(request, "params"), env).1.Failure?
    ensures HandleRequest(reg, t, request, env, order) ==
      (t, Ok(Envelope(Get(request, "id"), "error", Internal(ToolsCall(reg, t, Get(request, "params"), env).1.error, env))))
  {
    ToolsCallBranch(reg, t, request, env, order);
  }

  /** The controller, in front of the server. */
  class MCPController {
    const mcpServer: MCPServer

    constructor (mcpServer: MCPServer)
      ensures this.mcpServer == mcpServer
    {
      this.mcpServer := mcpServer;
    }

    /** `handleToolsCall`. */
    method HandleToolsCall(params: Value, env: Env) returns (r: Result<Value, Exception>)
      requires mcpServer.Valid() && mcpServer.toolService.Wired()
      modifies mcpServer, mcpServer.toolService.patientService.db
      ensures mcpServer.Valid()
      ensures (mcpServer.toolService.patientService.db.Snapshot(), r) ==
        ToolsCall(Build(mcpServer.beans), old(mcpServer.toolService.patientService.db.Snapshot()), params, env)
    {
      if params.Null? {
        return Failure(Raised(NullReference("params")));
      }
      if !params.Dict? {
        return Failure(Raised(ClassCast(params, "java.util.Map")));
      }
      var name := Get(params.entries, "name");
      if !(name.Null? || name.Str?) {
        return Failure(Raised(ClassCast(name, "java.lang.String")));
      }
      var arguments := Get(params.entries, "arguments");
      if !(arguments.Null? || arguments.Dict?) {
        return Failure(Raised(ClassCast(arguments, "java.util.Map")));
      }
      var argumentMap := if arguments.Null? then [] else arguments.entries;
      var toolResult := mcpServer.CallTool(if name.Null? then None else Some(name.s), argumentMap, env);
      r := Success(ToolsCallResult(toolResult));
    }

    /** `handleMCPRequest`; `order` is the order `tools/list` listed the tools in, empty for other methods. */
    method HandleMCPRequest(request: seq<(string, Value)>, env: Env) returns (reply: HttpReply, ghost order: seq<string>)
      requires mcpServer.Valid() && mcpServer.toolService.Wired()
      modifies mcpServer, mcpServer.toolService.patientService.db
      ensures mcpServer.Valid()
      ensures forall i :: 0 <= i < |order| ==> order[i] in Build(mcpServer.beans)
      ensures Get(request, "method") == Str("tools/list") ==> IsOrdering(order, Build(mcpServer.beans))
      ensures (mcpServer.toolService.patientService.db.Snapshot(), reply) ==
        HandleRequest(Build(mcpServer.beans), old(mcpServer.toolService.patientService.db.Snapshot()), request, env, order)
    {
      order := [];
      ghost var t0 := mcpServer.toolService.patientService.db.Snapshot();
      var rpcMethod := Get(request, "method");
      if !(rpcMethod.Null? || rpcMethod.Str?) {
        return ServerError(Raised(ClassCast(rpcMethod, "java.lang.String"))), order;
      }
      var id := Get(request, "id");
      if rpcMethod.Null? {
        return Ok(Envelope(id, "error", Internal(Raised(NullReference("method")), env))), order;
      }
      if rpcMethod.s == "initialize" {
        reply := Ok(Envelope(id, "result", InitializeResult()));
      } else if rpcMethod.s == "tools/list" {
        var list;
        list, order := mcpServer.ListTools();
        ToolsListBranch(Build(mcpServer.beans), t0, request, env, order);
        reply := Ok(Envelope(id, "result", ToolsListResult(list)));
      } else if rpcMethod.s == "tools/call" {
        ToolsCallBranch(Build(mcpServer.beans), t0, request, env, order);
        var result := HandleToolsCall(Get(request, "params"), env);
        match result {
          case Success(v) => reply := Ok(Envelope(id, "result", v));
          case Failure(e) => reply := Ok(Envelope(id, "error", Internal(e, env)));
        }
      } else {
        reply := Ok(Envelope(id, "error", RpcError(MethodNotFound, "Method not found: " + rpcMethod.s)));
      }
    }
  }
}
