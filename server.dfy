/**
 * MCPServer: builds the tool registry once from the beans' annotations, lists
 * the tools with their input schemas, and calls a tool by name with a map of
 * JSON arguments, reporting every failure as a JSON error text.
 */
module Server {
  import opened Wrappers
  import opened JsonValues
  import opened JavaExceptions
  import opened Repositories
  import opened ToolModel
  import opened Registry
  import opened Schema
  import opened Binder
  import opened JavaNumbers
  import opened ToolService

  /** The text `callTool` returns when a call fails past the registry lookup. */
  function CallError(message: string): string {
    ErrorPayload("Error calling tool: " + message)
  }

  /** A Java string in a concatenation: a null reference prints as "null". */
  function NameText(name: Option<string>): string {
    match name
    case None => "null"
    case Some(n) => n
  }

  /**
   * What `callTool(toolName, arguments)` returns, and the tables it leaves,
   * for the registry `reg`: an unregistered (or null) name, a missing required
   * argument, a failed conversion or a failed `invoke` each give their error
   * text; otherwise the tool runs and its result's `toString()` is returned, or
   * "{}" for null.
   */
  ghost function CallOutcome(reg: map<string, ToolMetadata>, t: Tables, toolName: Option<string>,
                             arguments: seq<(string, Value)>, env: Env): (r: (Tables, string))
    ensures (toolName.None? || toolName.value !in reg) ==>
      r == (t, "{\"error\": \"Tool not found: " + NameText(toolName) + "\"}")
  {
    if toolName.None? || toolName.value !in reg then
      (t, "{\"error\": \"Tool not found: " + NameText(toolName) + "\"}")
    else
      var d := reg[toolName.value];
      match Bind(d.parameters, arguments, env.parseDouble)
      case Failure(MissingParameter(n)) => (t, "{\"error\": \"Missing required parameter: " + n + "\"}")
      case Failure(ConversionFailed(e)) => (t, CallError(GetMessage(e, env.describe)))
      case Success(args) =>
        var (t', result) := RunTool(t, d.handler, args, env);
        match result
        case Failure(e) => (t', CallError(GetMessage(e, env.describe)))
        case Success(v) => (t', if v.Null? then "{}" else ToText(v))
  }

  /** The parameter loop of `initializeTools`: one descriptor per `@ToolParam` parameter, in order. */
  method ScanParameters(params: seq<ParamDecl>) returns (parameters: seq<ParameterMetadata>)
    ensures parameters == ParametersOf(params)
  {
    parameters := [];
    for k := 0 to |params|
      invariant parameters == ParametersOf(params[..k])
    {
      var param := params[k];
      assert params[..k + 1][..k] == params[..k];
      if param.annotation.Some? {
        var toolParam := param.annotation.value;
        parameters := parameters + [ParameterMetadata(toolParam.name, toolParam.description, toolParam.required, param.paramType)];
      }
    }
    assert params[..|params|] == params;
  }

  /** The method loop of `initializeTools` over one bean: `put` for each `@Tool` method, in order. */
  method ScanBean(registry: map<string, ToolMetadata>, methods: seq<MethodDecl>) returns (r: map<string, ToolMetadata>)
    ensures r == RegisterAll(registry, methods)
  {
    r := registry;
    for j := 0 to |methods|
      invariant r == RegisterAll(registry, methods[..j])
    {
      var m := methods[j];
      assert methods[..j + 1][..j] == methods[..j];
      if m.Annotated? {
        var parameters := ScanParameters(m.params);
        r := r[m.tool.name := ToolMetadata(m.tool.name, m.tool.description, m.target, parameters)];
      }
    }
    assert methods[..|methods|] == methods;
  }

  /** The body of `listTools`' loop for one tool: its name, description and input schema. */
  method BuildToolEntry(metadata: ToolMetadata) returns (tool: Value)
    ensures tool == ToolEntry(metadata)
  {
    var inputSchema := BuildInputSchema(metadata.parameters);
    tool := Dict([("name", Str(metadata.name)), ("description", Str(metadata.description)), ("inputSchema", inputSchema)]);
  }

  /** A non-empty set of names has an element. */
  lemma NonEmptyHasName(s: set<string>)
    requires s != {}
    ensures exists n :: n in s
  {
    if forall n :: n !in s {
      assert false;
    }
  }

  /** The entries `entry` makes for the tools named by `order`, in that order. */
  function Entries(registry: map<string, ToolMetadata>, order: seq<string>, entry: ToolMetadata -> Value): (r: seq<Value>)
    requires forall i :: 0 <= i < |order| ==> order[i] in registry
    ensures |r| == |order|
  {
    if order == [] then []
    else Entries(registry, order[..|order| - 1], entry) + [entry(registry[order[|order| - 1]])]
  }

  /** One more name adds its tool's entry at the end. */
  lemma EntriesSnoc(registry: map<string, ToolMetadata>, order: seq<string>, name: string, entry: ToolMetadata -> Value)
    requires forall i :: 0 <= i < |order| ==> order[i] in registry
    requires name in registry
    ensures forall i :: 0 <= i < |order + [name]| ==> (order + [name])[i] in registry
    ensures Entries(registry, order + [name], entry) == Entries(registry, order, entry) + [entry(registry[name])]
  {
    assert (order + [name])[..|order|] == order;
  }

  /** Entry `i` is the entry of the `i`-th name. */
  lemma {:induction false} EntriesAt(registry: map<string, ToolMetadata>, order: seq<string>, entry: ToolMetadata -> Value)
    requires forall i :: 0 <= i < |order| ==> order[i] in registry
    ensures |Entries(registry, order, entry)| == |order|
    ensures forall i :: 0 <= i < |order| ==> Entries(registry, order, entry)[i] == entry(registry[order[i]])
  {
    if order != [] {
      EntriesAt(registry, order[..|order| - 1], entry);
    }
  }

  /** `order` names every registered tool exactly once. */
  predicate IsOrdering(order: seq<string>, registry: map<string, ToolMetadata>) {
    && |order| == |registry|
    && (forall i :: 0 <= i < |order| ==> order[i] in registry)
    && (forall n :: n in registry ==> n in order)
  }

  /** A sequence naming every key once lists every tool once. */
  lemma EntriesOfPermutation(registry: map<string, ToolMetadata>, order: seq<string>, entry: ToolMetadata -> Value)
    requires IsOrdering(order, registry)
    ensures |Entries(registry, order, entry)| == |registry|
    ensures forall n :: n in registry ==> entry(registry[n]) in Entries(registry, order, entry)
    ensures forall i :: 0 <= i < |order| ==>
      exists n :: n in registry && Entries(registry, order, entry)[i] == entry(registry[n])
  {
    EntriesAt(registry, order, entry);
    var list := Entries(registry, order, entry);
    forall n | n in registry ensures entry(registry[n]) in list {
      var i :| 0 <= i < |order| && order[i] == n;
      assert list[i] == entry(registry[n]);
    }
  }

  /** Midway through the loop of `listTools`: `order` names, once each, the tools no longer `remaining`. */
  ghost predicate Visited(registry: map<string, ToolMetadata>, remaining: set<string>, order: seq<string>) {
    && remaining <= registry.Keys
    && |order| + |remaining| == |registry.Keys|
    && (forall i :: 0 <= i < |order| ==> order[i] in registry && order[i] !in remaining)
    && (forall n :: n in registry && n !in remaining ==> n in order)
  }

  /** Visiting one more remaining tool keeps `Visited`. */
  lemma VisitStep(registry: map<string, ToolMetadata>, remaining: set<string>, order: seq<string>, name: string)
    requires Visited(registry, remaining, order) && name in remaining
    ensures Visited(registry, remaining - {name}, order + [name])
  {
  }

  /** With nothing remaining, the visited names are an ordering of the registry. */
  lemma VisitDone(registry: map<string, ToolMetadata>, order: seq<string>)
    requires Visited(registry, {}, order)
    ensures IsOrdering(order, registry)
  {
  }

  /**
   * The loop of `listTools` over the registry's values: one entry per tool, in
   * an order the model leaves open, as HashMap's iteration order is.
   */
  method ListEntries(registry: map<string, ToolMetadata>) returns (list: seq<Value>, ghost order: seq<string>)
    ensures IsOrdering(order, registry) && list == Entries(registry, order, ToolEntry)
  {
    var remaining := registry.Keys;
    order := [];
    list := [];
    while remaining != {}
      invariant Visited(registry, remaining, order)
      invariant forall i :: 0 <= i < |order| ==> order[i] in registry
      invariant list == Entries(registry, order, ToolEntry)
      decreases remaining
    {
      NonEmptyHasName(remaining);
      var name :| name in remaining;
      var tool := BuildToolEntry(registry[name]);
      EntriesSnoc(registry, order, name, ToolEntry);
      VisitStep(registry, remaining, order, name);
      list := list + [tool];
      order := order + [name];
      remaining := remaining - {name};
    }
    VisitDone(registry, order);
  }

  /**
   * For the application's registry, arguments that bind always reach the tool:
   * the call returns the tool's own text and leaves what the tool leaves.
   */
  lemma BoundCallsReachTheTool(t: Tables, name: string, arguments: seq<(string, Value)>, env: Env)
    requires name in Build(Beans)
    requires Bind(Build(Beans)[name].parameters, arguments, env.parseDouble).Success?
    ensures var d := Build(Beans)[name];
      var run := RunTool(t, d.handler, Bind(d.parameters, arguments, env.parseDouble).value, env);
      run.1.Success? && CallOutcome(Build(Beans), t, Some(name), arguments, env) == (run.0, run.1.value.s)
  {
    BoundArgumentsFit(name, arguments, env.parseDouble);
  }

  /**
   * For the application's registry, the first parameter whose argument is
   * absent or null, after parameters that all bind, is reported by name and
   * nothing is stored.
   */
  lemma MissingArgumentReported(t: Tables, name: string, arguments: seq<(string, Value)>, env: Env, j: int)
    requires name in Build(Beans)
    requires 0 <= j < |Build(Beans)[name].parameters|
    requires forall k :: 0 <= k < j ==> BindOne(Build(Beans)[name].parameters[k], arguments, env.parseDouble).Success?
    requires Get(arguments, Build(Beans)[name].parameters[j].name).Null?
    ensures CallOutcome(Build(Beans), t, Some(name), arguments, env) ==
      (t, "{\"error\": \"Missing required parameter: " + Build(Beans)[name].parameters[j].name + "\"}")
  {
    var ps := Build(Beans)[name].parameters;
    RegisteredParameters(name);
    assert BindOne(ps[j], arguments, env.parseDouble) == Failure(MissingParameter(ps[j].name));
    BindFailsAtFirst(ps, arguments, env.parseDouble, j);
  }

  /**
   * A conversion that throws while binding answers "Error calling tool: <message>"
   * and leaves the tables as they were: the tool is never invoked.
   */
  lemma ConversionFailureReported(reg: map<string, ToolMetadata>, t: Tables, name: string, arguments: seq<(string, Value)>,
                                  env: Env, e: Exception)
    requires name in reg
    requires Bind(reg[name].parameters, arguments, env.parseDouble) == Failure(ConversionFailed(e))
    ensures CallOutcome(reg, t, Some(name), arguments, env) ==
      (t, ErrorPayload("Error calling tool: " + GetMessage(e, env.describe)))
  {
  }

  /** The lookup tools leave the tables as they were, whatever the registry and the arguments. */
  lemma LookupsReadOnly(reg: map<string, ToolMetadata>, t: Tables, name: string, arguments: seq<(string, Value)>, env: Env)
    requires name in reg
    requires reg[name].handler in {GetPatientByName, GetPatientById, GetAllPatients, GetProgressNotes, GetCarePlan, GetAppointments}
    ensures CallOutcome(reg, t, Some(name), arguments, env).0 == t
  {
    var d := reg[name];
    var b := Bind(d.parameters, arguments, env.parseDouble);
    if b.Success? {
      assert RunTool(t, d.handler, b.value, env).0 == t;
    }
  }

  /** The descriptor registered for `get_patient_by_id`: one required Long parameter, `patient_id`. */
  lemma GetPatientByIdRegistered()
    ensures "get_patient_by_id" in Build(Beans)
    ensures Build(Beans)["get_patient_by_id"] ==
      ToolMetadata("get_patient_by_id", "Retrieve patient details by patient ID", GetPatientById,
                   [ParameterMetadata("patient_id", "Numeric ID of the patient", true, LongClass)])
  {
    Registered(1);
    assert ToolTable[1].tool.name == "get_patient_by_id";
  }

  /** The text "7" binds to a Long parameter as 7. */
  lemma SevenBindsToLong(p: ParameterMetadata, pd: string -> Option<string>)
    requires p.paramType == LongClass
    ensures Bind([p], [(p.name, Str("7"))], pd) == Success([Long(7)])
  {
    ParseLongAccepts();
    TextBindsToLong("7", LongClass, pd);
    var arguments := [(p.name, Str("7"))];
    assert Get(arguments, p.name) == Str("7");
    assert BindOne(p, arguments, pd) == Success(Long(7));
    assert [p][..0] == [] && [p][0] == p;
    assert [] + [Long(7)] == [Long(7)];
  }

  /**
   * A patient id sent as JSON text binds to the Long parameter: calling
   * `get_patient_by_id` with {"patient_id": "7"} runs the tool on id 7.
   */
  lemma PatientIdAsText(t: Tables, env: Env)
    ensures CallOutcome(Build(Beans), t, Some("get_patient_by_id"), [("patient_id", Str("7"))], env) ==
      (t, GetPatientByIdTool(t, 7, env))
  {
    GetPatientByIdRegistered();
    SevenBindsToLong(ParameterMetadata("patient_id", "Numeric ID of the patient", true, LongClass), env.parseDouble);
    assert ArgsMatch([Long(7)], Signature(GetPatientById));
  }

  /** The server, with the application's beans and the tool service whose methods the tools call. */
  class MCPServer {
    const beans: seq<Bean>
    const toolService: MCPToolService
    /** The registry; None until `InitializeTools` first runs. */
    var tools: Option<map<string, ToolMetadata>>

    constructor (beans: seq<Bean>, toolService: MCPToolService)
      ensures this.beans == beans && this.toolService == toolService && tools == None
    {
      this.beans := beans;
      this.toolService := toolService;
      tools := None;
    }

    /** Once built, the registry is the one the beans declare. */
    predicate Valid()
      reads this
    {
      tools.Some? ==> tools.value == Build(beans)
    }

    /**
     * `initializeTools`: does nothing once the registry exists; otherwise scans
     * every declared method of every bean and registers each `@Tool` method.
     */
    method InitializeTools()
      modifies this
      ensures old(tools).Some? ==> tools == old(tools)
      ensures old(tools).None? ==> tools == Some(Build(beans))
    {
      if tools.Some? {
        return;
      }
      var registry: map<string, ToolMetadata> := map[];
      for b := 0 to |beans|
        invariant registry == RegisterAll(map[], AllMethods(beans[..b]))
      {
        assert beans[..b + 1][..b] == beans[..b];
        RegisterAllAppend(map[], AllMethods(beans[..b]), beans[b]);
        registry := ScanBean(registry, beans[b]);
      }
      assert beans[..|beans|] == beans;
      tools := Some(registry);
    }

    /**
     * `listTools`: the entries of the registered tools in the order `order`,
     * which names each tool once and is otherwise left open, as HashMap's
     * iteration order is; `EntriesOfPermutation` says what that list holds.
     */
    method ListTools() returns (list: seq<Value>, ghost order: seq<string>)
      requires Valid()
      modifies this
      ensures tools == Some(Build(beans))
      ensures IsOrdering(order, Build(beans)) && list == Entries(Build(beans), order, ToolEntry)
    {
      InitializeTools();
      list, order := ListEntries(tools.value);
    }

    /** `callTool(toolName, arguments)`. */
    method CallTool(toolName: Option<string>, arguments: seq<(string, Value)>, env: Env) returns (s: string)
      requires Valid() && toolService.Wired()
      modifies this, toolService.patientService.db
      ensures tools == Some(Build(beans))
      ensures (toolService.patientService.db.Snapshot(), s) ==
        CallOutcome(Build(beans), old(toolService.patientService.db.Snapshot()), toolName, arguments, env)
    {
      InitializeTools();
      if toolName.None? || toolName.value !in tools.value {
        return "{\"error\": \"Tool not found: " + NameText(toolName) + "\"}";
      }
      var metadata := tools.value[toolName.value];
      var args := BindArguments(metadata.parameters, arguments, env.parseDouble);
      match args {
        case Failure(MissingParameter(n)) =>
          return "{\"error\": \"Missing required parameter: " + n + "\"}";
        case Failure(ConversionFailed(e)) =>
          return CallError(GetMessage(e, env.describe));
        case Success(values) =>
          var result := toolService.Invoke(metadata.handler, values, env);
          match result {
            case Failure(e) => s := CallError(GetMessage(e, env.describe));
            case Success(v) => s := if v.Null? then "{}" else ToText(v);
          }
      }
    }
  }
}
