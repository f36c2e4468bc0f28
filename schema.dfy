/**
 * The JSON Schema that `MCPServer.listTools` publishes for each tool: an object
 * schema whose `properties` give each parameter's JSON type and description,
 * and whose `required` list, left out when empty, names the required
 * parameters in parameter order (the object keywords of JSON Schema
 * Validation, draft 2020-12, section 6.5.3).
 */
module Schema {
  import opened JsonValues
  import opened ToolModel

  /** `getJsonType`: the JSON Schema type name of a Java parameter class. */
  function GetJsonType(t: JavaType): (s: string)
    ensures s in {"string", "integer", "boolean", "number"}
    ensures s == "integer" <==> t in {IntegerClass, IntPrimitive, LongClass, LongPrimitive}
    ensures s == "boolean" <==> t in {BooleanClass, BooleanPrimitive}
    ensures s == "number" <==> t in {DoubleClass, DoublePrimitive, FloatClass, FloatPrimitive}
  {
    match t
    case StringClass => "string"
    case IntegerClass | IntPrimitive | LongClass | LongPrimitive => "integer"
    case BooleanClass | BooleanPrimitive => "boolean"
    case DoubleClass | DoublePrimitive | FloatClass | FloatPrimitive => "number"
    case OtherClass(_) => "string"
  }

  // The maps below with fixed keys are written as their entries: `put` of
  // distinct keys into a fresh HashMap appends each one.

  /** The schema of one parameter: `{type, description}`. */
  function ParamSchema(p: ParameterMetadata): (v: Value)
    ensures v.Dict? && Keys(v.entries) == {"type", "description"}
    ensures Get(v.entries, "type") == Str(GetJsonType(p.paramType))
    ensures Get(v.entries, "description") == Str(p.description)
  {
    Dict([("type", Str(GetJsonType(p.paramType))), ("description", Str(p.description))])
  }

  /** The parameter names of a tool. */
  function Names(ps: seq<ParameterMetadata>): set<string> {
    set i | 0 <= i < |ps| :: ps[i].name
  }

  /** The `properties` map: one `put` per parameter, in order, so a repeated name keeps its last schema. */
  function PropertiesOf(ps: seq<ParameterMetadata>): (r: seq<(string, Value)>)
    ensures Keys(r) == Names(ps)
  {
    if ps == [] then []
    else
      var init := ps[..|ps| - 1];
      var last := ps[|ps| - 1];
      NamesSnoc(init, last);
      assert init + [last] == ps;
      Put(PropertiesOf(init), last.name, ParamSchema(last))
  }

  lemma NamesSnoc(ps: seq<ParameterMetadata>, p: ParameterMetadata)
    ensures Names(ps + [p]) == Names(ps) + {p.name}
  {
    var qs := ps + [p];
    assert qs[|ps|].name == p.name;
    forall n | n in Names(qs) ensures n in Names(ps) + {p.name} {
      var i :| 0 <= i < |qs| && qs[i].name == n;
      if i < |ps| { assert ps[i].name == n; }
    }
    forall n | n in Names(ps) ensures n in Names(qs) {
      var i :| 0 <= i < |ps| && ps[i].name == n;
      assert qs[i].name == n;
    }
  }

  /** The names of the required parameters, in parameter order. */
  function RequiredNames(ps: seq<ParameterMetadata>): (r: seq<string>)
    ensures |r| <= |ps|
    ensures (forall i :: 0 <= i < |ps| ==> ps[i].required) ==> |r| == |ps|
  {
    if ps == [] then []
    else
      var last := ps[|ps| - 1];
      RequiredNames(ps[..|ps| - 1]) + (if last.required then [last.name] else [])
  }

  /** The names as a JSON list of strings. */
  function StrList(names: seq<string>): (vs: seq<Value>)
    ensures |vs| == |names| && forall i :: 0 <= i < |names| ==> vs[i] == Str(names[i])
  {
    seq(|names|, i requires 0 <= i < |names| => Str(names[i]))
  }

  /** The `inputSchema` of a tool with parameters `ps`. */
  function InputSchema(ps: seq<ParameterMetadata>): (v: Value)
    ensures v.Dict?
    ensures Keys(v.entries) == if RequiredNames(ps) != [] then {"type", "properties", "required"} else {"type", "properties"}
    ensures Get(v.entries, "type") == Str("object")
    ensures Get(v.entries, "properties") == Dict(PropertiesOf(ps))
    ensures RequiredNames(ps) != [] ==> Get(v.entries, "required") == List(StrList(RequiredNames(ps)))
  {
    var properties := Dict(PropertiesOf(ps));
    var required := RequiredNames(ps);
    if |required| > 0 then
      var list := List(StrList(required));
      ThreeEntries(("type", Str("object")), ("properties", properties), ("required", list));
      Dict([("type", Str("object")), ("properties", properties), ("required", list)])
    else
      TwoEntries(("type", Str("object")), ("properties", properties));
      Dict([("type", Str("object")), ("properties", properties)])
  }

  /** The entry `listTools` makes for one registered tool. */
  function ToolEntry(d: ToolMetadata): (v: Value)
    ensures v.Dict? && Keys(v.entries) == {"name", "description", "inputSchema"}
    ensures Get(v.entries, "name") == Str(d.name)
    ensures Get(v.entries, "description") == Str(d.description)
    ensures Get(v.entries, "inputSchema") == InputSchema(d.parameters)
  {
    var schema := InputSchema(d.parameters);
    ThreeEntries(("name", Str(d.name)), ("description", Str(d.description)), ("inputSchema", schema));
    Dict([("name", Str(d.name)), ("description", Str(d.description)), ("inputSchema", schema)])
  }

  /** The `required` list is empty exactly when no parameter is required. */
  lemma {:induction false} RequiredNamesEmpty(ps: seq<ParameterMetadata>)
    ensures RequiredNames(ps) == [] <==> forall i :: 0 <= i < |ps| ==> !ps[i].required
  {
    if ps != [] {
      var init := ps[..|ps| - 1];
      RequiredNamesEmpty(init);
      if forall i :: 0 <= i < |ps| ==> !ps[i].required {
        assert forall i :: 0 <= i < |init| ==> init[i] == ps[i];
      }
    }
  }

  /** The schema has a `required` key exactly when some parameter is required. */
  lemma RequiredKeyPresent(ps: seq<ParameterMetadata>)
    ensures "required" in Keys(InputSchema(ps).entries) <==> exists i :: 0 <= i < |ps| && ps[i].required
  {
    RequiredNamesEmpty(ps);
  }

  /** Every name in `required` is a parameter that is required. */
  lemma {:induction false} RequiredNamesAreRequired(ps: seq<ParameterMetadata>)
    ensures forall k :: 0 <= k < |RequiredNames(ps)| ==>
      exists i :: 0 <= i < |ps| && ps[i].required && ps[i].name == RequiredNames(ps)[k]
  {
    if ps != [] {
      var init := ps[..|ps| - 1];
      RequiredNamesAreRequired(init);
      var r := RequiredNames(ps);
      var last := ps[|ps| - 1];
      assert r == RequiredNames(init) + (if last.required then [last.name] else []);
      forall k | 0 <= k < |r| ensures exists i :: 0 <= i < |ps| && ps[i].required && ps[i].name == r[k] {
        if k < |RequiredNames(init)| {
          var i :| 0 <= i < |init| && init[i].required && init[i].name == RequiredNames(init)[k];
          assert ps[i] == init[i];
        } else {
          assert last.required && last.name == r[k];
          assert ps[|ps| - 1] == last;
        }
      }
    } else {
      assert |RequiredNames(ps)| == 0;
    }
  }

  /** Every required parameter's name is in the list, whatever the optional parameters around it. */
  lemma {:induction false} RequiredNamesComplete(ps: seq<ParameterMetadata>)
    ensures forall i :: 0 <= i < |ps| && ps[i].required ==> ps[i].name in RequiredNames(ps)
  {
    if ps != [] {
      var init := ps[..|ps| - 1];
      RequiredNamesComplete(init);
      var last := ps[|ps| - 1];
      assert RequiredNames(ps) == RequiredNames(init) + (if last.required then [last.name] else []);
      forall i | 0 <= i < |ps| && ps[i].required ensures ps[i].name in RequiredNames(ps) {
        if i < |init| {
          assert ps[i] == init[i];
        }
      }
    }
  }

  /** When every parameter is required, `required` lists all of them in parameter order. */
  lemma {:induction false} RequiredNamesAllRequired(ps: seq<ParameterMetadata>)
    requires forall i :: 0 <= i < |ps| ==> ps[i].required
    ensures |RequiredNames(ps)| == |ps|
    ensures forall i :: 0 <= i < |ps| ==> RequiredNames(ps)[i] == ps[i].name
  {
    if ps != [] {
      RequiredNamesAllRequired(ps[..|ps| - 1]);
    }
  }

  /** Parameter `i` is the last one with its name. */
  predicate IsLastNamed(ps: seq<ParameterMetadata>, i: int) {
    0 <= i < |ps| && forall j :: i < j < |ps| ==> ps[j].name != ps[i].name
  }

  /** The property of a name is the schema of the last parameter with that name. */
  lemma {:induction false} PropertyOfLastNamed(ps: seq<ParameterMetadata>, i: int)
    requires IsLastNamed(ps, i)
    ensures Get(PropertiesOf(ps), ps[i].name) == ParamSchema(ps[i])
  {
    var init := ps[..|ps| - 1];
    if i < |ps| - 1 {
      assert init[i] == ps[i];
      assert IsLastNamed(init, i);
      PropertyOfLastNamed(init, i);
    }
  }

  /** One more parameter adds one `put` to the properties and possibly one name to `required`. */
  lemma PrefixStep(ps: seq<ParameterMetadata>, i: int)
    requires 0 <= i < |ps|
    ensures PropertiesOf(ps[..i + 1]) == Put(PropertiesOf(ps[..i]), ps[i].name, ParamSchema(ps[i]))
    ensures RequiredNames(ps[..i + 1]) == RequiredNames(ps[..i]) + (if ps[i].required then [ps[i].name] else [])
  {
    assert ps[..i + 1][..i] == ps[..i];
  }

  /**
   * `listTools`' inner loop: walks the parameters once, putting each one's
   * schema into `properties` and appending required names, then adds
   * `required` only when it is non-empty.
   */
  method BuildInputSchema(ps: seq<ParameterMetadata>) returns (schema: Value)
    ensures schema == InputSchema(ps)
  {
    var properties: seq<(string, Value)> := [];
    var required: seq<string> := [];
    for i := 0 to |ps|
      invariant properties == PropertiesOf(ps[..i])
      invariant required == RequiredNames(ps[..i])
    {
      var param := ps[i];
      var paramSchema := [("type", Str(GetJsonType(param.paramType))), ("description", Str(param.description))];
      PrefixStep(ps, i);
      properties := Put(properties, param.name, Dict(paramSchema));
      if param.required {
        required := required + [param.name];
      }
    }
    assert ps[..|ps|] == ps;
    if |required| > 0 {
      schema := Dict([("type", Str("object")), ("properties", Dict(properties)), ("required", List(StrList(required)))]);
    } else {
      schema := Dict([("type", Str("object")), ("properties", Dict(properties))]);
    }
  }
}
