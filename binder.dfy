/**
 * How `MCPServer.callTool` turns the JSON arguments of a call into the Java
 * arguments of the tool method: parameter by parameter, in order, rejecting a
 * missing required argument and coercing the rest with `convertValue`.
 */
module Binder {
  import opened Wrappers
  import opened JavaText
  import opened JavaNumbers
  import opened JsonValues
  import opened JavaExceptions
  import opened ToolModel
  import opened Schema

  /**
   * `targetType.isInstance(value)` for the objects Jackson produces. A
   * primitive class has no instances, and Jackson never produces a Float.
   */
  predicate IsInstance(v: Value, t: JavaType) {
    match t
    case StringClass => v.Str?
    case IntegerClass => v.Integer?
    case LongClass => v.Long?
    case BooleanClass => v.Boolean?
    case DoubleClass => v.Double?
    case _ => false
  }

  predicate IsLongType(t: JavaType) { t == LongClass || t == LongPrimitive }
  predicate IsIntType(t: JavaType) { t == IntegerClass || t == IntPrimitive }
  predicate IsBooleanType(t: JavaType) { t == BooleanClass || t == BooleanPrimitive }
  predicate IsDoubleType(t: JavaType) { t == DoubleClass || t == DoublePrimitive }

  /**
   * `convertValue(value, targetType)`. Null stays null and an instance of the
   * target passes unchanged; otherwise the value's `toString()` text is parsed
   * for Long, Integer, Boolean and Double targets and handed over as is for
   * every other target. `parseDouble` is `Double.parseDouble`, given from
   * outside, returning the `Double.toString` text of the parsed number.
   */
  function ConvertValue(v: Value, t: JavaType, parseDouble: string -> Option<string>): (r: Result<Value, Exception>)
    ensures v.Null? ==> r == Success(Null)
    ensures r.Success? && !v.Null? ==> !r.value.Null?
    ensures r.Failure? ==> r.error == NumberFormat(ToText(v)) || r.error == Raised(DoubleFormat(ToText(v)))
    ensures r.Failure? ==> IsLongType(t) || IsIntType(t) || IsDoubleType(t)
  {
    if v.Null? then Success(Null)
    else if IsInstance(v, t) then Success(v)
    else
      var text := ToText(v);
      if IsLongType(t) then
        match ParseLong(text)
        case Some(n) => Success(Long(n))
        case None => Failure(NumberFormat(text))
      else if IsIntType(t) then
        match ParseInt(text)
        case Some(n) => Success(Integer(n))
        case None => Failure(NumberFormat(text))
      else if IsBooleanType(t) then
        Success(Boolean(ParseBoolean(text)))
      else if IsDoubleType(t) then
        match parseDouble(text)
        case Some(d) => Success(Double(d))
        case None => Failure(Raised(DoubleFormat(text)))
      else
        Success(Str(text))
  }

  /** A JSON integer in the long range binds to a Long parameter as that number, whichever class Jackson chose. */
  lemma DecodedBindsToLong(n: int, t: JavaType, pd: string -> Option<string>)
    requires IsLongType(t) && InLongRange(n)
    ensures ConvertValue(Decoded(n), t, pd) == Success(Long(n))
  {
    ParseLongRoundTrip(n);
  }

  /** A JSON integer beyond the long range is rejected with a NumberFormatException on its digits. */
  lemma DecodedOverflowsLong(n: int, t: JavaType, pd: string -> Option<string>)
    requires IsLongType(t) && !InLongRange(n)
    ensures ConvertValue(Decoded(n), t, pd) == Failure(NumberFormat(ToDecimal(n)))
  {
    ParseLongRejectsOverflow(n);
  }

  /** A JSON integer binds to an Integer parameter exactly when it lies in the int range. */
  lemma DecodedBindsToInt(n: int, t: JavaType, pd: string -> Option<string>)
    requires IsIntType(t)
    ensures InIntRange(n) ==> ConvertValue(Decoded(n), t, pd) == Success(Integer(n))
    ensures !InIntRange(n) ==> ConvertValue(Decoded(n), t, pd) == Failure(NumberFormat(ToDecimal(n)))
  {
    if InIntRange(n) {
      ParseIntRoundTrip(n);
      assert Decoded(n) == Integer(n);
    } else {
      ParseIntRejectsOverflow(n);
      assert ToText(Decoded(n)) == ToDecimal(n);
    }
  }

  /** A text argument binds to a Long parameter exactly when parseLong accepts it. */
  lemma TextBindsToLong(s: string, t: JavaType, pd: string -> Option<string>)
    requires IsLongType(t)
    ensures ConvertValue(Str(s), t, pd).Success? <==> ParseLong(s).Some?
    ensures ParseLong(s).Some? ==> ConvertValue(Str(s), t, pd) == Success(Long(ParseLong(s).value))
    ensures ParseLong(s).None? ==> ConvertValue(Str(s), t, pd) == Failure(NumberFormat(s))
  {
  }

  /** A Boolean parameter receives `parseBoolean` of the argument's text, and binding it never fails. */
  lemma BooleanNeverFails(v: Value, t: JavaType, pd: string -> Option<string>)
    requires IsBooleanType(t) && !v.Null?
    ensures ConvertValue(v, t, pd) == Success(Boolean(ParseBoolean(ToText(v))))
  {
    if v.Boolean? && t == BooleanClass {
      if v.b {
        assert ToText(v) == "true";
        assert ParseBoolean("true") by {
          assert forall i :: 0 <= i < 4 ==> LowerAscii("true"[i]) == "true"[i];
        }
      } else {
        assert ToText(v) == "false";
        assert !ParseBoolean("false") by {
          assert LowerAscii("false"[0]) != "true"[0];
        }
      }
    }
  }

  /** A String parameter receives the argument's text, whatever JSON kind it had. */
  lemma StringReceivesText(v: Value, pd: string -> Option<string>)
    requires !v.Null?
    ensures ConvertValue(v, StringClass, pd) == Success(Str(ToText(v)))
  {
  }

  /** A Float parameter also receives the argument's text, although its schema type is "number". */
  lemma FloatReceivesText(v: Value, t: JavaType, pd: string -> Option<string>)
    requires (t == FloatClass || t == FloatPrimitive) && !v.Null?
    ensures ConvertValue(v, t, pd) == Success(Str(ToText(v)))
    ensures GetJsonType(t) == "number"
  {
  }

  /** The JSON Schema type of a decoded value. */
  function JsonKind(v: Value): (k: string)
    ensures v.Str? ==> k == "string"
    ensures v.Integer? || v.Long? || v.BigInteger? ==> k == "integer"
  {
    match v
    case Null => "null"
    case Str(_) => "string"
    case Integer(_) => "integer"
    case Long(_) => "integer"
    case BigInteger(_) => "integer"
    case Double(_) => "number"
    case Boolean(_) => "boolean"
    case List(_) => "array"
    case Dict(_) => "object"
  }

  /**
   * The published schema and the binder agree: a non-null argument that binds
   * to a parameter becomes a Java value of the JSON type the schema announces,
   * for every parameter class except Float.
   */
  lemma BindingMatchesSchema(v: Value, t: JavaType, pd: string -> Option<string>)
    requires t != FloatClass && t != FloatPrimitive
    requires ConvertValue(v, t, pd).Success? && !v.Null?
    ensures JsonKind(ConvertValue(v, t, pd).value) == GetJsonType(t)
  {
  }

  /** Why an argument list could not be bound. */
  datatype BindFailure =
    | MissingParameter(name: string)     // a required parameter whose argument is absent or null
    | ConversionFailed(error: Exception) // convertValue threw

  /** The Java argument for one parameter, from the call's arguments map. */
  function BindOne(p: ParameterMetadata, args: seq<(string, Value)>, pd: string -> Option<string>): (r: Result<Value, BindFailure>)
    ensures r == Failure(MissingParameter(p.name)) <==> Get(args, p.name).Null? && p.required
    ensures r.Success? ==> ConvertValue(Get(args, p.name), p.paramType, pd) == Success(r.value)
    ensures r.Success? && p.required ==> !r.value.Null?
  {
    var value := Get(args, p.name);
    if value.Null? && p.required then Failure(MissingParameter(p.name))
    else
      match ConvertValue(value, p.paramType, pd)
      case Success(w) => Success(w)
      case Failure(e) => Failure(ConversionFailed(e))
  }

  /** The argument list for parameters `ps`: the first parameter that cannot be bound decides the failure. */
  function Bind(ps: seq<ParameterMetadata>, args: seq<(string, Value)>, pd: string -> Option<string>): (r: Result<seq<Value>, BindFailure>)
    ensures r.Success? ==> |r.value| == |ps|
  {
    if ps == [] then Success([])
    else
      match Bind(ps[..|ps| - 1], args, pd)
      case Failure(f) => Failure(f)
      case Success(vs) =>
        match BindOne(ps[|ps| - 1], args, pd)
        case Failure(f) => Failure(f)
        case Success(w) => Success(vs + [w])
  }

  /** Binding succeeds exactly when every parameter binds, and then the arguments are those bindings, in order. */
  lemma {:induction false} BindSucceeds(ps: seq<ParameterMetadata>, args: seq<(string, Value)>, pd: string -> Option<string>)
    ensures Bind(ps, args, pd).Success? <==> forall i :: 0 <= i < |ps| ==> BindOne(ps[i], args, pd).Success?
    ensures Bind(ps, args, pd).Success? ==>
      forall i :: 0 <= i < |ps| ==> Bind(ps, args, pd).value[i] == BindOne(ps[i], args, pd).value
  {
    if ps != [] {
      var init := ps[..|ps| - 1];
      BindSucceeds(init, args, pd);
      assert forall i :: 0 <= i < |init| ==> init[i] == ps[i];
    }
  }

  /** When parameter `i` is the first that does not bind, the call fails with its failure. */
  lemma {:induction false} BindFailsAtFirst(ps: seq<ParameterMetadata>, args: seq<(string, Value)>, pd: string -> Option<string>, i: int)
    requires 0 <= i < |ps|
    requires forall j :: 0 <= j < i ==> BindOne(ps[j], args, pd).Success?
    requires BindOne(ps[i], args, pd).Failure?
    ensures Bind(ps, args, pd) == Failure(BindOne(ps[i], args, pd).error)
  {
    var init := ps[..|ps| - 1];
    if i < |ps| - 1 {
      assert forall j :: 0 <= j <= i ==> init[j] == ps[j];
      BindFailsAtFirst(init, args, pd, i);
    } else {
      assert forall j :: 0 <= j < |init| ==> init[j] == ps[j];
      BindSucceeds(init, args, pd);
    }
  }

  /** A failure on a prefix of the parameters is the failure of the whole call: binding stops there. */
  lemma {:induction false} BindPrefixFailure(ps: seq<ParameterMetadata>, args: seq<(string, Value)>, pd: string -> Option<string>, k: int)
    requires 0 <= k <= |ps| && Bind(ps[..k], args, pd).Failure?
    ensures Bind(ps, args, pd) == Bind(ps[..k], args, pd)
  {
    if k < |ps| {
      assert ps[..|ps| - 1][..k] == ps[..k];
      BindPrefixFailure(ps[..|ps| - 1], args, pd, k);
    } else {
      assert ps[..k] == ps;
    }
  }

  /** One more parameter extends a successful binding of the ones before it by that parameter's binding. */
  lemma BindStep(ps: seq<ParameterMetadata>, args: seq<(string, Value)>, pd: string -> Option<string>, i: int, vs: seq<Value>)
    requires 0 <= i < |ps| && Bind(ps[..i], args, pd) == Success(vs)
    ensures Bind(ps[..i + 1], args, pd) ==
      match BindOne(ps[i], args, pd)
      case Failure(f) => Failure(f)
      case Success(w) => Success(vs + [w])
  {
    assert ps[..i + 1][..i] == ps[..i];
  }

  /**
   * `callTool`'s argument loop: fills `args[i]` parameter by parameter and
   * returns at the first missing required argument or failed conversion.
   */
  method BindArguments(ps: seq<ParameterMetadata>, arguments: seq<(string, Value)>, pd: string -> Option<string>)
    returns (r: Result<seq<Value>, BindFailure>)
    ensures r == Bind(ps, arguments, pd)
  {
    var args := new Value[|ps|];
    for i := 0 to |ps|
      invariant Bind(ps[..i], arguments, pd) == Success(args[..i])
    {
      BindStep(ps, arguments, pd, i, args[..i]);
      var param := ps[i];
      var value := Get(arguments, param.name);
      if value.Null? && param.required {
        BindPrefixFailure(ps, arguments, pd, i + 1);
        return Failure(MissingParameter(param.name));
      }
      var converted := ConvertValue(value, param.paramType, pd);
      if converted.Failure? {
        BindPrefixFailure(ps, arguments, pd, i + 1);
        return Failure(ConversionFailed(converted.error));
      }
      args[i] := converted.value;
      assert args[..i + 1] == args[..i] + [converted.value];
    }
    assert ps[..|ps|] == ps;
    assert args[..] == args[..|ps|];
    r := Success(args[..]);
  }
}
