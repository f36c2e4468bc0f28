/**
 * The tool registry that `MCPServer.initializeTools` builds: every `@Tool`
 * method of every bean, keyed by its tool name, with the `@ToolParam`
 * parameters in declaration order. Methods are visited bean by bean and
 * `HashMap.put` replaces an entry, so a name declared twice keeps the later
 * declaration.
 */
module Registry {
  import opened Wrappers
  import opened ToolModel

  /** The descriptor of one annotated parameter. */
  function Describe(p: ParamDecl): (m: ParameterMetadata)
    requires p.annotation.Some?
    ensures m.paramType == p.paramType
    ensures (m.name, m.description, m.required) ==
      (p.annotation.value.name, p.annotation.value.description, p.annotation.value.required)
  {
    ParameterMetadata(p.annotation.value.name, p.annotation.value.description, p.annotation.value.required, p.paramType)
  }

  /** The annotated parameters of a method, in declaration order; a parameter without `@ToolParam` is skipped. */
  function ParametersOf(ps: seq<ParamDecl>): (r: seq<ParameterMetadata>)
    ensures |r| <= |ps|
  {
    if ps == [] then []
    else
      var last := ps[|ps| - 1];
      ParametersOf(ps[..|ps| - 1]) + (if last.annotation.Some? then [Describe(last)] else [])
  }

  /** Taking parameters is compositional: the descriptors of `ps + qs` are those of `ps` followed by those of `qs`. */
  lemma {:induction false} ParametersOfAppend(ps: seq<ParamDecl>, qs: seq<ParamDecl>)
    ensures ParametersOf(ps + qs) == ParametersOf(ps) + ParametersOf(qs)
  {
    if qs == [] {
      assert ps + qs == ps;
    } else {
      var q := qs[|qs| - 1];
      assert (ps + qs)[..|ps + qs| - 1] == ps + qs[..|qs| - 1];
      ParametersOfAppend(ps, qs[..|qs| - 1]);
    }
  }

  /** When every parameter is annotated, there is one descriptor per parameter, position by position. */
  lemma {:induction false} ParametersOfAnnotated(ps: seq<ParamDecl>)
    requires forall i :: 0 <= i < |ps| ==> ps[i].annotation.Some?
    ensures |ParametersOf(ps)| == |ps|
    ensures forall i :: 0 <= i < |ps| ==> ParametersOf(ps)[i] == Describe(ps[i])
  {
    if ps != [] {
      ParametersOfAnnotated(ps[..|ps| - 1]);
    }
  }

  /** The descriptor of a `@Tool` method. */
  function MetadataOf(m: MethodDecl): (d: ToolMetadata)
    requires m.Annotated?
    ensures d.name == m.tool.name && d.description == m.tool.description && d.handler == m.target
    ensures d.parameters == ParametersOf(m.params)
  {
    ToolMetadata(m.tool.name, m.tool.description, m.target, ParametersOf(m.params))
  }

  /** One step of the scan: `tools.put(toolName, metadata)` for a `@Tool` method, nothing otherwise. */
  function Register(reg: map<string, ToolMetadata>, m: MethodDecl): (r: map<string, ToolMetadata>)
    ensures m.Annotated? ==> r == reg[m.tool.name := MetadataOf(m)]
    ensures m.Unannotated? ==> r == reg
  {
    if m.Annotated? then reg[m.tool.name := MetadataOf(m)] else reg
  }

  /** The scan over a sequence of methods, in order. */
  function RegisterAll(reg: map<string, ToolMetadata>, ms: seq<MethodDecl>): (r: map<string, ToolMetadata>)
    ensures reg.Keys <= r.Keys
  {
    if ms == [] then reg else Register(RegisterAll(reg, ms[..|ms| - 1]), ms[|ms| - 1])
  }

  /** The declared methods of all beans, bean after bean. */
  function AllMethods(beans: seq<Bean>): (ms: seq<MethodDecl>)
    ensures beans != [] ==> ms == AllMethods(beans[..|beans| - 1]) + beans[|beans| - 1]
  {
    if beans == [] then [] else AllMethods(beans[..|beans| - 1]) + beans[|beans| - 1]
  }

  /** The registry `initializeTools` leaves in `tools`. */
  function Build(beans: seq<Bean>): (r: map<string, ToolMetadata>)
    ensures forall n :: n in r ==> r[n].name == n
  {
    RegisterAllNamesMatch(map[], AllMethods(beans));
    RegisterAll(map[], AllMethods(beans))
  }

  /** The tool names declared by a sequence of methods. */
  function DeclaredNames(ms: seq<MethodDecl>): set<string> {
    set i | 0 <= i < |ms| && ms[i].Annotated? :: ms[i].tool.name
  }

  /** The keys after scanning are the keys before plus the declared names, and nothing else. */
  lemma {:induction false} RegisterAllKeys(reg: map<string, ToolMetadata>, ms: seq<MethodDecl>)
    ensures RegisterAll(reg, ms).Keys == reg.Keys + DeclaredNames(ms)
  {
    if ms != [] {
      var init := ms[..|ms| - 1];
      RegisterAllKeys(reg, init);
      var m := ms[|ms| - 1];
      forall n | n in DeclaredNames(ms) ensures n in DeclaredNames(init) + (if m.Annotated? then {m.tool.name} else {}) {
        var i :| 0 <= i < |ms| && ms[i].Annotated? && ms[i].tool.name == n;
        if i < |ms| - 1 {
          assert init[i] == ms[i];
        }
      }
      forall n | n in DeclaredNames(init) ensures n in DeclaredNames(ms) {
        var i :| 0 <= i < |init| && init[i].Annotated? && init[i].tool.name == n;
        assert ms[i] == init[i];
      }
      if m.Annotated? {
        assert m.tool.name in DeclaredNames(ms) by {
          assert ms[|ms| - 1].tool.name == m.tool.name;
        }
      }
    }
  }

  /** A name no scanned method declares keeps whatever the registry held for it. */
  lemma {:induction false} RegisterAllUntouched(reg: map<string, ToolMetadata>, ms: seq<MethodDecl>, n: string)
    requires n !in DeclaredNames(ms)
    ensures (n in RegisterAll(reg, ms)) == (n in reg)
    ensures n in reg ==> RegisterAll(reg, ms)[n] == reg[n]
  {
    if ms != [] {
      var init := ms[..|ms| - 1];
      forall i | 0 <= i < |init| && init[i].Annotated? ensures init[i].tool.name != n {
        assert ms[i] == init[i];
      }
      RegisterAllUntouched(reg, init, n);
      var m := ms[|ms| - 1];
      if m.Annotated? {
        assert ms[|ms| - 1].tool.name != n;
      }
    }
  }

  /** Method `i` is a `@Tool` method and no later method declares the same tool name. */
  predicate IsLastDeclaration(ms: seq<MethodDecl>, i: int) {
    && 0 <= i < |ms| && ms[i].Annotated?
    && forall j :: i < j < |ms| && ms[j].Annotated? ==> ms[j].tool.name != ms[i].tool.name
  }

  /**
   * A name declared more than once keeps its last declaration: if method `i` is
   * the last one declaring its name, the registry maps that name to its descriptor.
   */
  lemma {:induction false} RegisterAllLastWins(reg: map<string, ToolMetadata>, ms: seq<MethodDecl>, i: int)
    requires IsLastDeclaration(ms, i)
    ensures ms[i].tool.name in RegisterAll(reg, ms)
    ensures RegisterAll(reg, ms)[ms[i].tool.name] == MetadataOf(ms[i])
  {
    var init := ms[..|ms| - 1];
    var m := ms[|ms| - 1];
    if i < |ms| - 1 {
      assert init[i] == ms[i];
      forall j | i < j < |init| && init[j].Annotated? ensures init[j].tool.name != init[i].tool.name {
        assert ms[j] == init[j];
      }
      assert IsLastDeclaration(init, i);
      RegisterAllLastWins(reg, init, i);
    }
  }

  /** Every registered descriptor carries the name it is registered under. */
  lemma {:induction false} RegisterAllNamesMatch(reg: map<string, ToolMetadata>, ms: seq<MethodDecl>)
    requires forall n :: n in reg ==> reg[n].name == n
    ensures forall n :: n in RegisterAll(reg, ms) ==> RegisterAll(reg, ms)[n].name == n
  {
    if ms != [] {
      RegisterAllNamesMatch(reg, ms[..|ms| - 1]);
    }
  }

  /**
   * The registry built from the beans: its keys are exactly the declared tool
   * names, each descriptor is registered under its own name, and each name maps
   * to its last declaration.
   */
  lemma BuildCharacterised(beans: seq<Bean>)
    ensures Build(beans).Keys == DeclaredNames(AllMethods(beans))
    ensures forall n :: n in Build(beans) ==> Build(beans)[n].name == n
    ensures forall i :: IsLastDeclaration(AllMethods(beans), i) ==>
      Build(beans)[AllMethods(beans)[i].tool.name] == MetadataOf(AllMethods(beans)[i])
  {
    var ms := AllMethods(beans);
    RegisterAllKeys(map[], ms);
    RegisterAllNamesMatch(map[], ms);
    forall i | IsLastDeclaration(ms, i)
      ensures Build(beans)[ms[i].tool.name] == MetadataOf(ms[i])
    {
      RegisterAllLastWins(map[], ms, i);
    }
  }

  /** Methods that carry no `@Tool` annotation leave the registry as it is. */
  lemma {:induction false} UnannotatedIgnored(reg: map<string, ToolMetadata>, ms: seq<MethodDecl>)
    requires forall i :: 0 <= i < |ms| ==> ms[i].Unannotated?
    ensures RegisterAll(reg, ms) == reg
  {
    if ms != [] {
      UnannotatedIgnored(reg, ms[..|ms| - 1]);
    }
  }

  /** Scanning `ms` then `ns` is scanning `ms + ns`. */
  lemma {:induction false} RegisterAllAppend(reg: map<string, ToolMetadata>, ms: seq<MethodDecl>, ns: seq<MethodDecl>)
    ensures RegisterAll(reg, ms + ns) == RegisterAll(RegisterAll(reg, ms), ns)
  {
    if ns == [] {
      assert ms + ns == ms;
    } else {
      assert (ms + ns)[..|ms + ns| - 1] == ms + ns[..|ns| - 1];
      RegisterAllAppend(reg, ms, ns[..|ns| - 1]);
    }
  }
}
