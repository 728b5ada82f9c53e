/** The proxy factory: it keeps a cache from interface type to synthesised
    implementation type, synthesises on a miss, and hands out instances whose
    every method forwards its call to the factory's single interceptor.

    The synthesised type is modelled by the record it amounts to (its name,
    the interface it implements, its constructor signature and its method
    table); the bytecode of a forwarding body is modelled by what it does when
    called, `Proxy.Invoke`. */
module Proxies {
  import opened Wrappers
  import opened Reflection
  import opened Interception

  /** The exceptions the factory lets escape. */
  datatype Error =
    | ArgumentNull(paramName: string)   // ArgumentNullException
    | NullReference(message: string)    // NullReferenceException
    | AmbiguousMatch                    // AmbiguousMatchException from GetMethod
    | EmptyTypeName                     // ArgumentException from DefineType: empty name
    | DuplicateTypeName(name: string)   // ArgumentException from DefineType: name already in the module
    | DuplicateKey                      // ArgumentException from Dictionary.Add

  const NoConstructorMessage := "No constructor defined."

  /** The message of a NullReferenceException thrown without one. */
  const DefaultNullReferenceMessage := "Object reference not set to an instance of an object."

  /** The `IInterceptor` type: the one parameter of every synthesised constructor. */
  const InterceptorType := TypeId("IInterceptor", Some("SWZR.Dynamxy.IInterceptor, SWZR.Dynamxy"))

  /** What `typeof(TInterceptor).GetMethod("InterceptMethod")` finds: one
      public method, none (the interface method is implemented explicitly, so
      it is private), or several (it is overloaded). */
  datatype MethodLookup = Found | NotFound | Ambiguous

  /** The type argument `TInterceptor`: its name and the result of looking up
      its public `InterceptMethod`. */
  datatype InterceptorTypeInfo = InterceptorTypeInfo(name: string, interceptMethod: MethodLookup)

  /** What the factory constructor keeps: the interceptor type, the
      interceptor, and the names of the dynamic assembly and module. */
  datatype Config = Config(interceptorType: InterceptorTypeInfo, interceptor: Interceptor,
                           assemblyName: string, moduleName: string)

  /** The checks and defaults of the factory constructor; None stands for null. */
  function Configure(interceptorType: InterceptorTypeInfo, interceptor: Option<Interceptor>,
                     assemblyName: Option<string>, moduleName: Option<string>): (r: Result<Config, Error>)
    ensures r.Err? <==> interceptor.None?
    ensures r.Err? ==> r.error == ArgumentNull("interceptor")
    ensures r.Ok? ==> r.value.interceptor == interceptor.value && r.value.interceptorType == interceptorType
    ensures r.Ok? && assemblyName.Some? ==> r.value.assemblyName == assemblyName.value
    ensures r.Ok? && assemblyName.None? ==> r.value.assemblyName == interceptorType.name
    ensures r.Ok? && moduleName.Some? ==> r.value.moduleName == moduleName.value
    ensures r.Ok? && moduleName.None? ==> r.value.moduleName == r.value.assemblyName
  {
    match interceptor
    case None => Err(ArgumentNull("interceptor"))
    case Some(itc) =>
      var asm := if assemblyName.None? then interceptorType.name else assemblyName.value;
      var mod := if moduleName.None? then asm else moduleName.value;
      Ok(Config(interceptorType, itc, asm, mod))
  }

  /** With both names omitted, the assembly and the module are both named
      after the interceptor type. */
  lemma DefaultNamesFollowInterceptorType(interceptorType: InterceptorTypeInfo, itc: Interceptor)
    ensures Configure(interceptorType, Some(itc), None, None).Ok?
    ensures Configure(interceptorType, Some(itc), None, None).value.assemblyName == interceptorType.name
    ensures Configure(interceptorType, Some(itc), None, None).value.moduleName == interceptorType.name
  {
  }

  /** The name of the type synthesised for an interface: the interface's
      short name without its first character (the conventional leading `I`). */
  function DerivedTypeName(interfaceName: string): (r: string)
    requires |interfaceName| > 0
    ensures |r| == |interfaceName| - 1
    ensures interfaceName == interfaceName[..1] + r
  {
    interfaceName[1..]
  }

  /** A synthesised implementation type. */
  datatype ProxyType = ProxyType(name: string, iface: InterfaceDesc, ctorParams: seq<TypeId>, methods: seq<MethodDesc>)

  /** `GetConstructor(new[] { typeof(IInterceptor) })` finds a constructor. */
  predicate HasInterceptorConstructor(t: ProxyType) {
    t.ctorParams == [InterceptorType]
  }

  /** Every parameter type of the method has an assembly-qualified name,
      which the forwarding body needs to look the type up again. */
  predicate ParametersNamed(m: MethodDesc) {
    forall j :: 0 <= j < |m.paramTypes| ==> m.paramTypes[j].assemblyQualifiedName.Some?
  }

  predicate AllParameterTypesNamed(iface: InterfaceDesc) {
    forall i :: 0 <= i < |iface.methods| ==> ParametersNamed(iface.methods[i])
  }

  /** Synthesis completes when every parameter type is named and, if there is
      a forwarding body to emit at all, the interceptor type has exactly one
      public `InterceptMethod` for it to call. */
  predicate SynthesisSucceeds(iface: InterfaceDesc, interceptMethod: MethodLookup) {
    AllParameterTypesNamed(iface) && (|iface.methods| == 0 || interceptMethod == Found)
  }

  /** The exception an incomplete synthesis ends in. The method lookup fails
      while the first method is emitted, after its parameter types are
      visited: an overloaded `InterceptMethod` throws, and a missing one gives
      null, which the null check turns into a NullReferenceException. */
  function SynthesisFailure(iface: InterfaceDesc, interceptMethod: MethodLookup): Error {
    if interceptMethod == Ambiguous && |iface.methods| > 0 && ParametersNamed(iface.methods[0]) then AmbiguousMatch
    else NullReference(DefaultNullReferenceMessage)
  }

  /** The type a successful synthesis produces: a constructor taking the
      interceptor, and one forwarding method per interface method with the
      same name, return type and parameter types. */
  function SynthesizedType(iface: InterfaceDesc, name: string): ProxyType {
    ProxyType(name, iface, [InterceptorType], iface.methods)
  }

  /** Builds the type once `DefineType` has succeeded: defines the constructor,
      then one forwarding method per interface method, visiting every
      parameter type and then looking up the interceptor's `InterceptMethod`.
      A parameter type without an assembly-qualified name, or a failed method
      lookup, aborts the synthesis. */
  method BuildType(iface: InterfaceDesc, name: string, interceptMethod: MethodLookup) returns (r: Result<ProxyType, Error>)
    ensures r.Err? <==> !SynthesisSucceeds(iface, interceptMethod)
    ensures r.Err? ==> r.error == SynthesisFailure(iface, interceptMethod)
    ensures r.Ok? ==> r.value.name == name && r.value.iface == iface && HasInterceptorConstructor(r.value)
    ensures r.Ok? ==> |r.value.methods| == |iface.methods|
    ensures r.Ok? ==> forall k :: 0 <= k < |iface.methods| ==>
      && r.value.methods[k].name == iface.methods[k].name
      && r.value.methods[k].returnType == iface.methods[k].returnType
      && r.value.methods[k].paramTypes == iface.methods[k].paramTypes
  {
    var ctorParams := [InterceptorType];
    var defined: seq<MethodDesc> := [];
    var k := 0;
    while k < |iface.methods|
      invariant 0 <= k <= |iface.methods|
      invariant defined == iface.methods[..k]
      invariant forall i :: 0 <= i < k ==> ParametersNamed(iface.methods[i])
      invariant k > 0 ==> interceptMethod == Found
    {
      var methodInfo := iface.methods[k];
      var parameter := methodInfo.paramTypes;
      var i := 0;
      while i < |parameter|
        invariant 0 <= i <= |parameter|
        invariant forall j :: 0 <= j < i ==> parameter[j].assemblyQualifiedName.Some?
      {
        if parameter[i].assemblyQualifiedName.None? {
          return Err(NullReference(DefaultNullReferenceMessage));
        }
        i := i + 1;
      }
      if interceptMethod == Ambiguous {
        return Err(AmbiguousMatch);
      }
      if interceptMethod == NotFound {
        return Err(NullReference(DefaultNullReferenceMessage));
      }
      defined := defined + [MethodDesc(methodInfo.name, parameter, methodInfo.returnType)];
      k := k + 1;
    }
    r := Ok(ProxyType(name, iface, ctorParams, defined));
  }

  /** What `Create` reads and changes: the cache, keyed by interface type, and
      the type names the dynamic module already holds. */
  datatype FactoryState = FactoryState(types: map<InterfaceDesc, ProxyType>, definedTypes: set<string>)

  /** The end of a `Create` call: an instance of the given type, or an exception. */
  datatype Outcome = Instantiate(proxyType: ProxyType) | Fail(error: Error)

  /** A `Create` call's new state and outcome. */
  datatype Step = Step(state: FactoryState, outcome: Outcome)

  /** One `Create` call as the source does it: look up the cache; on a miss,
      define the type (its name must be non-empty and new to the module) and
      synthesise it; then look up the constructor and add the cache entry
      unconditionally. Entries are only ever added, the module never forgets
      a type name, and a failed call leaves the cache as it was. */
  function CreateStep(s: FactoryState, iface: InterfaceDesc, interceptMethod: MethodLookup): (r: Step)
    requires |iface.name| > 0
    ensures s.types.Keys <= r.state.types.Keys <= s.types.Keys + {iface}
    ensures forall other :: other in s.types ==> r.state.types[other] == s.types[other]
    ensures s.definedTypes <= r.state.definedTypes
    ensures r.outcome.Fail? ==> r.state.types == s.types
  {
    if iface in s.types then AddToCache(s, iface, s.types[iface])
    else
      var name := DerivedTypeName(iface.name);
      if name == "" then Step(s, Fail(EmptyTypeName))
      else if name in s.definedTypes then Step(s, Fail(DuplicateTypeName(name)))
      else
        var defined := s.(definedTypes := s.definedTypes + {name});
        if !SynthesisSucceeds(iface, interceptMethod) then Step(defined, Fail(SynthesisFailure(iface, interceptMethod)))
        else AddToCache(defined, iface, SynthesizedType(iface, name))
  }

  /** The constructor lookup, then `types.Add`: it adds the entry exactly when
      the type has the interceptor constructor and the key is absent, and
      otherwise throws and changes nothing. */
  function AddToCache(s: FactoryState, iface: InterfaceDesc, t: ProxyType): (r: Step)
    ensures r.outcome.Instantiate? <==> HasInterceptorConstructor(t) && iface !in s.types
    ensures r.outcome.Instantiate? ==> r.outcome.proxyType == t && r.state == s.(types := s.types[iface := t])
    ensures r.outcome.Fail? ==> r.state == s
    ensures !HasInterceptorConstructor(t) ==> r.outcome == Fail(NullReference(NoConstructorMessage))
    ensures HasInterceptorConstructor(t) && iface in s.types ==> r.outcome == Fail(DuplicateKey)
  {
    if !HasInterceptorConstructor(t) then Step(s, Fail(NullReference(NoConstructorMessage)))
    else if iface in s.types then Step(s, Fail(DuplicateKey))
    else Step(s.(types := s.types[iface := t]), Instantiate(t))
  }

  /** `Create` succeeds exactly on a cache miss for an interface whose derived
      name is non-empty and new to the module and whose synthesis completes;
      it then caches and instantiates the synthesised type and records its
      name. */
  lemma CreateSucceedsIff(s: FactoryState, iface: InterfaceDesc, interceptMethod: MethodLookup)
    requires |iface.name| > 0
    ensures CreateStep(s, iface, interceptMethod).outcome.Instantiate? <==>
      && iface !in s.types
      && |iface.name| > 1
      && DerivedTypeName(iface.name) !in s.definedTypes
      && SynthesisSucceeds(iface, interceptMethod)
    ensures CreateStep(s, iface, interceptMethod).outcome.Instantiate? ==>
      var t := SynthesizedType(iface, DerivedTypeName(iface.name));
      && CreateStep(s, iface, interceptMethod).outcome.proxyType == t
      && CreateStep(s, iface, interceptMethod).state == FactoryState(s.types[iface := t], s.definedTypes + {t.name})
  {
  }

  /** A cache hit skips synthesis and changes nothing; with the unconditional
      `types.Add` it always ends in an exception. */
  lemma CreateHitChangesNothing(s: FactoryState, iface: InterfaceDesc, interceptMethod: MethodLookup)
    requires |iface.name| > 0
    requires iface in s.types
    ensures CreateStep(s, iface, interceptMethod).state == s
    ensures CreateStep(s, iface, interceptMethod).outcome ==
      if HasInterceptorConstructor(s.types[iface]) then Fail(DuplicateKey) else Fail(NullReference(NoConstructorMessage))
  {
  }

  /** As written: after a successful `Create`, a second `Create` for the same
      interface on the same factory finds the cache entry, then fails on the
      unconditional `types.Add`, and makes no instance. */
  lemma CreateTwiceFails(s: FactoryState, iface: InterfaceDesc, interceptMethod: MethodLookup)
    requires |iface.name| > 0
    requires CreateStep(s, iface, interceptMethod).outcome.Instantiate?
    ensures var s1 := CreateStep(s, iface, interceptMethod).state;
      CreateStep(s1, iface, interceptMethod) == Step(s1, Fail(DuplicateKey))
  {
    CreateSucceedsIff(s, iface, interceptMethod);
  }

  /** A synthesis that aborts still leaves its type name defined in the
      module, so a retry for the same interface fails in `DefineType`. */
  lemma FailedSynthesisBlocksRetry(s: FactoryState, iface: InterfaceDesc, interceptMethod: MethodLookup)
    requires |iface.name| > 1
    requires iface !in s.types
    requires DerivedTypeName(iface.name) !in s.definedTypes
    requires !SynthesisSucceeds(iface, interceptMethod)
    ensures CreateStep(s, iface, interceptMethod).outcome == Fail(SynthesisFailure(iface, interceptMethod))
    ensures CreateStep(CreateStep(s, iface, interceptMethod).state, iface, interceptMethod).outcome
            == Fail(DuplicateTypeName(DerivedTypeName(iface.name)))
  {
  }

  /** Two different interface types with the same derived name (`IFoo` and
      `XFoo`, or one short name in two namespaces) cannot both be created on
      one factory: once one is, `DefineType` rejects the other's name. */
  lemma SameDerivedNameCollides(s: FactoryState, a: InterfaceDesc, b: InterfaceDesc, interceptMethod: MethodLookup)
    requires |a.name| > 0 && |b.name| > 0
    requires CreateStep(s, a, interceptMethod).outcome.Instantiate?
    requires b !in CreateStep(s, a, interceptMethod).state.types
    requires DerivedTypeName(a.name) == DerivedTypeName(b.name)
    ensures CreateStep(CreateStep(s, a, interceptMethod).state, b, interceptMethod).outcome
            == Fail(DuplicateTypeName(DerivedTypeName(b.name)))
  {
    CreateSucceedsIff(s, a, interceptMethod);
  }

  /** `object Run(object o)`, declared by both interfaces below. */
  const RunMethod := MethodDesc("Run", [ObjectType], ObjectType)

  /** Two interfaces `IService` with the same members in namespaces A and B
      are different types: the second `Create` misses the cache and fails in
      `DefineType("Service")`, with the unconditional insert and with the
      conditional one alike. */
  lemma SameShortNameInTwoNamespaces()
    ensures var a := InterfaceDesc("A.IService, Lib", "IService", [RunMethod]);
            var b := InterfaceDesc("B.IService, Lib", "IService", [RunMethod]);
            var empty := FactoryState(map[], {});
            && CreateStep(CreateStep(empty, a, Found).state, b, Found).outcome == Fail(DuplicateTypeName("Service"))
            && CreateIntended(CreateIntended(empty, a, Found).state, b, Found).outcome == Fail(DuplicateTypeName("Service"))
  {
    var a := InterfaceDesc("A.IService, Lib", "IService", [RunMethod]);
    var b := InterfaceDesc("B.IService, Lib", "IService", [RunMethod]);
    var empty := FactoryState(map[], {});
    assert DerivedTypeName(a.name) == "Service" == DerivedTypeName(b.name);
    assert SynthesisSucceeds(a, Found);
    SameDerivedNameCollides(empty, a, b, Found);
  }

  /** Every cached type is the one synthesised for its key, and its name is
      defined in the module. */
  ghost predicate CacheSound(s: FactoryState)
    requires NamedKeys(s)
  {
    forall k :: k in s.types ==>
      s.types[k] == SynthesizedType(k, DerivedTypeName(k.name)) && s.types[k].name in s.definedTypes
  }

  /** Interfaces as .NET has them: a non-empty name. */
  ghost predicate NamedKeys(s: FactoryState) {
    forall k :: k in s.types ==> |k.name| > 0
  }

  /** `Create` keeps the cache sound, and on a sound cache the "No constructor
      defined." check never fires. */
  lemma CreatePreservesCacheSound(s: FactoryState, iface: InterfaceDesc, interceptMethod: MethodLookup)
    requires |iface.name| > 0
    requires NamedKeys(s) && CacheSound(s)
    ensures NamedKeys(CreateStep(s, iface, interceptMethod).state) && CacheSound(CreateStep(s, iface, interceptMethod).state)
    ensures CreateStep(s, iface, interceptMethod).outcome != Fail(NullReference(NoConstructorMessage))
  {
  }

  /** `Create` with the cache insert conditional on absence: a hit reuses the
      cached type and changes nothing, so the duplicate-key exception never
      happens; a miss goes as before. */
  function CreateIntended(s: FactoryState, iface: InterfaceDesc, interceptMethod: MethodLookup): (r: Step)
    requires |iface.name| > 0
    ensures r.outcome != Fail(DuplicateKey)
    ensures iface in s.types ==> r.state == s
    ensures iface in s.types && HasInterceptorConstructor(s.types[iface]) ==> r.outcome == Instantiate(s.types[iface])
    ensures iface !in s.types ==> r == CreateStep(s, iface, interceptMethod)
  {
    if iface in s.types then
      if HasInterceptorConstructor(s.types[iface]) then Step(s, Instantiate(s.types[iface]))
      else Step(s, Fail(NullReference(NoConstructorMessage)))
    else CreateStep(s, iface, interceptMethod)
  }

  /** Corrected: after a successful `Create`, a second one for the same
      interface does not synthesise again, changes nothing and instantiates
      the same type. */
  lemma IntendedCreateReuses(s: FactoryState, iface: InterfaceDesc, interceptMethod: MethodLookup)
    requires |iface.name| > 0
    requires CreateIntended(s, iface, interceptMethod).outcome.Instantiate?
    ensures CreateIntended(CreateIntended(s, iface, interceptMethod).state, iface, interceptMethod)
            == CreateIntended(s, iface, interceptMethod)
  {
    if iface !in s.types {
      CreateSucceedsIff(s, iface, interceptMethod);
    }
  }

  /** The corrected `Create` keeps the cache sound too: one implementation
      per interface type, the one synthesised for it, and the "No
      constructor defined." check never fires. */
  lemma IntendedCreatePreservesCacheSound(s: FactoryState, iface: InterfaceDesc, interceptMethod: MethodLookup)
    requires |iface.name| > 0
    requires NamedKeys(s) && CacheSound(s)
    ensures NamedKeys(CreateIntended(s, iface, interceptMethod).state)
    ensures CacheSound(CreateIntended(s, iface, interceptMethod).state)
    ensures CreateIntended(s, iface, interceptMethod).outcome != Fail(NullReference(NoConstructorMessage))
  {
    if iface !in s.types {
      CreatePreservesCacheSound(s, iface, interceptMethod);
    }
  }

  /** The forwarding body resolves the interface method it stands for: by name
      and the full ordered parameter-type list, so an overloaded name binds the
      right method. */
  lemma ForwarderResolvesOwnMethod(iface: InterfaceDesc, name: string, k: nat)
    requires UniqueSignatures(iface.methods)
    requires k < |iface.methods|
    ensures var t := SynthesizedType(iface, name);
      GetMethod(t.iface.methods, t.methods[k].name, t.methods[k].paramTypes) == Some(iface.methods[k])
  {
    GetMethodFindsOverload(iface.methods, k);
  }

  /** An instance of a synthesised type, bound to the factory's interceptor. */
  class Proxy {
    const proxyType: ProxyType
    const interceptor: Interceptor

    constructor (proxyType: ProxyType, interceptor: Interceptor)
      ensures this.proxyType == proxyType && this.interceptor == interceptor
    {
      this.proxyType := proxyType;
      this.interceptor := interceptor;
    }

    /** A call of the k-th method: pack the arguments and the declared
        parameter types into two arrays, slot by slot, resolve the interface
        method from its name and the type array, call the interceptor with the
        proxy itself, that method and the argument array, and return its reply
        unchanged (an exception included). */
    method Invoke(k: nat, args: seq<Value>) returns (r: Reply)
      requires k < |proxyType.methods|
      requires |args| == |proxyType.methods[k].paramTypes|
      ensures r == interceptor(Ref(this),
                    GetMethod(proxyType.iface.methods, proxyType.methods[k].name, proxyType.methods[k].paramTypes),
                    args)
    {
      var m := proxyType.methods[k];
      var parameterCount := |m.paramTypes|;
      var paramTypeArray := new TypeId[parameterCount];
      var paramArray := new Value[parameterCount];
      for i := 0 to parameterCount
        invariant paramArray[..i] == args[..i]
        invariant paramTypeArray[..i] == m.paramTypes[..i]
      {
        paramArray[i] := args[i];
        paramTypeArray[i] := m.paramTypes[i];
      }
      assert paramArray[..] == paramArray[..parameterCount] == args[..parameterCount] == args;
      assert paramTypeArray[..] == paramTypeArray[..parameterCount] == m.paramTypes[..parameterCount] == m.paramTypes;
      var info := GetMethod(proxyType.iface.methods, m.name, paramTypeArray[..]);
      r := interceptor(Ref(this), info, paramArray[..]);
    }
  }

  /** `ProxyFactory<TInterceptor>`. */
  class ProxyFactory {
    /** The type argument `TInterceptor`. */
    const interceptorType: InterceptorTypeInfo
    const interceptor: Interceptor
    const assemblyName: string
    const moduleName: string
    /** The cache: interface type to synthesised type. */
    var types: map<InterfaceDesc, ProxyType>
    /** The names of the types defined so far in the dynamic module. */
    var definedTypes: set<string>

    function State(): FactoryState
      reads this
    {
      FactoryState(types, definedTypes)
    }

    /** Takes a configuration that `Configure` accepted; the dynamic module
        starts out empty. */
    constructor (config: Config)
      ensures interceptorType == config.interceptorType && interceptor == config.interceptor
      ensures assemblyName == config.assemblyName && moduleName == config.moduleName
      ensures State() == FactoryState(map[], {})
    {
      interceptorType := config.interceptorType;
      interceptor := config.interceptor;
      assemblyName := config.assemblyName;
      moduleName := config.moduleName;
      types := map[];
      definedTypes := {};
    }

    /** `new ProxyFactory<TInterceptor>(interceptor, assemblyName, moduleName)`:
        throws on a null interceptor, otherwise holds exactly that interceptor
        and the defaulted names, with an empty cache. */
    static method New(interceptorType: InterceptorTypeInfo, interceptor: Option<Interceptor>,
                      assemblyName: Option<string>, moduleName: Option<string>) returns (r: Result<ProxyFactory, Error>)
      ensures r.Err? <==> interceptor.None?
      ensures r.Err? ==> r.error == ArgumentNull("interceptor")
      ensures r.Ok? ==> fresh(r.value) && r.value.State() == FactoryState(map[], {})
      ensures r.Ok? ==> Configure(interceptorType, interceptor, assemblyName, moduleName)
                        == Ok(Config(r.value.interceptorType, r.value.interceptor, r.value.assemblyName, r.value.moduleName))
    {
      var config := Configure(interceptorType, interceptor, assemblyName, moduleName);
      if config.Err? {
        return Err(config.error);
      }
      var factory := new ProxyFactory(config.value);
      r := Ok(factory);
    }

    /** `Create<TInterface>()`: the new cache and module state and the result
        are those of `CreateStep`; a new instance is bound to this factory's
        interceptor. */
    method Create(iface: InterfaceDesc) returns (r: Result<Proxy, Error>)
      requires |iface.name| > 0
      modifies this
      ensures State() == CreateStep(old(State()), iface, interceptorType.interceptMethod).state
      ensures r.Ok? <==> CreateStep(old(State()), iface, interceptorType.interceptMethod).outcome.Instantiate?
      ensures r.Err? ==> r.error == CreateStep(old(State()), iface, interceptorType.interceptMethod).outcome.error
      ensures r.Ok? ==> fresh(r.value) && r.value.interceptor == interceptor
                        && r.value.proxyType == CreateStep(old(State()), iface, interceptorType.interceptMethod).outcome.proxyType
    {
      var t: ProxyType;
      if iface in types {
        t := types[iface];
      } else {
        var name := DerivedTypeName(iface.name);
        if name == "" {
          return Err(EmptyTypeName);
        }
        if name in definedTypes {
          return Err(DuplicateTypeName(name));
        }
        definedTypes := definedTypes + {name};
        var built := BuildType(iface, name, interceptorType.interceptMethod);
        if built.Err? {
          return Err(built.error);
        }
        t := built.value;
        assert t == SynthesizedType(iface, name);
      }
      if !HasInterceptorConstructor(t) {
        return Err(NullReference(NoConstructorMessage));
      }
      if iface in types {
        return Err(DuplicateKey);
      }
      types := types[iface := t];
      var instance := new Proxy(t, interceptor);
      r := Ok(instance);
    }

    /** `Create` with the cache insert made conditional on absence: a hit
        instantiates the cached type again without touching the cache. */
    method CreateReusing(iface: InterfaceDesc) returns (r: Result<Proxy, Error>)
      requires |iface.name| > 0
      modifies this
      ensures State() == CreateIntended(old(State()), iface, interceptorType.interceptMethod).state
      ensures r.Ok? <==> CreateIntended(old(State()), iface, interceptorType.interceptMethod).outcome.Instantiate?
      ensures r.Err? ==> r.error == CreateIntended(old(State()), iface, interceptorType.interceptMethod).outcome.error
      ensures r.Ok? ==> fresh(r.value) && r.value.interceptor == interceptor
                        && r.value.proxyType == CreateIntended(old(State()), iface, interceptorType.interceptMethod).outcome.proxyType
    {
      if iface in types {
        var t := types[iface];
        if !HasInterceptorConstructor(t) {
          return Err(NullReference(NoConstructorMessage));
        }
        var instance := new Proxy(t, interceptor);
        return Ok(instance);
      }
      r := Create(iface);
    }
  }
}
