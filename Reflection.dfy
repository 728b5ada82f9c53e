/** The reflected metadata the proxy factory works on: runtime types, the
    methods an interface declares, and the uniform boxed values that travel
    through `object`. Only what the factory reads of .NET reflection is kept. */
module Reflection {
  import opened Wrappers

  /** A runtime type. `assemblyQualifiedName` is None where .NET reports null
      for `Type.AssemblyQualifiedName` (a generic type parameter, for one). */
  datatype TypeId = TypeId(name: string, assemblyQualifiedName: Option<string>)

  /** `System.Object`. */
  const ObjectType := TypeId("Object", Some("System.Object, System.Private.CoreLib"))

  /** One method an interface declares: what `MethodInfo` tells the factory. */
  datatype MethodDesc = MethodDesc(name: string, paramTypes: seq<TypeId>, returnType: TypeId)

  /** An interface type. `qualifiedName` is the namespace-qualified name with
      its assembly, which identifies the type: two interfaces with the same
      short name in different namespaces are different types. `name` is the
      short name (`Type.Name`), and `methods` are the methods that
      `Type.GetMethods()` lists for it, in that order. */
  datatype InterfaceDesc = InterfaceDesc(qualifiedName: string, name: string, methods: seq<MethodDesc>)

  /** A value boxed to `object`. `Ref` is an object reference; equality of two
      `Ref` values is reference identity. */
  datatype Value = Null | Str(s: string) | Int(i: int) | Double(x: real) | Ref(obj: object)

  /** No two methods share a name and an ordered parameter-type list, as the
      C# compiler guarantees for the methods one interface declares. */
  predicate UniqueSignatures(ms: seq<MethodDesc>) {
    forall i, j :: 0 <= i < j < |ms| ==> ms[i].name != ms[j].name || ms[i].paramTypes != ms[j].paramTypes
  }

  /** `Type.GetMethod(name, types)`: the method with exactly this name and this
      ordered parameter-type list, or null when there is none. */
  function GetMethod(ms: seq<MethodDesc>, name: string, types: seq<TypeId>): (r: Option<MethodDesc>)
    ensures r.Some? ==> r.value in ms && r.value.name == name && r.value.paramTypes == types
    ensures r.None? ==> forall m :: m in ms ==> m.name != name || m.paramTypes != types
  {
    if |ms| == 0 then None
    else if ms[0].name == name && ms[0].paramTypes == types then Some(ms[0])
    else GetMethod(ms[1..], name, types)
  }

  /** Resolving a declared method by its name and its full parameter-type list
      gives back that very method, even when the name is overloaded. */
  lemma GetMethodFindsOverload(ms: seq<MethodDesc>, k: nat)
    requires UniqueSignatures(ms)
    requires k < |ms|
    ensures GetMethod(ms, ms[k].name, ms[k].paramTypes) == Some(ms[k])
  {
  }
}
