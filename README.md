# Dynamxy proxy factory, modelled in Dafny

Dynamxy builds dynamic proxies. `ProxyFactory<TInterceptor>` owns one interceptor.
`Create<TInterface>()` returns an object that implements the interface `TInterface`.
Every method of that object packs its call and hands it to the interceptor's single
method, `InterceptMethod(instance, info, parameter)`:

- `instance` is the proxy itself;
- `info` is the interface method, resolved by name and its ordered parameter types;
- `parameter` is the argument array.

The proxy method then returns the interceptor's result.
The factory caches the synthesised implementation type per interface.

The model has six files:

- `Wrappers.dfy`: `Option` (a nullable reference) and `Result` (a return or an exception).
- `Reflection.dfy`: descriptors of types, interface methods and interfaces, boxed values, and `Type.GetMethod(name, types)`.
- `Interception.dfy`: the interceptor seam. An interceptor is a function from (instance, resolved method, arguments) to a `Reply`, which is a value or an exception.
- `ProxyFactory.dfy`: the factory.
  - `Configure` models the constructor's null check and name defaults.
  - `DerivedTypeName` models the synthesised type's name.
  - `BuildType` models synthesis as loops over the methods and their parameter types.
  - `CreateStep` models one `Create` call on the cache and module state.
  - The class `Proxy` models a synthesised instance. `Proxy.Invoke` is the forwarding body. It fills the argument array and the parameter-type array slot by slot, resolves the method and calls the interceptor.
  - The class `ProxyFactory` holds the cache as a `map` field. Its `Create` method is proved to behave as `CreateStep`.
- `EchoInterceptor.dfy`: the echo interceptor used as the conformance fixture.
- `EchoScenario.dfy`: the test scenario. It holds the end-to-end echo round trip through a factory-made proxy.

The synthesised type is modelled by the record it amounts to: its name, its interface, its
constructor signature and its method table. It is not modelled as bytecode.
The dynamic module's set of defined type names is part of the factory state, because
`ModuleBuilder.DefineType` throws when a name is empty or already defined.
Because of that, a synthesis that aborts part-way leaves its type name behind
(`FailedSynthesisBlocksRetry`).

## Model

| member | source | states |
|---|---|---|
| `Reflection.GetMethod` | SWZR.Dynamxy/ProxyFactory.cs:204-209 | the resolved method has exactly the requested name and parameter-type list and is declared by the interface; null means no declared method has that signature |
| `Reflection.GetMethodFindsOverload` | SWZR.Dynamxy/ProxyFactory.cs:204-209 | on an interface whose methods have distinct signatures, resolving a method by its name and its full type list gives back that very method, even when the name is overloaded |
| `Proxies.Configure` | SWZR.Dynamxy/ProxyFactory.cs:53-65 | a null interceptor fails with ArgumentNullException("interceptor"); otherwise the factory keeps exactly the given interceptor and interceptor type; an omitted assembly name becomes the interceptor type's name; an omitted module name becomes the resolved assembly name |
| `Proxies.DefaultNamesFollowInterceptorType` | SWZR.Dynamxy/ProxyFactory.cs:57-65 | with both names omitted, the assembly and the module are both named after the interceptor type |
| `Proxies.DerivedTypeName` | SWZR.Dynamxy/ProxyFactory.cs:82 | the synthesised type's name is one character shorter than the interface name, which is that name preceded by the interface name's first character |
| `Proxies.BuildType` | SWZR.Dynamxy/ProxyFactory.cs:93-218 | synthesis fails exactly when some parameter type of some method has no assembly-qualified name, or when the interface has a method and the interceptor type has no single public `InterceptMethod`; the failure is AmbiguousMatchException when the lookup finds overloads and the first method's parameter types are all named, and NullReferenceException otherwise; on success the type has the derived name, implements the interface, has the constructor taking an IInterceptor, and has one method per interface method with the same name, return type and ordered parameter types |
| `Proxies.CreateSucceedsIff` | SWZR.Dynamxy/ProxyFactory.cs:79-231 | Create succeeds exactly on a cache miss for that interface type (keyed by the type, not its short name) where the derived name is non-empty and new to the module, every parameter type is named, and, if the interface has a method, the interceptor type's public `InterceptMethod` is found exactly once; the cache then gains exactly that interface's synthesised type and the module gains its name |
| `Proxies.CreateHitChangesNothing` | SWZR.Dynamxy/ProxyFactory.cs:224-231 | on a cache hit nothing is synthesised and the state is unchanged; the call ends in the duplicate-key exception, or in "No constructor defined." when the cached type has no interceptor constructor |
| `Proxies.CreateStep` | SWZR.Dynamxy/ProxyFactory.cs:79-231 | one Create call only adds: every interface already cached keeps its entry, no key other than the requested one appears, no module type name is lost, and a failed call leaves the cache as it was |
| `Proxies.AddToCache` | SWZR.Dynamxy/ProxyFactory.cs:224-231 | the constructor check and the insert: the entry is added and the type instantiated exactly when the type has the IInterceptor constructor and the key is absent; otherwise the call throws "No constructor defined." or the duplicate-key exception and changes nothing |
| `Proxies.CreateTwiceFails` | SWZR.Dynamxy/ProxyFactory.cs:231 | after a successful Create, a second Create for the same interface on the same factory fails with the duplicate-key exception, changes nothing, and makes no instance |
| `Proxies.FailedSynthesisBlocksRetry` | SWZR.Dynamxy/ProxyFactory.cs:83-215 | a synthesis aborted by an unnamed parameter type or a failed `InterceptMethod` lookup ends in that exception, and afterwards a retry for the same interface fails in DefineType with a duplicate type name |
| `Proxies.SameDerivedNameCollides` | SWZR.Dynamxy/ProxyFactory.cs:82-84 | once one interface is created, a different interface type with the same derived name (IFoo and XFoo, or one short name in two namespaces) cannot be: DefineType fails with a duplicate type name |
| `Proxies.SameShortNameInTwoNamespaces` | SWZR.Dynamxy/ProxyFactory.cs:79-84 | two interfaces `IService` with the same members in namespaces A and B are distinct cache keys: after the first is created, the second misses the cache and fails in DefineType with the duplicate name "Service", under the as-written and the corrected Create alike |
| `Proxies.CreatePreservesCacheSound` | SWZR.Dynamxy/ProxyFactory.cs:224-228 | Create keeps every cached type equal to the type synthesised for its key, with its name defined in the module; on such a cache, "No constructor defined." is never thrown |
| `Proxies.CreateIntended` | SWZR.Dynamxy/ProxyFactory.cs:79-231 | the corrected Create never throws the duplicate-key exception; a hit changes nothing and instantiates the cached type when it has the IInterceptor constructor; a miss goes exactly as in the code as written |
| `Proxies.IntendedCreatePreservesCacheSound` | SWZR.Dynamxy/ProxyFactory.cs:224-231 | the corrected Create keeps every cached type equal to the type synthesised for its key, with its name defined in the module, and never throws "No constructor defined." on such a cache |
| `Proxies.IntendedCreateReuses` | SWZR.Dynamxy/ProxyFactory.cs:80 | with the insert conditional on absence, a second Create after a successful one reuses the cached type, changes nothing and succeeds |
| `Proxies.ForwarderResolvesOwnMethod` | SWZR.Dynamxy/ProxyFactory.cs:114-118 | each forwarding method of a synthesised type resolves, by name and full parameter-type list, to the interface method it was generated from |
| `Proxies.Proxy.constructor` | SWZR.Dynamxy/ProxyFactory.cs:97-112 | the instance is bound to the given synthesised type and interceptor |
| `Proxies.Proxy.Invoke` | SWZR.Dynamxy/ProxyFactory.cs:121-218 | a forwarding call passes to the interceptor the proxy itself, the interface method resolved from the method's name and its declared parameter types, and the arguments in order (the argument array is the call's argument list); it returns the interceptor's reply unchanged, an exception included |
| `Proxies.ProxyFactory.constructor` | SWZR.Dynamxy/ProxyFactory.cs:53-68 | a new factory holds the configured interceptor and names, an empty cache and an empty dynamic module |
| `Proxies.ProxyFactory.New` | SWZR.Dynamxy/ProxyFactory.cs:53-55 | construction fails with ArgumentNullException exactly for a null interceptor; otherwise it gives a fresh factory with the interceptor type, interceptor and names that Configure computes and an empty cache |
| `Proxies.ProxyFactory.Create` | SWZR.Dynamxy/ProxyFactory.cs:78-236 | the new cache and module state and the outcome are those of CreateStep for the factory's interceptor type; a successful call returns a fresh instance of the outcome's type, bound to the factory's interceptor |
| `Proxies.ProxyFactory.CreateReusing` | SWZR.Dynamxy/ProxyFactory.cs:224-235 | the corrected Create: state and outcome are those of CreateIntended, whose cache hit instantiates the cached type without adding to the cache |
| `Echo.EchoInterceptMethod` | SWZR.Dynamxy.Test/EchoInterceptor.cs:11-13 | the echo never throws; it returns the first argument when there is one, and null for an empty argument array |
| `Echo.EchoIgnoresCallTarget` | SWZR.Dynamxy.Test/EchoInterceptor.cs:11-13 | the echo's result depends only on the argument array, never on the instance or the method info |
| `EchoScenario.NewEchoFactory` | SWZR.Dynamxy.Test/ProxyFactoryTest.cs:24 | a factory for the echo interceptor with the default names is created, with its assembly and module named after the interceptor type and an empty cache |
| `EchoScenario.CreateTestProxy` | SWZR.Dynamxy.Test/ProxyFactoryTest.cs:25 | the first Create of the test interface on a fresh factory succeeds with the type synthesised for it, bound to the factory's interceptor |
| `EchoScenario.EchoThroughProxy` | SWZR.Dynamxy.Test/ProxyFactoryTest.cs:22-47 | for every value v, calling Echo(v) on a proxy made by an echo factory returns v; a reference comes back as the identical reference |
| `EchoScenario.SimpleEcho` | SWZR.Dynamxy.Test/ProxyFactoryTest.cs:22-47 | the test's scenario: one proxy echoes "Hello", 123, 123.123 and an object reference, in that order |
| `EchoScenario.EchoTwiceThroughProxies` | SWZR.Dynamxy/ProxyFactory.cs:80 | with the corrected Create, two Create calls on one echo factory both yield proxies, and both echo their argument |

## Findings

| source | as written | input that shows it | evidently intended | confidence | as-written member | corrected member |
|---|---|---|---|---|---|---|
| SWZR.Dynamxy/ProxyFactory.cs:231 | `types.Add(typeof(TInterface), type)` runs on every call, after a cache hit too | two successive `Create<ITestInterface>()` calls on one factory: the second finds the cached type, then `Dictionary.Add` throws ArgumentException for the existing key, so the cache never serves a second request | insert only on a miss; a hit reuses the cached type | high; not executed | `Proxies.CreateTwiceFails` | `Proxies.CreateIntended` |

`Proxies.ProxyFactory.Create` models the code as written. `Proxies.ProxyFactory.CreateReusing` is the corrected operation, and `EchoScenario.EchoTwiceThroughProxies` uses it.

## Left out

- IL emission and the Reflection.Emit plumbing are not modelled: `DefineField`, the opcodes, the method attributes, `CreateType` and `ctor.Invoke` (ProxyFactory.cs:67-68, 84-112, 221, 233). A synthesised type is a record, and a forwarding body is what `Proxy.Invoke` does.
- Type resolution inside the forwarding body is abstracted. The body stores each parameter type's assembly-qualified name and resolves it again with `Type.GetType`. The model takes that lookup to give back the declared type, so the parameter-type array holds the declared types.
- `GetInterface(typeof(TInterface).Name)` on the proxy's type is taken to give the interface itself.
- The null checks on `GetMethod` results for framework methods (ProxyFactory.cs:176, 195, 201, 209) are not modelled: those lookups always succeed. The lookup of the interceptor type's `InterceptMethod` (ProxyFactory.cs:215) is modelled by its outcome, `MethodLookup`.
- `Proxies.Proxy.Invoke`: the forwarding body calls `TInterceptor.InterceptMethod` with a non-virtual `call` on the `IInterceptor` field. The model calls the factory's interceptor. An instance of a subclass of `TInterceptor` that overrides `InterceptMethod` would have the base method run instead; that difference is not modelled.
- Boxing (ProxyFactory.cs:163) is not modelled: all values are one `Value` type. The final cast (ProxyFactory.cs:235) always succeeds on a synthesised type.
- The IL's behaviour for value-type parameters, value-type returns and `void` returns is not modelled. The model returns the interceptor's reply unchanged whatever the declared return type.
- `Activator.CreateInstance<TInterceptor>()` in the parameterless constructor (ProxyFactory.cs:41) is reflection and is not modelled. The constructor taking an interceptor is modelled.
- The interceptor is a pure function. An interceptor's own state and side effects are not modelled. That it is called once per call and that it cannot modify the argument array are therefore by construction.
- Thread safety of the `Dictionary` cache is not modelled: the source has no locking, and the model is sequential.
- Floating point is not modelled: a double is a `real`, so the test's 123.123 is exact. Integers are unbounded, not 32-bit.
- The exceptions that `AssemblyName` and `DefineDynamicModule` throw for an empty assembly or module name are not modelled.
- `DefineType`'s limit on name length is not modelled.
- Methods inherited from base interfaces are not modelled: an interface's method list is taken as complete. The source lists only the declared methods, so `CreateType` would throw for such interfaces.
- `Proxies.ProxyFactory.Create` requires a non-empty interface name, as every .NET type name is. `String.Substring` would throw on an empty one.
- SWZR.Dynamxy.Test/ITestInterface.cs appears only as the constant `EchoScenario.TestInterface`. The MSTest harness appears only as the end-to-end methods in `EchoScenario.dfy`.
