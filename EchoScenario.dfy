/** The factory's test scenario: a factory built with the echo interceptor
    serves the test interface, and a value passed through the proxy comes
    back unchanged. */
module EchoScenario {
  import opened Wrappers
  import opened Reflection
  import opened Interception
  import opened Proxies
  import opened Echo

  /** `ITestInterface`: one method, `object Echo(object obj)`. */
  const TestInterface := InterfaceDesc("SWZR.Dynamxy.ITestInterface, SWZR.Dynamxy.Test", "ITestInterface", [MethodDesc("Echo", [ObjectType], ObjectType)])

  /** `EchoInterceptor` implements `InterceptMethod` as one public method. */
  const EchoInterceptorType := InterceptorTypeInfo("EchoInterceptor", Found)

  /** A factory built with the echo interceptor and the default names. */
  method NewEchoFactory() returns (factory: ProxyFactory)
    ensures fresh(factory) && factory.State() == FactoryState(map[], {})
    ensures factory.interceptorType == EchoInterceptorType && factory.interceptor == EchoInterceptMethod
    ensures factory.assemblyName == "EchoInterceptor" && factory.moduleName == "EchoInterceptor"
  {
    var created := ProxyFactory.New(EchoInterceptorType, Some(EchoInterceptMethod), None, None);
    factory := created.value;
  }

  /** The first `Create<ITestInterface>()` on a fresh factory succeeds: it
      synthesises `TestInterface` with its one forwarding method `Echo`. */
  method CreateTestProxy(factory: ProxyFactory) returns (proxy: Proxy)
    requires factory.State() == FactoryState(map[], {})
    requires factory.interceptorType == EchoInterceptorType
    modifies factory
    ensures fresh(proxy) && proxy.interceptor == factory.interceptor
    ensures proxy.proxyType == SynthesizedType(TestInterface, "TestInterface")
  {
    assert DerivedTypeName(TestInterface.name) == "TestInterface";
    assert AllParameterTypesNamed(TestInterface);
    CreateSucceedsIff(factory.State(), TestInterface, Found);
    var created := factory.Create(TestInterface);
    proxy := created.value;
  }

  /** End to end: through a proxy made by an echo factory, `Echo(v)` returns
      `v` for every value, a reference being returned as the same reference. */
  method EchoThroughProxy(v: Value) returns (r: Reply)
    ensures r == Returned(v)
  {
    var factory := NewEchoFactory();
    var proxy := CreateTestProxy(factory);
    r := proxy.Invoke(0, [v]);
  }

  /** The test's scenario: one proxy, echoing a string, an integer, a double
      and an object reference in turn. */
  method SimpleEcho(obj: object) returns (replies: seq<Reply>)
    ensures replies == [Returned(Str("Hello")), Returned(Int(123)), Returned(Double(123.123)), Returned(Ref(obj))]
  {
    var factory := NewEchoFactory();
    var test := CreateTestProxy(factory);
    var value := test.Invoke(0, [Str("Hello")]);
    replies := [value];
    value := test.Invoke(0, [Int(123)]);
    replies := replies + [value];
    value := test.Invoke(0, [Double(123.123)]);
    replies := replies + [value];
    value := test.Invoke(0, [Ref(obj)]);
    replies := replies + [value];
  }

  /** With the insert made conditional, the same factory serves the test
      interface twice, and both proxies echo. */
  method EchoTwiceThroughProxies(v: Value) returns (first: Reply, second: Reply)
    ensures first == Returned(v) && second == Returned(v)
  {
    var factory := NewEchoFactory();
    assert DerivedTypeName(TestInterface.name) == "TestInterface";
    assert AllParameterTypesNamed(TestInterface);
    ghost var empty := factory.State();
    CreateSucceedsIff(empty, TestInterface, Found);
    var p1 := factory.CreateReusing(TestInterface);
    IntendedCreateReuses(empty, TestInterface, Found);
    var p2 := factory.CreateReusing(TestInterface);
    first := p1.value.Invoke(0, [v]);
    second := p2.value.Invoke(0, [v]);
  }
}
