/** The echo interceptor, the conformance fixture of the proxy factory: it
    returns the first argument of the intercepted call, or null when there is
    none. With it, a proxy method called with a value gives that value back. */
module Echo {
  import opened Wrappers
  import opened Reflection
  import opened Interception

  /** `EchoInterceptor.InterceptMethod`. */
  function EchoInterceptMethod(instance: Value, info: Option<MethodDesc>, parameter: seq<Value>): (r: Reply)
    ensures r.Returned?
    ensures |parameter| > 0 ==> r.value == parameter[0]
    ensures |parameter| == 0 ==> r.value == Null
  {
    Returned(if |parameter| > 0 then parameter[0] else Null)
  }

  /** The echo's reply depends on the arguments alone, not on the proxy
      instance or on the method that was called. */
  lemma EchoIgnoresCallTarget(i1: Value, m1: Option<MethodDesc>, i2: Value, m2: Option<MethodDesc>, parameter: seq<Value>)
    ensures EchoInterceptMethod(i1, m1, parameter) == EchoInterceptMethod(i2, m2, parameter)
  {
  }
}
