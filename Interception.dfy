/** The single seam every proxy call goes through (`IInterceptor`). */
module Interception {
  import opened Wrappers
  import opened Reflection

  /** What an interception produces: a value, or an exception that the proxy
      method's caller then sees unchanged. */
  datatype Reply = Returned(value: Value) | Raised(exception: string)

  /** `InterceptMethod(instance, info, parameter)`: the proxy object itself (boxed), the
      resolved interface method (null when resolution finds none) and the
      boxed arguments, in order. */
  type Interceptor = (Value, Option<MethodDesc>, seq<Value>) -> Reply
}
