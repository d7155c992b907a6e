# Feign response-validation gate, modelled in Dafny

This project models `ValidationInvocationHandlerFactoryDecorator`, the validation gate of
feign-validation. The gate is an `InvocationHandlerFactory` decorator for the Feign HTTP client.
Its `create(target, dispatch)` does three things in order:

1. It builds a stand-in proxy of the target interface and stores it in the field `targetTypeInstance`.
2. It replaces, in place, every value of the caller's `Map<Method, MethodHandler>` with a
   `MethodHandlerDecorator` bound to the key and to the old value.
3. It hands the map to the factory it wraps and returns that factory's result.

A decorator's `invoke(argv)` first calls the handler it wraps with `argv`. If that call throws, the
exception propagates. Otherwise the decorator asks the Bean Validation service for the violations
of the response. A non-empty set is thrown as one `ConstraintViolationException` carrying the whole
set. An empty set lets the response through unchanged.

Files:

- `values.dfy` (module `Values`): the Java-level values the gate handles. These are reflective
  methods (`MethodRef`), call arguments and return values (`Value`, `Args`), constraint violations,
  throwables, and `Result`, the outcome of a call that returns or throws.
- `gate.dfy` (module `ValidationGate`): the gate itself and what is proved about it.
  - `Dispatch` is the caller-owned map. `StandIn` is the proxy. `Gate` is the decorator factory,
    with its mutable `targetTypeInstance` field.
  - `Handler` is either a handler Feign built (`Primitive`) or a decorator of some gate
    (`Decorated`).
  - `Invoke` gives the meaning of invoking a handler. It returns an `Execution`: the outcome plus
    the collaborator calls made, in order. That trace is what lets the model say that arguments pass
    unchanged and that the validator is not reached after a failure.

Collaborators are parameters:

- The validator is a function `(stand-in, method, value) -> set<Violation>`.
- What each Feign-built handler does is a function `Behaviour` of its identity and the arguments.
- The wrapped factory is a function of the target and the final map contents.
- Whether `Proxy.newProxyInstance` throws is the `proxyFailure` argument of `Create`.

A decorator holds a reference to its gate and reads the gate's `targetTypeInstance` when it runs,
as the Java inner class does. A later `create` on the same gate therefore rebinds every earlier
decorator of that gate to the new stand-in. Decorators can stack, for example when `create` runs
twice over one map, or when one gate wraps another. `StackSemantics` defines what a stack must do
independently of `Invoke`, and `InvokeIsStackSemantics` proves that the two agree.

The class comment (`ValidationInvocationHandlerFactoryDecorator.java:17-21`) says the response is
validated only when `@Valid` is on the interface method. The code asks the validator on every
invocation whose handler returns, whatever the annotations (lines 52-55). The unit test
`decorateAndInvokeWithoutViolation` expects exactly that for an unannotated method. The model
follows the code. `MethodRef.annotatedValid` records the annotation, and nothing in the gate reads
it (`UnannotatedMethodIsValidated`).

## Model

| member | source | states |
|---|---|---|
| `ValidationGate.Gate.constructor` | src/main/java/com/github/mwiede/feign/validation/ValidationInvocationHandlerFactoryDecorator.java:27-35 | The gate keeps the wrapped factory and the validator it is given; `targetTypeInstance` starts as `null`. |
| `ValidationGate.Gate.CreateTargetInstance` | src/main/java/com/github/mwiede/feign/validation/ValidationInvocationHandlerFactoryDecorator.java:77-87 | A failure of proxy construction is returned as that failure. Otherwise the result is a new proxy object for the requested interface whose answers forward to this gate. |
| `ValidationGate.StandIn.Answer` | src/main/java/com/github/mwiede/feign/validation/ValidationInvocationHandlerFactoryDecorator.java:78-86 | The proxy answers `hashCode` with the gate's hash code and `toString` with the gate's string. It answers `null` for every other method name, and only for those. |
| `ValidationGate.StandInsOfOneGateAgree` | src/main/java/com/github/mwiede/feign/validation/ValidationInvocationHandlerFactoryDecorator.java:78-86 | Two stand-ins built by the same gate give the same answer to every method, whatever interface each stands in for. The answer depends only on the owning gate and the method name. |
| `ValidationGate.Rethrown` | src/main/java/com/github/mwiede/feign/validation/ValidationInvocationHandlerFactoryDecorator.java:66-70 | A failure while building the stand-in surfaces either as itself or wrapped in a `RuntimeException`. It is wrapped exactly when it is an `InstantiationException` or an `IllegalAccessException`. |
| `ValidationGate.Gate.Create` | src/main/java/com/github/mwiede/feign/validation/ValidationInvocationHandlerFactoryDecorator.java:64-75 | When the stand-in cannot be built, the failure (as `Rethrown`) is the result, and both the map and `targetTypeInstance` are unchanged. Otherwise `targetTypeInstance` is a fresh stand-in of `target`'s interface owned by this gate. The map becomes `Wrap(this, old map)`. The result is the wrapped factory's answer for `target` and the rewritten map. |
| `ValidationGate.Wrap` | src/main/java/com/github/mwiede/feign/validation/ValidationInvocationHandlerFactoryDecorator.java:71-73 | The rewritten map has the same key set. Each key maps to a decorator of the gate bound to that key. Peeling the decorators off gives back exactly the original map, so each decorator wraps exactly its key's old handler. |
| `ValidationGate.DecoratorInvoke` | src/main/java/com/github/mwiede/feign/validation/ValidationInvocationHandlerFactoryDecorator.java:50-61 | If the wrapped handler throws, that same execution is the result and the validator is not called. Otherwise exactly one validator call about the response is added. The invocation returns if and only if the validator's set is empty, and then it returns the response unchanged. A non-empty set is thrown as one `ConstraintViolationException` carrying exactly that set. |
| `ValidationGate.Invoke` | src/main/java/com/github/mwiede/feign/validation/ValidationInvocationHandlerFactoryDecorator.java:50-61 | For any stack of decorators, the first call is to the handler Feign built, with `argv` unchanged. Every later call is a validator call, at most one per decorator. If that handler throws, its failure is the outcome and nothing else is called. A returned value is exactly what that handler returned. |
| `ValidationGate.ValidateInOrderTrace` | src/main/java/com/github/mwiede/feign/validation/ValidationInvocationHandlerFactoryDecorator.java:54-55 | Checks are consulted in order, each about the same value, and at most once each. When the value comes back, every check was consulted. |
| `ValidationGate.ValidateInOrderReturns` | src/main/java/com/github/mwiede/feign/validation/ValidationInvocationHandlerFactoryDecorator.java:56-60 | The value comes back, unchanged, if and only if every check reports an empty set. |
| `ValidationGate.ValidateInOrderThrows` | src/main/java/com/github/mwiede/feign/validation/ValidationInvocationHandlerFactoryDecorator.java:56-58 | A throw comes from the last check consulted. That check is the first one to object, and what is thrown is a `ConstraintViolationException` with its complete set. |
| `ValidationGate.ValidateInOrderSnoc` | src/main/java/com/github/mwiede/feign/validation/ValidationInvocationHandlerFactoryDecorator.java:54-58 | Adding an outer check leaves an earlier failure untouched. The outer check is consulted only when all inner ones passed. |
| `ValidationGate.InvokeIsStackSemantics` | src/main/java/com/github/mwiede/feign/validation/ValidationInvocationHandlerFactoryDecorator.java:50-61 | Invoking any stack of decorators calls the handler Feign built once. Then, if that handler returned, each decorator's validation runs from the innermost outwards, with the stand-in its gate holds now, and stops at the first objection. This holds for both outcome and call trace. |
| `ValidationGate.OutcomeAfterReturn` | src/main/java/com/github/mwiede/feign/validation/ValidationInvocationHandlerFactoryDecorator.java:52-60 | Once the handler Feign built has returned, the outcome of the whole stack is that of running every decorator's check on the response, innermost first. |
| `ValidationGate.ReturnsIffEveryCheckPasses` | src/main/java/com/github/mwiede/feign/validation/ValidationInvocationHandlerFactoryDecorator.java:54-60 | An invocation returns if and only if the handler Feign built returned and every decorator's validator reported an empty set. |
| `ValidationGate.ViolationsCarryFirstFullReport` | src/main/java/com/github/mwiede/feign/validation/ValidationInvocationHandlerFactoryDecorator.java:56-58 | Suppose the handler Feign built returned but the invocation threw. Then what was thrown is a `ConstraintViolationException` with the complete set of the first decorator that objected. |
| `ValidationGate.WrappedEntryBehaviour` | src/main/java/com/github/mwiede/feign/validation/ValidationInvocationHandlerFactoryDecorator.java:45-73 | An entry that `create` rewrote behaves like the entry it replaced, except for validation. A failure stays the same failure and makes no further call. A return is followed by one validator call with the gate's current stand-in and the entry's key. The new entry returns the same response exactly when that call reports nothing, and otherwise throws the full set. |
| `ValidationGate.UnannotatedMethodIsValidated` | src/test/java/com/github/mwiede/feign/validation/ValidationInvocationHandlerFactoryDecoratorTest.java:88-99 | For a method without `@Valid` whose handler returns, the validator is called once, after the handler, whatever it answers. An empty answer makes the invocation return the handler's response. |
| `ValidationGate.ViolationsAreThrownWhole` | src/test/java/com/github/mwiede/feign/validation/ValidationInvocationHandlerFactoryDecoratorTest.java:77-86 | A non-empty answer from the validator makes the invocation throw a `ConstraintViolationException` carrying exactly that answer, instead of returning the response. |
| `ValidationGate.CreateTwice` | src/main/java/com/github/mwiede/feign/validation/ValidationInvocationHandlerFactoryDecorator.java:55-67 | Take two successful `create` calls on one gate, over two maps. The second stand-in is a different object from the first, and the gate's field holds the second. Every decorator the first call installed now validates against the second stand-in. |

## Left out

- `ExtendedFeign` is not part of this model. It is builder plumbing that re-wraps the factory it is given in a new gate, through a library call. Stacked gates are still covered by `Invoke` and `InvokeIsStackSemantics`.
- The example client and the Mockito test harness are not part of this model. The two unit tests are restated as `UnannotatedMethodIsValidated` and `ViolationsAreThrownWhole`.
- `ReturnsIffEveryCheckPasses`, `ViolationsCarryFirstFullReport`: these hold only because the model's validator cannot throw. An exception from `validateReturnValue` itself (line 55), such as an `IllegalArgumentException` or a `ValidationException`, is not representable, and neither is an exception from `original.create` (line 74).
- `Rethrown`: Java's `catch` also wraps subclasses of `InstantiationException` and `IllegalAccessException`, which `OtherThrowable` cannot express. `Proxy.newProxyInstance` declares neither checked exception, so in practice the wrapping branch is never taken, and only unchecked failures such as `IllegalArgumentException` reach the caller.
- The Bean Validation engine is an opaque parameter. `Validator` is a pure, deterministic function, and constraint semantics such as `@Size` or `@NotNull` are not modelled.
- Java reflection and `Proxy.newProxyInstance` are not modelled. Only the stand-in's name-based answer table is kept. Whether proxy construction throws is a parameter. The JDK proxy's own rules are not modelled, such as a `NullPointerException` when `null` is returned for a method with a primitive return type.
- The gate's `hashCode()` and `toString()` are inherited from `Object`. Their results are opaque constants of the gate.
- The handlers Feign built, and the HTTP calls behind them, are a pure function of handler identity and arguments. Their own state and I/O are not modelled.
- `Gate.Create`: the wrapped factory is a pure function of the target and the map contents after the rewrite. The model does not capture that Java hands over the same `Map` object, which the factory may keep and later read. The model does not count calls to the wrapped factory, so "exactly once" follows only from the method body, not from the contract.
- The iteration order of `dispatch.entrySet()` is unspecified, so the loop picks keys in an arbitrary order. The result does not depend on that order.
- Concurrency and thread-safety are not modelled, and neither is Feign's own dispatcher.
