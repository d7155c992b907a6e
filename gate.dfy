/** The validation gate: an `InvocationHandlerFactory` decorator that, in `create`, replaces every
    method handler of Feign's dispatch map with a decorator that validates the handler's return
    value, and then hands the map to the factory it wraps. */
module ValidationGate {
  import opened Values

  /** A Feign `Target`: the interface being proxied and the endpoint it talks to. */
  datatype Target = Target(iface: TypeName, name: string, url: string)

  /** The `InvocationHandler` the wrapped factory produces; opaque to the gate. */
  datatype InvocationHandler = InvocationHandler(id: nat)

  /** Identity of a method handler that is not one of the gate's decorators. */
  type HandlerId = nat

  /** A `MethodHandler`: one that Feign built (known by identity), or a `MethodHandlerDecorator` of a
      gate, bound to the method it guards and the handler it delegates to. */
  datatype Handler =
    | Primitive(id: HandlerId)
    | Decorated(gate: Gate, javaMethod: MethodRef, inner: Handler)

  /** `validator.forExecutables().validateReturnValue(instance, javaMethod, value)`, as a pure query. */
  type Validator = (StandIn?, MethodRef, Value) -> set<Violation>

  /** `original.create(target, dispatch)` of the wrapped factory, on the contents of the map. */
  type Factory = (Target, map<MethodRef, Handler>) -> InvocationHandler

  /** What each handler Feign built does when invoked with some arguments. */
  type Behaviour = (HandlerId, Args) -> Result<Value>

  /** A call into a collaborator, as seen from the gate. */
  datatype Call =
    | CallHandler(handler: HandlerId, argv: Args)
    | CallValidator(instance: StandIn?, javaMethod: MethodRef, value: Value)

  /** The outcome of one invocation, with the collaborator calls it made, in order. */
  datatype Execution = Execution(outcome: Result<Value>, calls: seq<Call>)

  /** The caller-owned `Map<Method, MethodHandler>` that `create` rewrites in place. */
  class Dispatch {
    var entries: map<MethodRef, Handler>

    constructor (entries: map<MethodRef, Handler>)
      ensures this.entries == entries
    {
      this.entries := entries;
    }
  }

  /** The proxy instance of the target interface that `createTargetInstance` builds: it answers
      `hashCode` and `toString` with those of the gate that built it, and `null` otherwise. */
  class StandIn {
    const iface: TypeName
    const owner: Gate

    constructor (iface: TypeName, owner: Gate)
      ensures this.iface == iface && this.owner == owner
    {
      this.iface := iface;
      this.owner := owner;
    }

    /** The proxy's answer to a call of method `m`: dispatch is on the method's name only. */
    function Answer(m: MethodRef): (v: Value)
      ensures m.name == "hashCode" ==> v == IntValue(owner.hash)
      ensures m.name == "toString" ==> v == StringValue(owner.text)
      ensures v == Null <==> m.name != "hashCode" && m.name != "toString"
    {
      if m.name == "hashCode" then IntValue(owner.hash)
      else if m.name == "toString" then StringValue(owner.text)
      else Null
    }
  }

  /** `ValidationInvocationHandlerFactoryDecorator`. `hash` and `text` are the results of the gate's
      own (inherited) `hashCode()` and `toString()`. */
  class Gate {
    const original: Factory
    const validator: Validator
    const hash: int32
    const text: string
    var targetTypeInstance: StandIn?

    constructor (original: Factory, validator: Validator, hash: int32, text: string)
      ensures this.original == original && this.validator == validator
      ensures this.hash == hash && this.text == text
      ensures targetTypeInstance == null
    {
      this.original := original;
      this.validator := validator;
      this.hash := hash;
      this.text := text;
      targetTypeInstance := null;
    }

    /** `createTargetInstance(type)`. `proxyFailure` is what `Proxy.newProxyInstance` throws for
        `iface`, if anything; on success the result is a new proxy whose answers forward to this gate. */
    method CreateTargetInstance(iface: TypeName, proxyFailure: Option<Throwable>) returns (r: Result<StandIn>)
      ensures proxyFailure.Some? ==> r == Raised(proxyFailure.value)
      ensures proxyFailure.None? ==> r.Ok? && fresh(r.value) && r.value.iface == iface && r.value.owner == this
    {
      if proxyFailure.Some? {
        return Raised(proxyFailure.value);
      }
      var instance := new StandIn(iface, this);
      return Ok(instance);
    }

    /** `create(target, dispatch)`: build the stand-in and store it, replace every value of the map by
        a decorator of this gate, then delegate to the wrapped factory. A failure to build the
        stand-in leaves the field and the map as they were and never reaches the wrapped factory. */
    method Create(target: Target, dispatch: Dispatch, proxyFailure: Option<Throwable>)
      returns (r: Result<InvocationHandler>)
      modifies this, dispatch
      ensures proxyFailure.Some? ==>
        && r == Raised(Rethrown(proxyFailure.value))
        && dispatch.entries == old(dispatch.entries)
        && targetTypeInstance == old(targetTypeInstance)
      ensures proxyFailure.None? ==>
        && targetTypeInstance != null && fresh(targetTypeInstance)
        && targetTypeInstance.iface == target.iface && targetTypeInstance.owner == this
        && dispatch.entries == Wrap(this, old(dispatch.entries))
        && r == Ok(original(target, dispatch.entries))
    {
      var instance := CreateTargetInstance(target.iface, proxyFailure);
      if instance.Raised? {
        return Raised(Rethrown(instance.error));
      }
      targetTypeInstance := instance.value;
      ghost var before := dispatch.entries;
      var pending := dispatch.entries.Keys;
      while pending != {}
        invariant pending <= before.Keys
        invariant dispatch.entries.Keys == before.Keys
        invariant forall k :: k in pending ==> dispatch.entries[k] == before[k]
        invariant forall k :: k in before && k !in pending ==> dispatch.entries[k] == Decorated(this, k, before[k])
        modifies dispatch
        decreases pending
      {
        var k :| k in pending;
        dispatch.entries := dispatch.entries[k := Decorated(this, k, dispatch.entries[k])];
        pending := pending - {k};
      }
      return Ok(original(target, dispatch.entries));
    }
  }

  /** The catch around `createTargetInstance`: the two checked reflective exceptions come out wrapped
      in a `RuntimeException`; anything else the proxy factory throws is not caught. */
  function Rethrown(e: Throwable): (r: Throwable)
    ensures r == e || r == RuntimeException(e)
    ensures r == RuntimeException(e) <==> e.InstantiationException? || e.IllegalAccessException?
  {
    if e.InstantiationException? || e.IllegalAccessException? then RuntimeException(e)
    else
      assert e != RuntimeException(e) by {
        if e.RuntimeException? { assert e.cause < e; }
      }
      e
  }

  /** The map as `create` leaves it: each value wrapped in a decorator of gate `g` for its own key. */
  function Wrap(g: Gate, m: map<MethodRef, Handler>): (r: map<MethodRef, Handler>)
    ensures r.Keys == m.Keys
    ensures forall k :: k in r ==> r[k].Decorated? && r[k].gate == g && r[k].javaMethod == k
    ensures Unwrap(r) == m
  {
    map k | k in m :: Decorated(g, k, m[k])
  }

  /** Peel one decorator off every value of a map whose values are all decorators. */
  function Unwrap(m: map<MethodRef, Handler>): map<MethodRef, Handler>
    requires forall k :: k in m ==> m[k].Decorated?
  {
    map k | k in m :: m[k].inner
  }

  /** The gates whose decorators make up `h`. */
  function GatesOf(h: Handler): set<Gate>
  {
    match h
    case Primitive(_) => {}
    case Decorated(g, _, inner) => {g} + GatesOf(inner)
  }

  /** The handler Feign built at the bottom of a stack of decorators. */
  function Base(h: Handler): HandlerId
  {
    match h
    case Primitive(id) => id
    case Decorated(_, _, inner) => Base(inner)
  }

  /** The number of decorators stacked on `Base(h)`. */
  function Depth(h: Handler): nat
  {
    match h
    case Primitive(_) => 0
    case Decorated(_, _, inner) => 1 + Depth(inner)
  }

  /** `MethodHandlerDecorator.invoke`, given the execution of the handler it delegates to: a failure
      of that handler propagates untouched and the validator is not asked; otherwise the validator is
      asked once about the response, whatever the method's annotations, and a non-empty answer is
      thrown as one `ConstraintViolationException` carrying all of it. */
  function DecoratorInvoke(instance: StandIn?, validator: Validator, javaMethod: MethodRef, inner: Execution)
    : (r: Execution)
    ensures inner.outcome.Raised? ==> r == inner
    ensures inner.outcome.Ok? ==>
      r.calls == inner.calls + [CallValidator(instance, javaMethod, inner.outcome.value)]
    ensures r.outcome.Ok? <==> inner.outcome.Ok? && validator(instance, javaMethod, inner.outcome.value) == {}
    ensures r.outcome.Ok? ==> r.outcome == inner.outcome
    ensures inner.outcome.Ok? && r.outcome.Raised? ==>
      r.outcome.error == ConstraintViolationException(validator(instance, javaMethod, inner.outcome.value))
  {
    match inner.outcome
    case Raised(_) => inner
    case Ok(response) =>
      var violations := validator(instance, javaMethod, response);
      var calls := inner.calls + [CallValidator(instance, javaMethod, response)];
      if violations != {} then Execution(Raised(ConstraintViolationException(violations)), calls)
      else Execution(Ok(response), calls)
  }

  /** `MethodHandler.invoke(argv)`. A decorator reads its gate's `targetTypeInstance` when it runs,
      not when it was made. Whatever the stack, the handler Feign built is called first, exactly once
      and with `argv` unchanged; if it throws, nothing else is called and that failure is the
      outcome; a value that comes back is the one that handler returned. */
  function Invoke(h: Handler, argv: Args, run: Behaviour): (e: Execution)
    reads GatesOf(h)
    ensures 1 <= |e.calls| <= 1 + Depth(h)
    ensures e.calls[0] == CallHandler(Base(h), argv)
    ensures forall i :: 1 <= i < |e.calls| ==> e.calls[i].CallValidator?
    ensures run(Base(h), argv).Raised? ==> e == Execution(run(Base(h), argv), [CallHandler(Base(h), argv)])
    ensures e.outcome.Ok? ==> e.outcome == run(Base(h), argv)
  {
    match h
    case Primitive(id) => Execution(run(id, argv), [CallHandler(id, argv)])
    case Decorated(g, m, inner) =>
      DecoratorInvoke(g.targetTypeInstance, g.validator, m, Invoke(inner, argv, run))
  }

  // Semantics of a stack of decorators, stated independently of Invoke.

  /** The validation one decorator performs: the stand-in and validator of its gate, and its method. */
  datatype Check = Check(instance: StandIn?, validator: Validator, javaMethod: MethodRef)

  ghost function Report(c: Check, v: Value): set<Violation>
  {
    c.validator(c.instance, c.javaMethod, v)
  }

  /** No check reports a violation of `v`. */
  ghost predicate AllPass(cs: seq<Check>, v: Value)
  {
    forall i :: 0 <= i < |cs| ==> Report(cs[i], v) == {}
  }

  /** The check at index `i` is the first to report a violation of `v`. */
  ghost predicate FirstObjection(cs: seq<Check>, v: Value, i: int)
  {
    && 0 <= i < |cs|
    && Report(cs[i], v) != {}
    && forall j :: 0 <= j < i ==> Report(cs[j], v) == {}
  }

  /** The checks of a stack of decorators, innermost first, with each gate's current stand-in. */
  ghost function Checks(h: Handler): (cs: seq<Check>)
    reads GatesOf(h)
    ensures |cs| == Depth(h)
  {
    match h
    case Primitive(_) => []
    case Decorated(g, m, inner) => Checks(inner) + [Check(g.targetTypeInstance, g.validator, m)]
  }

  /** Run the checks on `v` in order, stopping at the first that reports a violation. */
  ghost function ValidateInOrder(cs: seq<Check>, v: Value): Execution
    decreases |cs|
  {
    if |cs| == 0 then Execution(Ok(v), [])
    else
      var call := CallValidator(cs[0].instance, cs[0].javaMethod, v);
      var violations := Report(cs[0], v);
      if violations != {} then Execution(Raised(ConstraintViolationException(violations)), [call])
      else
        var rest := ValidateInOrder(cs[1..], v);
        Execution(rest.outcome, [call] + rest.calls)
  }

  /** The checks are consulted in order, each about `v`, at most once each; all of them when `v` comes
      back. */
  lemma {:induction false} ValidateInOrderTrace(cs: seq<Check>, v: Value)
    ensures var e := ValidateInOrder(cs, v);
      && |e.calls| <= |cs|
      && (forall i :: 0 <= i < |e.calls| ==> e.calls[i] == CallValidator(cs[i].instance, cs[i].javaMethod, v))
      && (e.outcome.Ok? ==> |e.calls| == |cs|)
    decreases |cs|
  {
    if |cs| != 0 && Report(cs[0], v) == {} {
      ValidateInOrderTrace(cs[1..], v);
      var rest := ValidateInOrder(cs[1..], v);
      assert forall i :: 1 <= i <= |rest.calls| ==>
        ([CallValidator(cs[0].instance, cs[0].javaMethod, v)] + rest.calls)[i] == rest.calls[i - 1];
    }
  }

  /** `v` comes back, unchanged, exactly when every check passes. */
  lemma {:induction false} ValidateInOrderReturns(cs: seq<Check>, v: Value)
    ensures var e := ValidateInOrder(cs, v);
      && (e.outcome.Ok? <==> AllPass(cs, v))
      && (e.outcome.Ok? ==> e.outcome == Ok(v))
    decreases |cs|
  {
    if |cs| != 0 && Report(cs[0], v) == {} {
      ValidateInOrderReturns(cs[1..], v);
      assert forall i :: 1 <= i < |cs| ==> cs[1..][i - 1] == cs[i];
    }
  }

  /** A throw comes from the first check that objects, the last one consulted, and carries its whole set. */
  lemma {:induction false} ValidateInOrderThrows(cs: seq<Check>, v: Value)
    ensures var e := ValidateInOrder(cs, v);
      e.outcome.Raised? ==>
        && FirstObjection(cs, v, |e.calls| - 1)
        && e.outcome.error == ConstraintViolationException(Report(cs[|e.calls| - 1], v))
    decreases |cs|
  {
    if |cs| != 0 && Report(cs[0], v) == {} {
      ValidateInOrderThrows(cs[1..], v);
      assert forall i :: 1 <= i < |cs| ==> cs[1..][i - 1] == cs[i];
    }
  }

  /** What invoking a stack of decorators should do: call the handler Feign built, then, if it
      returned, validate the response with every decorator's check from the innermost outwards. */
  ghost function StackSemantics(h: Handler, argv: Args, run: Behaviour): Execution
    reads GatesOf(h)
  {
    var first := CallHandler(Base(h), argv);
    match run(Base(h), argv)
    case Raised(e) => Execution(Raised(e), [first])
    case Ok(v) =>
      var rest := ValidateInOrder(Checks(h), v);
      Execution(rest.outcome, [first] + rest.calls)
  }

  /** Adding a check at the end runs it only if all earlier checks passed. */
  lemma {:induction false} ValidateInOrderSnoc(cs: seq<Check>, c: Check, v: Value)
    ensures var e := ValidateInOrder(cs, v);
      ValidateInOrder(cs + [c], v) ==
        if e.outcome.Raised? then e
        else if Report(c, v) != {} then
          Execution(Raised(ConstraintViolationException(Report(c, v))), e.calls + [CallValidator(c.instance, c.javaMethod, v)])
        else Execution(Ok(v), e.calls + [CallValidator(c.instance, c.javaMethod, v)])
    decreases |cs|
  {
    if |cs| != 0 {
      assert (cs + [c])[1..] == cs[1..] + [c];
      ValidateInOrderSnoc(cs[1..], c, v);
    }
  }

  /** Invoking any stack of decorators, from any number of gates or repeated `create` calls, is the
      reference semantics. */
  lemma {:induction false} InvokeIsStackSemantics(h: Handler, argv: Args, run: Behaviour)
    ensures Invoke(h, argv, run) == StackSemantics(h, argv, run)
  {
    match h
    case Primitive(_) =>
    case Decorated(g, m, inner) =>
      InvokeIsStackSemantics(inner, argv, run);
      var c := Check(g.targetTypeInstance, g.validator, m);
      assert Base(h) == Base(inner) && Checks(h) == Checks(inner) + [c];
      match run(Base(inner), argv)
      case Raised(_) =>
      case Ok(v) =>
        ValidateInOrderSnoc(Checks(inner), c, v);
        var rest := ValidateInOrder(Checks(inner), v);
        assert Invoke(inner, argv, run) == Execution(rest.outcome, [CallHandler(Base(inner), argv)] + rest.calls);
  }

  /** An invocation returns if and only if the handler Feign built returned and no decorator's
      validator reported anything; it then returns that handler's response. */
  lemma ReturnsIffEveryCheckPasses(h: Handler, argv: Args, run: Behaviour)
    ensures Invoke(h, argv, run).outcome.Ok? <==>
      run(Base(h), argv).Ok? && AllPass(Checks(h), run(Base(h), argv).value)
  {
    if run(Base(h), argv).Ok? {
      OutcomeAfterReturn(h, argv, run);
      ValidateInOrderReturns(Checks(h), run(Base(h), argv).value);
    }
  }

  /** An invocation that throws a `ConstraintViolationException` the handler Feign built did not
      throw carries the complete violation set of the first decorator whose validator objected, every
      decorator inside it having passed. */
  lemma ViolationsCarryFirstFullReport(h: Handler, argv: Args, run: Behaviour)
    requires run(Base(h), argv).Ok?
    requires Invoke(h, argv, run).outcome.Raised?
    ensures exists i ::
              && FirstObjection(Checks(h), run(Base(h), argv).value, i)
              && Invoke(h, argv, run).outcome.error ==
                   ConstraintViolationException(Report(Checks(h)[i], run(Base(h), argv).value))
  {
    OutcomeAfterReturn(h, argv, run);
    RaisedHasFirstObjection(Checks(h), run(Base(h), argv).value);
  }

  /** Checks that end in a throw have a first objection, and it is what is thrown. */
  lemma RaisedHasFirstObjection(cs: seq<Check>, v: Value)
    requires ValidateInOrder(cs, v).outcome.Raised?
    ensures exists i ::
              && FirstObjection(cs, v, i)
              && ValidateInOrder(cs, v).outcome.error == ConstraintViolationException(Report(cs[i], v))
  {
    ValidateInOrderThrows(cs, v);
    var i := |ValidateInOrder(cs, v).calls| - 1;
    assert FirstObjection(cs, v, i);
  }

  /** Once the handler Feign built has returned, the outcome is that of the checks run in order. */
  lemma OutcomeAfterReturn(h: Handler, argv: Args, run: Behaviour)
    requires run(Base(h), argv).Ok?
    ensures Invoke(h, argv, run).outcome == ValidateInOrder(Checks(h), run(Base(h), argv).value).outcome
  {
    InvokeIsStackSemantics(h, argv, run);
  }

  // One decorator, as `create` installs it.

  /** The entry `create` leaves for method `k` behaves as the entry it replaced, except that a
      return passes through gate `g`'s validator, asked with `g`'s current stand-in and `k`. */
  lemma WrappedEntryBehaviour(g: Gate, m: map<MethodRef, Handler>, k: MethodRef, argv: Args, run: Behaviour)
    requires k in m
    ensures var before := Invoke(m[k], argv, run);
      var after := Invoke(Wrap(g, m)[k], argv, run);
      && (before.outcome.Raised? ==> after == before)
      && (before.outcome.Ok? ==>
            after.calls == before.calls + [CallValidator(g.targetTypeInstance, k, before.outcome.value)])
      && (after.outcome.Ok? <==>
            before.outcome.Ok? && g.validator(g.targetTypeInstance, k, before.outcome.value) == {})
      && (after.outcome.Ok? ==> after.outcome == before.outcome)
      && (before.outcome.Ok? && after.outcome.Raised? ==>
            after.outcome.error == ConstraintViolationException(g.validator(g.targetTypeInstance, k, before.outcome.value)))
  {
    assert Wrap(g, m)[k] == Decorated(g, k, m[k]);
  }

  /** The validator is asked once after the handler returns, even about a method without `@Valid`,
      whatever it answers; an empty answer lets the handler's response through unchanged. */
  lemma UnannotatedMethodIsValidated(g: Gate, m: MethodRef, id: HandlerId, argv: Args, run: Behaviour)
    requires !m.annotatedValid
    requires run(id, argv).Ok?
    ensures Invoke(Decorated(g, m, Primitive(id)), argv, run).calls ==
      [CallHandler(id, argv), CallValidator(g.targetTypeInstance, m, run(id, argv).value)]
    ensures g.validator(g.targetTypeInstance, m, run(id, argv).value) == {} ==>
      Invoke(Decorated(g, m, Primitive(id)), argv, run).outcome == run(id, argv)
  {
  }

  /** A non-empty answer from the validator is thrown whole, and the response is not returned. */
  lemma ViolationsAreThrownWhole(g: Gate, m: MethodRef, id: HandlerId, argv: Args, run: Behaviour)
    requires run(id, argv).Ok?
    requires g.validator(g.targetTypeInstance, m, run(id, argv).value) != {}
    ensures Invoke(Decorated(g, m, Primitive(id)), argv, run).outcome ==
      Raised(ConstraintViolationException(g.validator(g.targetTypeInstance, m, run(id, argv).value)))
  {
  }

  /** Two stand-ins built by one gate answer every method alike, whatever interface they stand in for. */
  lemma StandInsOfOneGateAgree(s1: StandIn, s2: StandIn, m: MethodRef)
    requires s1.owner == s2.owner
    ensures s1.Answer(m) == s2.Answer(m)
  {
  }

  /** Two successful `create` calls on one gate with two maps: every decorator the first call
      installed is bound to the gate, whose field now holds the second call's stand-in, a different
      object from the first; so those decorators now validate against the second stand-in. */
  method CreateTwice(g: Gate, t1: Target, d1: Dispatch, t2: Target, d2: Dispatch)
    returns (first: StandIn, second: StandIn)
    requires d1 != d2
    modifies g, d1, d2
    ensures first != second && g.targetTypeInstance == second && second.iface == t2.iface
    ensures d1.entries == Wrap(g, old(d1.entries)) && d2.entries == Wrap(g, old(d2.entries))
    ensures forall k, argv, run :: k in d1.entries && Invoke(d1.entries[k].inner, argv, run).outcome.Ok? ==>
      Invoke(d1.entries[k], argv, run).calls[|Invoke(d1.entries[k], argv, run).calls| - 1] ==
        CallValidator(second, k, Invoke(d1.entries[k].inner, argv, run).outcome.value)
  {
    var _ := g.Create(t1, d1, None);
    first := g.targetTypeInstance;
    var _ := g.Create(t2, d2, None);
    second := g.targetTypeInstance;
  }
}
