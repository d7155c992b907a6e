/** Java-level values the validation gate passes around: reflective methods, call arguments and
    return values, constraint violations, throwables, and the outcome of a call that may throw. */
module Values {

  /** A Java `int`. */
  newtype int32 = x: int | -0x8000_0000 <= x < 0x8000_0000

  /** The binary name of a Java class or interface. */
  type TypeName = string

  /** A `java.lang.reflect.Method`: its declaring interface, its name, its parameter types, and
      whether it carries the `@Valid` annotation. The gate never looks at `annotatedValid`; it is
      here so that the model can say so. */
  datatype MethodRef = MethodRef(
    declaringType: TypeName,
    name: string,
    parameterTypes: seq<TypeName>,
    annotatedValid: bool)

  /** A Java object as far as the gate is concerned: `null`, a boxed `int`, a `String`, or any other
      object, known only by its identity. */
  datatype Value =
    | Null
    | IntValue(i: int32)
    | StringValue(s: string)
    | Reference(id: nat)

  /** The `Object[] argv` of one invocation. */
  type Args = seq<Value>

  /** One `ConstraintViolation`: the property path it names and its message. */
  datatype Violation = Violation(propertyPath: string, message: string)

  /** The throwables the gate raises, catches or lets through. */
  datatype Throwable =
    | ConstraintViolationException(violations: set<Violation>)
    | RuntimeException(cause: Throwable)
    | InstantiationException(message: string)
    | IllegalAccessException(message: string)
    | OtherThrowable(className: string, message: string)

  /** The outcome of a Java call: it returned a value, or it threw. */
  datatype Result<+T> = Ok(value: T) | Raised(error: Throwable)

  datatype Option<+T> = None | Some(value: T)
}
