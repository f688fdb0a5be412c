/** The collaborators the authorization manager delegates to, reduced to what
    the manager observes of them: reflective metadata as lookup tables, the
    authentication supplier as an object that counts its calls, and the
    expression engine as a record of uninterpreted functions. */
module Collaborators {
  import opened Wrappers

  // ---------------------------------------------------------------------------
  // Reflection: methods, classes and the @PreAuthorize annotation
  // ---------------------------------------------------------------------------

  datatype ClassRef = ClassRef(name: string)

  /** A java.lang.reflect.Method, identified by its declaring class and signature. */
  datatype MethodRef = MethodRef(declaringClass: ClassRef, name: string, parameterTypes: seq<ClassRef>)

  /** A @PreAuthorize annotation; `value` is its raw expression string. */
  datatype PreAuthorize = PreAuthorize(value: string)

  /** The static reflective facts of the running program.
      `mostSpecific` holds the answers of AopUtils.getMostSpecificMethod, for a
      method and a target class or none (a null target), wherever they differ
      from the method passed in; `methodAnnotations` and
      `classAnnotations` hold what AnnotationUtils.findAnnotation finds on a
      method or a class (after its own inheritance and meta-annotation search). */
  datatype Metadata = Metadata(
    mostSpecific: map<(MethodRef, Option<ClassRef>), MethodRef>,
    methodAnnotations: map<MethodRef, PreAuthorize>,
    classAnnotations: map<ClassRef, PreAuthorize>)

  /** AopUtils.getMostSpecificMethod: the answer the table records for `m` and
      `targetClass` (the target class may be absent), or `m` itself when the
      table records none. */
  function MostSpecificMethod(meta: Metadata, m: MethodRef, targetClass: Option<ClassRef>): MethodRef
  {
    if (m, targetClass) in meta.mostSpecific then meta.mostSpecific[(m, targetClass)] else m
  }

  /** AnnotationUtils.findAnnotation(method, PreAuthorize.class); None stands for null. */
  function FindAnnotationOnMethod(meta: Metadata, m: MethodRef): Option<PreAuthorize>
  {
    if m in meta.methodAnnotations then Some(meta.methodAnnotations[m]) else None
  }

  /** AnnotationUtils.findAnnotation(clazz, PreAuthorize.class); None stands for null. */
  function FindAnnotationOnClass(meta: Metadata, c: ClassRef): Option<PreAuthorize>
  {
    if c in meta.classAnnotations then Some(meta.classAnnotations[c]) else None
  }

  // ---------------------------------------------------------------------------
  // The invocation being authorized and the caller's identity
  // ---------------------------------------------------------------------------

  /** The contents of an Authentication are not examined by the manager. */
  type Authentication

  /** An argument of the intercepted call, opaque to the manager. */
  type Argument

  /** An aopalliance MethodInvocation: the invoked method and its arguments. */
  datatype MethodInvocation = MethodInvocation(invokedMethod: MethodRef, arguments: seq<Argument>)

  /** A MethodAuthorizationContext: the invocation and the class of its target
      object (None when the target is null). */
  datatype MethodAuthorizationContext = MethodAuthorizationContext(
    invocation: MethodInvocation, targetClass: Option<ClassRef>)

  /** A Supplier<Authentication>. Its answer is an identity or the message of
      the exception it throws; the ghost counter records how often the manager
      asked it. */
  class AuthenticationSupplier {
    const answer: Result<Authentication, string>
    ghost var calls: nat

    constructor (answer: Result<Authentication, string>)
      ensures this.answer == answer && calls == 0
    {
      this.answer := answer;
      calls := 0;
    }

    method Get() returns (a: Result<Authentication, string>)
      modifies this`calls
      ensures a == answer
      ensures calls == old(calls) + 1
    {
      a := answer;
      calls := calls + 1;
    }
  }

  // ---------------------------------------------------------------------------
  // The expression engine
  // ---------------------------------------------------------------------------

  /** A SpEL evaluation context; built by the handler, opaque here. */
  type EvaluationContext

  /** What evaluating an expression produced, as far as a boolean check cares. */
  datatype Value = BooleanValue(b: bool) | NullValue | OtherValue

  /** A parsed expression. `getValue` stands for Expression.getValue and fails
      with a message where SpEL throws an EvaluationException. */
  datatype Expression = Expression(
    expressionString: string,
    getValue: EvaluationContext -> Result<Value, string>)

  /** A MethodSecurityExpressionHandler, reduced to the two capabilities the
      manager uses: its parser (getExpressionParser().parseExpression, which
      fails with a message where SpEL throws a ParseException) and
      createEvaluationContext (which fails with the message of whatever it
      throws). */
  datatype MethodSecurityExpressionHandler = MethodSecurityExpressionHandler(
    parseExpression: string -> Result<Expression, string>,
    createEvaluationContext: (Authentication, MethodInvocation) -> Result<EvaluationContext, string>)

  /** The exceptions that leave the manager. */
  datatype Fault =
    | IllegalArgument(message: string)   // Assert.notNull on the setter
    | ParseFault(message: string)        // malformed @PreAuthorize value
    | EvaluationFault(message: string)   // evaluation threw or did not yield a boolean
    | CollaboratorFault(message: string) // the supplier or the context builder threw

  /** ExpressionUtils.evaluateAsBoolean: a boolean outcome is the answer; an
      evaluation error, null or a non-boolean value is a fault, never `false`. */
  function EvaluateAsBoolean(e: Expression, ctx: EvaluationContext): (r: Result<bool, Fault>)
    ensures r.Success? <==> e.getValue(ctx).Success? && e.getValue(ctx).value.BooleanValue?
    ensures r.Success? ==> r.value == e.getValue(ctx).value.b
    ensures r.Failure? ==> r.error.EvaluationFault?
  {
    match e.getValue(ctx)
    case Success(BooleanValue(b)) => Success(b)
    case Success(_) => Failure(EvaluationFault("Failed to evaluate expression '" + e.expressionString + "'"))
    case Failure(msg) => Failure(EvaluationFault("Failed to evaluate expression '" + e.expressionString + "'"))
  }
}
