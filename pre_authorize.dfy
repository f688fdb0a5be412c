/** PreAuthorizeAuthorizationManager: decides a method call by evaluating the
    @PreAuthorize expression found on the method or on its declaring class.
    Attribute resolution and the decision rule are functions; the manager,
    whose expression handler is replaced by a setter and whose registry fills
    a cache, is a class whose methods are proved against those functions. */
module PreAuthorize {
  import opened Wrappers
  import opened Collaborators

  /** An ExpressionAttribute: the shared NULL_ATTRIBUTE sentinel, or a wrapped
      parsed expression. Being a datatype, it is never null. */
  datatype ExpressionAttribute = NullAttribute | Present(expression: Expression)

  // ---------------------------------------------------------------------------
  // Attribute resolution (the inner PreAuthorizeExpressionAttributeRegistry)
  // ---------------------------------------------------------------------------

  /** findPreAuthorizeAnnotation: the annotation on the method wins; the one on
      its declaring class is only a fallback; exactly one of them is taken. */
  function FindPreAuthorizeAnnotation(meta: Metadata, m: MethodRef): (r: Option<PreAuthorize>)
    ensures FindAnnotationOnMethod(meta, m).Some? ==> r == FindAnnotationOnMethod(meta, m)
    ensures FindAnnotationOnMethod(meta, m).None? ==> r == FindAnnotationOnClass(meta, m.declaringClass)
    ensures r.None? <==>
              FindAnnotationOnMethod(meta, m).None? && FindAnnotationOnClass(meta, m.declaringClass).None?
  {
    var onMethod := FindAnnotationOnMethod(meta, m);
    if onMethod.Some? then onMethod else FindAnnotationOnClass(meta, m.declaringClass)
  }

  /** The annotation that governs `m` when invoked on `targetClass`. */
  function GoverningAnnotation(meta: Metadata, m: MethodRef, targetClass: Option<ClassRef>): Option<PreAuthorize>
  {
    FindPreAuthorizeAnnotation(meta, MostSpecificMethod(meta, m, targetClass))
  }

  /** resolveAttribute: the sentinel exactly when no annotation governs the
      method; otherwise the value of exactly that annotation parsed by the
      parser of `handler` (the handler current at resolution time), wrapped,
      or the parser's fault. */
  function ResolveAttribute(meta: Metadata, handler: MethodSecurityExpressionHandler,
                            m: MethodRef, targetClass: Option<ClassRef>): (r: Result<ExpressionAttribute, Fault>)
    ensures GoverningAnnotation(meta, m, targetClass).None? <==> r == Success(NullAttribute)
    ensures GoverningAnnotation(meta, m, targetClass).Some? ==>
              var parsed := handler.parseExpression(GoverningAnnotation(meta, m, targetClass).value.value);
              && (parsed.Success? ==> r == Success(Present(parsed.value)))
              && (parsed.Failure? ==> r == Failure(ParseFault(parsed.error)))
  {
    var preAuthorize := GoverningAnnotation(meta, m, targetClass);
    if preAuthorize.None? then
      Success(NullAttribute)
    else
      match handler.parseExpression(preAuthorize.value.value)
      case Success(e) => Success(Present(e))
      case Failure(msg) => Failure(ParseFault(msg))
  }

  /** How many times resolveAttribute calls the parser: once when an annotation
      governs the method, never otherwise. */
  function ParserCalls(meta: Metadata, m: MethodRef, targetClass: Option<ClassRef>): nat
  {
    if GoverningAnnotation(meta, m, targetClass).Some? then 1 else 0
  }

  /** Without an annotation, resolution does not depend on the handler at all:
      the parser is never consulted and the result is the sentinel. */
  lemma NoAnnotationNeverParses(meta: Metadata, h1: MethodSecurityExpressionHandler,
                                h2: MethodSecurityExpressionHandler, m: MethodRef, targetClass: Option<ClassRef>)
    requires GoverningAnnotation(meta, m, targetClass).None?
    ensures ParserCalls(meta, m, targetClass) == 0
    ensures ResolveAttribute(meta, h1, m, targetClass) == ResolveAttribute(meta, h2, m, targetClass)
                                                        == Success(NullAttribute)
  {
  }

  /** A method-level annotation governs, and is the one parsed, even when the
      declaring class carries a different one; a parse failure of it is the
      fault reported. */
  lemma MethodAnnotationOverridesClassAnnotation(meta: Metadata, handler: MethodSecurityExpressionHandler,
                                                 m: MethodRef, targetClass: Option<ClassRef>)
    requires var s := MostSpecificMethod(meta, m, targetClass);
             s in meta.methodAnnotations && s.declaringClass in meta.classAnnotations
    ensures var s := MostSpecificMethod(meta, m, targetClass);
            var parsed := handler.parseExpression(meta.methodAnnotations[s].value);
            && GoverningAnnotation(meta, m, targetClass) == Some(meta.methodAnnotations[s])
            && (parsed.Success? ==> ResolveAttribute(meta, handler, m, targetClass) == Success(Present(parsed.value)))
            && (parsed.Failure? ==> ResolveAttribute(meta, handler, m, targetClass) == Failure(ParseFault(parsed.error)))
  {
  }

  /** A worked case: class T annotates itself with isAuthenticated() and its
      method m with hasRole('ADMIN'); T.n has no annotation of its own and
      inherits the class policy; U.p has none anywhere and resolves to the
      sentinel. */
  lemma PrecedenceExample(handler: MethodSecurityExpressionHandler)
    ensures var t, u := ClassRef("T"), ClassRef("U");
            var m, n, p := MethodRef(t, "m", []), MethodRef(t, "n", []), MethodRef(u, "p", []);
            var meta := Metadata(map[], map[m := PreAuthorize("hasRole('ADMIN')")],
                                 map[t := PreAuthorize("isAuthenticated()")]);
            && GoverningAnnotation(meta, m, Some(t)) == Some(PreAuthorize("hasRole('ADMIN')"))
            && GoverningAnnotation(meta, n, Some(t)) == Some(PreAuthorize("isAuthenticated()"))
            && ResolveAttribute(meta, handler, p, Some(u)) == Success(NullAttribute)
  {
  }

  /** A present attribute always comes from an annotation whose value the
      handler's parser accepted. */
  lemma PresentAttributeHasSource(meta: Metadata, handler: MethodSecurityExpressionHandler,
                                  m: MethodRef, targetClass: Option<ClassRef>, e: Expression)
    requires ResolveAttribute(meta, handler, m, targetClass) == Success(Present(e))
    ensures exists a :: GoverningAnnotation(meta, m, targetClass) == Some(a)
                        && handler.parseExpression(a.value) == Success(e)
  {
    var a := GoverningAnnotation(meta, m, targetClass).value;
    assert GoverningAnnotation(meta, m, targetClass) == Some(a);
  }

  // ---------------------------------------------------------------------------
  // The registry cache (computeIfAbsent keyed by method and target class)
  // ---------------------------------------------------------------------------

  /** A MethodClassKey: the cache key of the registry. */
  datatype MethodClassKey = MethodClassKey(keyMethod: MethodRef, targetClass: Option<ClassRef>)

  function KeyOf(context: MethodAuthorizationContext): MethodClassKey
  {
    MethodClassKey(context.invocation.invokedMethod, context.targetClass)
  }

  /** The outcome of one registry lookup: the attribute (or the fault thrown),
      the cache afterwards, and how many times the parser was called. */
  datatype Lookup = Lookup(
    attribute: Result<ExpressionAttribute, Fault>,
    cache: map<MethodClassKey, ExpressionAttribute>,
    parses: nat)

  /** registry.getAttribute: a hit returns the stored attribute and resolves
      nothing; a miss resolves, stores a successful result (the sentinel
      included) and stores nothing when resolution faults. */
  function RegistryLookup(meta: Metadata, handler: MethodSecurityExpressionHandler,
                          cache: map<MethodClassKey, ExpressionAttribute>, key: MethodClassKey): (r: Lookup)
    ensures key in cache ==> r == Lookup(Success(cache[key]), cache, 0)
    ensures key !in cache ==>
              && r.attribute == ResolveAttribute(meta, handler, key.keyMethod, key.targetClass)
              && r.parses == ParserCalls(meta, key.keyMethod, key.targetClass)
              && r.cache == (if r.attribute.Success? then cache[key := r.attribute.value] else cache)
  {
    if key in cache then
      Lookup(Success(cache[key]), cache, 0)
    else
      var resolved := ResolveAttribute(meta, handler, key.keyMethod, key.targetClass);
      var parses := ParserCalls(meta, key.keyMethod, key.targetClass);
      match resolved
      case Success(attribute) => Lookup(resolved, cache[key := attribute], parses)
      case Failure(_) => Lookup(resolved, cache, parses)
  }

  /** Every cached attribute is what resolution under `handler` yields. */
  ghost predicate Consistent(meta: Metadata, handler: MethodSecurityExpressionHandler,
                             cache: map<MethodClassKey, ExpressionAttribute>)
  {
    forall k :: k in cache ==> ResolveAttribute(meta, handler, k.keyMethod, k.targetClass) == Success(cache[k])
  }

  /** Every cached attribute is what resolution yields under the handler
      recorded for it in `resolvedWith`, the handler current when it was cached. */
  ghost predicate ResolvedBy(meta: Metadata, resolvedWith: map<MethodClassKey, MethodSecurityExpressionHandler>,
                             cache: map<MethodClassKey, ExpressionAttribute>)
  {
    forall k :: k in cache ==>
      k in resolvedWith && ResolveAttribute(meta, resolvedWith[k], k.keyMethod, k.targetClass) == Success(cache[k])
  }

  /** Memoisation is transparent: over a consistent cache a lookup returns what
      resolution would return, and the cache stays consistent. */
  lemma LookupIsTransparent(meta: Metadata, handler: MethodSecurityExpressionHandler,
                            cache: map<MethodClassKey, ExpressionAttribute>, key: MethodClassKey)
    requires Consistent(meta, handler, cache)
    ensures RegistryLookup(meta, handler, cache, key).attribute
            == ResolveAttribute(meta, handler, key.keyMethod, key.targetClass)
    ensures Consistent(meta, handler, RegistryLookup(meta, handler, cache, key).cache)
  {
  }

  // ---------------------------------------------------------------------------
  // The decision
  // ---------------------------------------------------------------------------

  /** What check returns for a resolved attribute, given what the supplier
      answers when asked: None (abstain, Java's null) exactly for the
      sentinel, the supplier's answer then being irrelevant; otherwise the
      supplier's or the context builder's fault, or the boolean the expression
      evaluates to in the context built from the identity and the invocation,
      or the evaluation fault. An abstain is never a denial. */
  function Decide(attribute: ExpressionAttribute, handler: MethodSecurityExpressionHandler,
                  authentication: Result<Authentication, string>, invocation: MethodInvocation)
    : (r: Result<Option<bool>, Fault>)
    ensures r == Success(None) <==> attribute.NullAttribute?
    ensures attribute.Present? && authentication.Failure? ==> r == Failure(CollaboratorFault(authentication.error))
    ensures attribute.Present? && authentication.Success? ==>
              var ctx := handler.createEvaluationContext(authentication.value, invocation);
              && (ctx.Failure? ==> r == Failure(CollaboratorFault(ctx.error)))
              && (ctx.Success? ==>
                    var outcome := EvaluateAsBoolean(attribute.expression, ctx.value);
                    && (outcome.Success? ==> r == Success(Some(outcome.value)))
                    && (outcome.Failure? ==> r == Failure(outcome.error)))
  {
    match attribute
    case NullAttribute => Success(None)
    case Present(e) =>
      match authentication
      case Failure(msg) => Failure(CollaboratorFault(msg))
      case Success(identity) =>
        match handler.createEvaluationContext(identity, invocation)
        case Failure(msg) => Failure(CollaboratorFault(msg))
        case Success(ctx) =>
          match EvaluateAsBoolean(e, ctx)
          case Success(granted) => Success(Some(granted))
          case Failure(f) => Failure(f)
  }

  /** The whole check over a given cache, as a function: the fault of the
      lookup, or the decision on its attribute. */
  function CheckOutcome(meta: Metadata, handler: MethodSecurityExpressionHandler,
                        cache: map<MethodClassKey, ExpressionAttribute>,
                        authentication: Result<Authentication, string>, context: MethodAuthorizationContext)
    : Result<Option<bool>, Fault>
  {
    var lookup := RegistryLookup(meta, handler, cache, KeyOf(context));
    match lookup.attribute
    case Failure(f) => Failure(f)
    case Success(attribute) => Decide(attribute, handler, authentication, context.invocation)
  }

  /** Whatever handlers resolved the cached attributes, check abstains exactly
      when no annotation governs the invoked method, whoever the caller is:
      whether resolution yields the sentinel does not depend on the handler. */
  lemma AbstainsExactlyWithoutAnnotation(meta: Metadata, handler: MethodSecurityExpressionHandler,
                                         resolvedWith: map<MethodClassKey, MethodSecurityExpressionHandler>,
                                         cache: map<MethodClassKey, ExpressionAttribute>,
                                         authentication: Result<Authentication, string>,
                                         context: MethodAuthorizationContext)
    requires ResolvedBy(meta, resolvedWith, cache)
    ensures CheckOutcome(meta, handler, cache, authentication, context) == Success(None)
            <==> GoverningAnnotation(meta, context.invocation.invokedMethod, context.targetClass).None?
  {
  }

  // ---------------------------------------------------------------------------
  // The manager
  // ---------------------------------------------------------------------------

  const HandlerCannotBeNull := "expressionHandler cannot be null"

  class PreAuthorizeAuthorizationManager {
    /** The program's reflective facts; static for the life of the manager. */
    const metadata: Metadata
    var expressionHandler: MethodSecurityExpressionHandler
    /** The registry's cache. */
    var cachedAttributes: map<MethodClassKey, ExpressionAttribute>
    /** The handler that was current when each cached attribute was resolved. */
    ghost var resolvedWith: map<MethodClassKey, MethodSecurityExpressionHandler>
    /** How many times the registry has called a parser. */
    ghost var parseCount: nat

    ghost predicate Valid()
      reads this
    {
      && resolvedWith.Keys == cachedAttributes.Keys
      && ResolvedBy(metadata, resolvedWith, cachedAttributes)
    }

    /** The manager starts with the default handler and an empty registry. */
    constructor (metadata: Metadata, defaultHandler: MethodSecurityExpressionHandler)
      ensures Valid()
      ensures this.metadata == metadata && expressionHandler == defaultHandler
      ensures cachedAttributes == map[] && parseCount == 0
    {
      this.metadata := metadata;
      expressionHandler := defaultHandler;
      cachedAttributes := map[];
      resolvedWith := map[];
      parseCount := 0;
    }

    /** setExpressionHandler: null is refused and changes nothing; any other
      handler replaces the current one and nothing else (the registry keeps
      what it has already resolved). */
    method SetExpressionHandler(handler: Option<MethodSecurityExpressionHandler>) returns (outcome: Outcome<Fault>)
      requires Valid()
      modifies this`expressionHandler
      ensures Valid()
      ensures handler.None? ==> outcome == Fail(IllegalArgument(HandlerCannotBeNull))
                                && expressionHandler == old(expressionHandler)
      ensures handler.Some? ==> outcome == Pass && expressionHandler == handler.value
      ensures cachedAttributes == old(cachedAttributes) && parseCount == old(parseCount)
    {
      if handler.None? {
        return Fail(IllegalArgument(HandlerCannotBeNull));
      }
      expressionHandler := handler.value;
      outcome := Pass;
    }

    /** registry.getAttribute(context), resolving with the current handler on a miss. */
    method GetAttribute(context: MethodAuthorizationContext) returns (attribute: Result<ExpressionAttribute, Fault>)
      requires Valid()
      modifies this`cachedAttributes, this`resolvedWith, this`parseCount
      ensures Valid()
      ensures var lookup := RegistryLookup(metadata, expressionHandler, old(cachedAttributes), KeyOf(context));
              && attribute == lookup.attribute
              && cachedAttributes == lookup.cache
              && parseCount == old(parseCount) + lookup.parses
    {
      var key := KeyOf(context);
      if key in cachedAttributes {
        return Success(cachedAttributes[key]);
      }
      attribute := ResolveAttribute(metadata, expressionHandler, key.keyMethod, key.targetClass);
      parseCount := parseCount + ParserCalls(metadata, key.keyMethod, key.targetClass);
      if attribute.Success? {
        cachedAttributes := cachedAttributes[key := attribute.value];
        resolvedWith := resolvedWith[key := expressionHandler];
      }
    }

    /** check: abstain without asking for the caller's identity when the
      registry yields the sentinel, which happens exactly when no annotation
      governs the method; otherwise ask the supplier exactly once (even when
      it throws) and decide by evaluating the attribute's expression. */
    method Check(authentication: AuthenticationSupplier, context: MethodAuthorizationContext)
      returns (decision: Result<Option<bool>, Fault>)
      requires Valid()
      modifies this`cachedAttributes, this`resolvedWith, this`parseCount, authentication`calls
      ensures Valid()
      ensures decision == CheckOutcome(metadata, expressionHandler, old(cachedAttributes),
                                       authentication.answer, context)
      ensures decision == Success(None)
              <==> GoverningAnnotation(metadata, context.invocation.invokedMethod, context.targetClass).None?
      ensures var lookup := RegistryLookup(metadata, expressionHandler, old(cachedAttributes), KeyOf(context));
              && cachedAttributes == lookup.cache
              && parseCount == old(parseCount) + lookup.parses
              && authentication.calls == old(authentication.calls)
                                         + (if lookup.attribute.Success? && lookup.attribute.value.Present? then 1 else 0)
    {
      var attribute := GetAttribute(context);
      if attribute.Failure? {
        return Failure(attribute.error);
      }
      if attribute.value.NullAttribute? {
        return Success(None);
      }
      AbstainsExactlyWithoutAnnotation(metadata, expressionHandler, old(resolvedWith), old(cachedAttributes),
                                       authentication.answer, context);
      var identity := authentication.Get();
      if identity.Failure? {
        return Failure(CollaboratorFault(identity.error));
      }
      var ctx := expressionHandler.createEvaluationContext(identity.value, context.invocation);
      if ctx.Failure? {
        return Failure(CollaboratorFault(ctx.error));
      }
      var granted := EvaluateAsBoolean(attribute.value.expression, ctx.value);
      if granted.Failure? {
        return Failure(granted.error);
      }
      decision := Success(Some(granted.value));
    }
  }
}
