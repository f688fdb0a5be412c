# PreAuthorizeAuthorizationManager, modelled in Dafny

Spring Security's `PreAuthorizeAuthorizationManager` decides whether a method call may proceed. It looks for a `@PreAuthorize` annotation. The one on the method takes precedence; the one on the declaring class is the fallback. The registry parses the annotation's expression and caches it, once per method/target-class pair when the parse succeeds (assumed behaviour of the registry cache, which is not part of this model). Each `check` then evaluates the cached expression against the caller's `Authentication`. When no annotation exists, `check` abstains: Java returns `null`, and the model returns `None`.

Modules:

- `Wrappers`: `Option` (Java's nullable results), `Result` (calls that may throw) and `Outcome` (a void call that may throw).
- `Collaborators`: stand-ins for everything the manager delegates to:
  - reflective facts as lookup tables (`Metadata`): `AopUtils.getMostSpecificMethod` and `AnnotationUtils.findAnnotation` on a method or a class;
  - the `Supplier<Authentication>`, as a class with a ghost call counter;
  - the `MethodSecurityExpressionHandler`, as a record of uninterpreted functions (the parser and `createEvaluationContext`);
  - a parsed `Expression`, carrying its own uninterpreted `getValue`;
  - `ExpressionUtils.evaluateAsBoolean`;
  - the `Fault`s that can be thrown.
- `PreAuthorize`: the core itself:
  - `FindPreAuthorizeAnnotation` and `ResolveAttribute`;
  - the registry lookup `RegistryLookup`;
  - the decision rule `Decide`;
  - the class `PreAuthorizeAuthorizationManager`. Its mutable handler and registry cache are fields. Its methods `SetExpressionHandler`, `GetAttribute` and `Check` are proved against the functions above.
- `RegistryReplay`: properties of a run of registry lookups with a fixed handler.

The registry's cache lives in `AbstractExpressionAttributeRegistry`, which is not part of this model. It is modelled as an ASSUMPTION, not as cited behaviour: `computeIfAbsent` over a map keyed by (method, target class), calling `resolveAttribute` on a miss. A fault thrown by resolution leaves no entry behind.

## Model

| member | source | states |
|---|---|---|
| `PreAuthorize.FindPreAuthorizeAnnotation` | core/src/main/java/org/springframework/security/authorization/method/PreAuthorizeAuthorizationManager.java:99-103 | The method's own annotation is used whenever it exists. Only when it is absent is the declaring class's annotation used. The result is absent exactly when both are absent. |
| `PreAuthorize.ResolveAttribute` | core/src/main/java/org/springframework/security/authorization/method/PreAuthorizeAuthorizationManager.java:86-97 | On the most specific method, the result is the `NULL_ATTRIBUTE` sentinel exactly when no annotation is found. Otherwise it wraps the parse of exactly that annotation's value, by the parser of the given (current) handler. A parse failure surfaces as a `ParseFault` and is never turned into the sentinel. |
| `PreAuthorize.NoAnnotationNeverParses` | core/src/main/java/org/springframework/security/authorization/method/PreAuthorizeAuthorizationManager.java:90-93 | Without an annotation the parser is called zero times. The result is the sentinel whatever the handler is, so it does not depend on the parser. |
| `PreAuthorize.MethodAnnotationOverridesClassAnnotation` | core/src/main/java/org/springframework/security/authorization/method/PreAuthorizeAuthorizationManager.java:99-102 | When both the method and its declaring class are annotated, the method's annotation governs. The attribute is the parse of its value, or the `ParseFault` of that parse. |
| `PreAuthorize.PrecedenceExample` | core/src/main/java/org/springframework/security/authorization/method/PreAuthorizeAuthorizationManager.java:99-103 | A concrete case: a method-level policy, a policy inherited from the class, and no policy at all (the sentinel). |
| `PreAuthorize.PresentAttributeHasSource` | core/src/main/java/org/springframework/security/authorization/method/PreAuthorizeAuthorizationManager.java:94-96 | A non-sentinel attribute always wraps the parse of the governing annotation's value. |
| `PreAuthorize.RegistryLookup` | core/src/main/java/org/springframework/security/authorization/method/PreAuthorizeAuthorizationManager.java:73 | This is the assumed `registry.getAttribute`. A hit returns the cached attribute, leaves the cache unchanged and calls the parser 0 times. A miss returns `resolveAttribute`'s result and calls the parser as often as resolution does. It caches a successful result, the sentinel included, and caches nothing on a fault. |
| `PreAuthorize.LookupIsTransparent` | core/src/main/java/org/springframework/security/authorization/method/PreAuthorizeAuthorizationManager.java:73 | Over a cache whose entries all agree with resolution, a lookup returns exactly what `resolveAttribute` returns, and the cache keeps that agreement. |
| `PreAuthorize.Decide` | core/src/main/java/org/springframework/security/authorization/method/PreAuthorizeAuthorizationManager.java:74-80 | The result is abstain (`None`) exactly for the sentinel, whatever the supplier answers. Otherwise a fault of the supplier or of the context builder propagates as a `CollaboratorFault`. Failing those, it is `Some(granted)`, where `granted` is the boolean the expression evaluates to in the context built from the identity and the invocation; an evaluation fault propagates. So an abstain is never a `false` decision. |
| `PreAuthorize.AbstainsExactlyWithoutAnnotation` | core/src/main/java/org/springframework/security/authorization/method/PreAuthorizeAuthorizationManager.java:73-76 | Whatever handlers resolved the cached attributes (the manager's invariant, which survives handler changes), `check` abstains if and only if no annotation governs the invoked method, for any caller and any current handler. |
| `PreAuthorize.PreAuthorizeAuthorizationManager.constructor` | core/src/main/java/org/springframework/security/authorization/method/PreAuthorizeAuthorizationManager.java:49-51 | A new manager holds the default handler and an empty registry. |
| `PreAuthorize.PreAuthorizeAuthorizationManager.SetExpressionHandler` | core/src/main/java/org/springframework/security/authorization/method/PreAuthorizeAuthorizationManager.java:57-60 | Null fails with an `IllegalArgument` fault carrying the source's message, and the handler is unchanged. A non-null handler replaces the current one. The registry cache and the parse count are untouched either way. |
| `PreAuthorize.PreAuthorizeAuthorizationManager.GetAttribute` | core/src/main/java/org/springframework/security/authorization/method/PreAuthorizeAuthorizationManager.java:88-97 | The result, the new cache and the parser calls are those of `RegistryLookup`, using the handler current at the call. The invariant holds afterwards: every cached attribute is what resolution yields under the handler that was current when it was cached. |
| `PreAuthorize.PreAuthorizeAuthorizationManager.Check` | core/src/main/java/org/springframework/security/authorization/method/PreAuthorizeAuthorizationManager.java:71-81 | The decision is the lookup's fault, or else `Decide` on the looked-up attribute with the supplier's answer. It abstains exactly when no annotation governs the invoked method, in every state of the manager. The supplier is called 0 times for the sentinel or a lookup fault, and exactly once when a policy is present, even when it throws. The cache and the parse count change as the lookup says. |
| `Collaborators.EvaluateAsBoolean` | core/src/main/java/org/springframework/security/authorization/method/PreAuthorizeAuthorizationManager.java:79 | Success holds exactly when the expression evaluates to a boolean, and the result is that boolean. An evaluation error, `null` or a non-boolean value is an `EvaluationFault`, never `false`. |
| `RegistryReplay.LookupAllAgreesWithResolution` | core/src/main/java/org/springframework/security/authorization/method/PreAuthorizeAuthorizationManager.java:86-97 | Over any run of lookups starting from a consistent cache, each lookup returns exactly what resolution of its target returns. So all lookups of one target receive the same attribute, and the final cache is consistent. |
| `RegistryReplay.CacheOnlyGrows` | core/src/main/java/org/springframework/security/authorization/method/PreAuthorizeAuthorizationManager.java:73 | A cached entry is never evicted or replaced by later lookups. |
| `RegistryReplay.CachedTargetNeverReparsed` | core/src/main/java/org/springframework/security/authorization/method/PreAuthorizeAuthorizationManager.java:94-95 | A target that is already cached is never parsed again, and every lookup of it returns the cached attribute. |
| `RegistryReplay.ParsedAtMostOnce` | core/src/main/java/org/springframework/security/authorization/method/PreAuthorizeAuthorizationManager.java:94-95 | When a target's policy resolves successfully, every lookup of it after the first calls the parser 0 times. |
| `RegistryReplay.MalformedPolicyFaultsEveryTime` | core/src/main/java/org/springframework/security/authorization/method/PreAuthorizeAuthorizationManager.java:94-95 | An uncached target whose policy fails to parse is never cached. Every lookup of it parses again and surfaces the `ParseFault`. |

Notes on the model:

- Resolution reads the handler that is current at the moment of a cache miss. `SetExpressionHandler` does not touch the registry. So attributes resolved before a handler change keep the parse of the old handler. The class invariant records which handler resolved each entry, in the ghost map `resolvedWith`.
- `ResolveAttribute` never returns null: its result type is a datatype, which is always either the sentinel or a wrapped expression.
- `ExpressionUtils.evaluateAsBoolean` and `AbstractExpressionAttributeRegistry` are outside the modelled file. Their behaviour is assumed: a non-boolean outcome is a fault, and the cache is computeIfAbsent.

## Left out

- Reflection and AOP: `AopUtils.getMostSpecificMethod` and `AnnotationUtils.findAnnotation`, including their interface, superclass and meta-annotation search. They are given as tables in `Metadata`, so their answers are inputs. The `getMostSpecificMethod` table is keyed by the method and the target class or its absence (a null target), so bridge-method resolution for a null target is an input as well. Where the table has no entry, the method itself is taken.
- The SpEL language: its grammar, `createEvaluationContext` and `Expression.getValue`. These are uninterpreted functions carried by the handler and by each expression. SpEL's type conversion to `Boolean` is not modelled: any non-boolean value is a fault.
- Concurrency: concurrent first lookups of the registry cache are not modelled, because the model is sequential. So "one observable parse under concurrent first lookups" is not proved. The sequential analogue is `RegistryReplay.ParsedAtMostOnce`.
- `Collaborators.AuthenticationSupplier.Get` has one fixed answer: an `Authentication` or the message of the exception it throws. A Java `Supplier` could answer differently on each call; this makes no difference because `check` calls it at most once. The exception type thrown by the supplier or by `createEvaluationContext` is reduced to a `CollaboratorFault` carrying its message.
- `Authentication` contents, `MethodInvocation` internals beyond the invoked method, and `AuthorizationDecision` beyond its boolean are opaque. The `DefaultMethodSecurityExpressionHandler` is a constructor parameter of the manager, not a concrete handler.
- Exception types are reduced to the four `Fault` kinds. The `null` that unboxing of a `null` `Boolean` would raise as a `NullPointerException` is folded into `EvaluationFault`.
