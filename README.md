# Declarative authorization core of Apache Shiro, modelled in Dafny

This project models three pieces of Shiro's annotation-driven authorization
pipeline and proves what they do:

- **PermissionAnnotationHandler** (`authz_aop.dfy`, module `AuthzAop`): how a
  `@RequiresPermissions` annotation is evaluated. The calling subject is given
  by its grant predicate `isGranted`. `AssertAuthorized` returns how the check
  ends (`Allowed`, `Denied(p)` for an `AuthorizationException` naming `p`,
  or `IndexOutOfBounds`) and the exact sequence of calls it made on the subject
  (`checkPermission(p)`, `checkPermissions(ps)`, `isPermitted(p)`). The OR
  loop with its `hasAtLeastOnePermission` flag is a `for` loop whose
  invariants tie the trace so far to the probes of a prefix of the list.
- **AnnotationMethodInterceptor** (`aop.dfy`, module `Aop`): a class with the
  two mutable fields `handler` and `resolver` (both nullable, as `Option`),
  its constructors (the null-handler `IllegalArgumentException` is modelled by
  the factory methods `NewInterceptor` and `NewInterceptorWithDefaultResolver`,
  which return a `Result`), setters, and the pure lookups `GetAnnotation`
  and `Supports` (functions reading the fields, so they change nothing). A
  resolver is either the default one or any user-supplied lookup function.
- **DefaultWebSubjectFactory** (`web_mgt.dfy`, module `WebMgt`): the SHIRO-646
  routing of `createSubject` between the generic factory and building a new
  `WebDelegatingSubject` from the context's resolved values, and the
  deprecated `newSubjectInstance`.

`annotations.dfy` holds the annotation values shared by the first two, and
`wrappers.dfy` the `Option`/`Result` types used for null and for thrown
exceptions.

Two edge cases, as the code behaves:

- An empty permission list is not denied in AND mode: the code makes the batch
  call `checkPermissions([])`, which passes (nothing is missing). In OR mode
  it is not a plain denial either: the loop runs zero times and `perms[0]`
  throws an index error, which `AssertAuthorized` reports as `IndexOutOfBounds`
  (never `Allowed`).
- An existing web subject is never reused. Every web context whose existing
  subject is absent or a `WebSubject` gets a newly built `WebDelegatingSubject`
  (`ExistingWebSubjectIsRebuilt`, `ExistingWebSubjectReplaced`).

## Model

| member | source | states |
|---|---|---|
| AuthzAop.AssertAuthorized | core/src/main/java/org/apache/shiro/authz/aop/PermissionAnnotationHandler.java:67-104 | Any annotation other than RequiresPermissions: returns normally with no subject call. One permission: the only call is `checkPermission(perms[0])` whatever the mode, allowed iff it is granted, else denied naming it. AND over another count: the only call is one `checkPermissions(perms)` batch, allowed iff every permission is granted, else denied naming an ungranted listed one. OR over several: `isPermitted` is probed on every permission in list order. If any is granted the result is allowed and `checkPermission` is never called. If none is, the trace ends with `checkPermission(perms[0])` and the denial names the first permission. OR with an empty list: an index error, never an allow. No state is changed. |
| AuthzAop.GetAnnotationValue | core/src/main/java/org/apache/shiro/authz/aop/PermissionAnnotationHandler.java:51-54 | Yields the annotation's permission list exactly when it is a RequiresPermissions annotation; any other annotation fails the cast. |
| AuthzAop.SubjectCheckPermission | core/src/main/java/org/apache/shiro/authz/aop/PermissionAnnotationHandler.java:80 | The subject's `checkPermission(p)` passes iff `p` is granted and otherwise denies naming `p`. |
| AuthzAop.SubjectCheckPermissions | core/src/main/java/org/apache/shiro/authz/aop/PermissionAnnotationHandler.java:86 | The subject's batch `checkPermissions(ps)` passes iff every listed permission is granted; a denial names a listed permission that is not granted. |
| AuthzAop.ProbesInOrder | core/src/main/java/org/apache/shiro/authz/aop/PermissionAnnotationHandler.java:94-97 | The OR loop's trace has one `isPermitted` per permission, the k-th probing `perms[k]`. |
| AuthzAop.ProbesNeverCheck | core/src/main/java/org/apache/shiro/authz/aop/PermissionAnnotationHandler.java:94-101 | The OR loop's probes contain no `checkPermission` call, so a succeeding OR check never calls it. |
| AuthzAop.FastPathAgreesWithBatch | core/src/main/java/org/apache/shiro/authz/aop/PermissionAnnotationHandler.java:78-88 | For one permission the fast path `checkPermission(p)` ends exactly as the batch `checkPermissions([p])` would. |
| AuthzAop.InterceptedAnnotationIsRequiresPermissions | core/src/main/java/org/apache/shiro/authz/aop/PermissionAnnotationHandler.java:41-43 | An interceptor holding this handler (annotation class RequiresPermissions) and the default resolver only reports support for invocations whose found annotation is a RequiresPermissions one, which the type guard lets through. |
| Aop.AnnotationMethodInterceptor.constructor | core/src/main/java/org/apache/shiro/aop/AnnotationMethodInterceptor.java:72-73 | With a non-null handler: the handler is stored, and a null resolver is replaced by the default resolver. |
| Aop.NewInterceptor | core/src/main/java/org/apache/shiro/aop/AnnotationMethodInterceptor.java:68-74 | Fails with IllegalArgumentException exactly when the handler is null. Otherwise a fresh interceptor holds that handler and the given resolver, or the default one if null, so both fields are non-null. |
| Aop.NewInterceptorWithDefaultResolver | core/src/main/java/org/apache/shiro/aop/AnnotationMethodInterceptor.java:53-56 | As the two-argument form: a null handler throws IllegalArgumentException, otherwise the interceptor holds the handler and the default resolver. |
| Aop.AnnotationMethodInterceptor.SetHandler | core/src/main/java/org/apache/shiro/aop/AnnotationMethodInterceptor.java:94-96 | Only the handler changes; `getHandler` then returns the value set (null included) and the resolver is unchanged. |
| Aop.AnnotationMethodInterceptor.SetResolver | core/src/main/java/org/apache/shiro/aop/AnnotationMethodInterceptor.java:120-122 | Only the resolver changes; `getResolver` then returns the value set (null included) and the handler is unchanged. |
| Aop.AnnotationMethodInterceptor.GetAnnotation | core/src/main/java/org/apache/shiro/aop/AnnotationMethodInterceptor.java:150-153 | Equals the resolver's answer for the invocation and the handler's annotation class; a null resolver or handler throws NullPointerException. Reads the fields only. |
| Aop.AnnotationMethodInterceptor.Supports | core/src/main/java/org/apache/shiro/aop/AnnotationMethodInterceptor.java:136-138 | True iff `getAnnotation(mi)` finds an annotation, and throws exactly when `getAnnotation` does. Reads the fields only. |
| Aop.DefaultResolverFindsHandlersAnnotation | core/src/main/java/org/apache/shiro/aop/AnnotationMethodInterceptor.java:136-153 | With the default resolver and a handler, `supports(mi)` never throws and holds iff an annotation of the handler's class is attached to the invocation; the annotation found is attached and of that class. |
| WebMgt.CreateSubject | web/src/main/java/org/apache/shiro/web/mgt/DefaultWebSubjectFactory.java:49-86 | A context that is not a WebSubjectContext, or whose existing subject is present and not a WebSubject, yields what the generic factory builds; every other context yields a web delegating subject. Which fields it carries is stated by WebContextBuildsWebDelegatingSubject, the iff by WebSubjectIffWebRoute, and the dependence on the two type tests alone by RouteDependsOnlyOnTypeTests. |
| WebMgt.NewSubjectInstance | web/src/main/java/org/apache/shiro/web/mgt/DefaultWebSubjectFactory.java:93-99 | Builds a web delegating subject from exactly the given values with session creation always enabled. |
| WebMgt.PlainContextGoesGeneric | web/src/main/java/org/apache/shiro/web/mgt/DefaultWebSubjectFactory.java:53-56 | A context that is not a WebSubjectContext goes to the generic factory and so does not yield a WebSubject. |
| WebMgt.NonWebExistingSubjectGoesGeneric | web/src/main/java/org/apache/shiro/web/mgt/DefaultWebSubjectFactory.java:53-56 | A web context whose existing subject is present and not a WebSubject also goes to the generic factory. |
| WebMgt.WebContextBuildsWebDelegatingSubject | web/src/main/java/org/apache/shiro/web/mgt/DefaultWebSubjectFactory.java:63-85 | A web context with no existing subject or a web one yields a web delegating subject whose principals, authenticated flag, host, session, session-creation flag, request, response and security manager are the context's resolved values. |
| WebMgt.WebSubjectIffWebRoute | web/src/main/java/org/apache/shiro/web/mgt/DefaultWebSubjectFactory.java:53-85 | The result is a WebSubject iff the context is a web context whose existing subject is absent or a WebSubject; a web delegating subject only comes from a web context. |
| WebMgt.RouteDependsOnlyOnTypeTests | web/src/main/java/org/apache/shiro/web/mgt/DefaultWebSubjectFactory.java:53-54 | Two contexts that agree on the two type tests take the same route. |
| WebMgt.ExistingWebSubjectIsRebuilt | web/src/main/java/org/apache/shiro/web/mgt/DefaultWebSubjectFactory.java:53-85 | An existing web subject is returned only if it already equals the web delegating subject built from the resolved values; it is never reused as such. |
| WebMgt.ExistingWebSubjectReplaced | web/src/main/java/org/apache/shiro/web/mgt/DefaultWebSubjectFactory.java:84-85 | Any web context whose existing subject is a WebSubject of another class gets a new web delegating subject, different from the existing one. |
| WebMgt.NewSubjectInstanceIgnoresSessionFlag | web/src/main/java/org/apache/shiro/web/mgt/DefaultWebSubjectFactory.java:93-99 | On the web route, the deprecated builder applied to the resolved values agrees with `createSubject` iff the context enables session creation. |

## Left out

- `MethodInvocation` is reduced to a method name and the annotations attached to it. `proceed()` (a foreign continuation), `getArguments()` and `getThis()` are not modelled.
- The permission-matching algorithm behind `checkPermission`, `checkPermissions` and `isPermitted` becomes the grant predicate `isGranted`. Exceptions a subject may throw other than an authorization denial (such as an unauthenticated subject) are not modelled.
- AuthzAop.SubjectCheckPermissions: the batch check is written as list order, first ungranted permission denied. Which permission the real subject names is its own implementation, so `AssertAuthorized` promises only that the denial names some ungranted listed permission.
- `getSubject()`, a thread-local lookup, is replaced by passing the subject's grant predicate in. Every `getSubject()` call in `assertAuthorized` is taken to return the same subject.
- A null annotation given to `assertAuthorized` behaves like any non-RequiresPermissions annotation (`instanceof` is false). The model has no null annotation and no null `logical` or permission array, which Java annotations cannot hold.
- `DefaultAnnotationResolver` is not part of this model. Its reflective lookup on the method and the receiver's class is modelled as the first attached annotation of the requested class (`Aop.FirstOfKind`). Custom resolvers are arbitrary lookup functions.
- A handler whose `getAnnotationClass()` is null is not modelled: a handler always has an annotation class. `getHandler` and `getResolver` are plain reads of the fields; they are covered by the setter rows.
- The body of `DefaultSubjectFactory.createSubject` (the generic path) is not part of this model. Its result is the abstract `GenericSubject(context)`, taken not to be a WebSubject.
- The `resolveX()` accessors of the subject context are modelled as stored values. How they are derived is not modelled, nor is the session the session manager may start while resolving. Because of that, the order of the resolver reads does not matter in the model.
- Servlet request and response semantics, and how interception is wired up, are not modelled. That wiring is the interceptor superclasses and how `supports` and `assertAuthorized` are chained.
