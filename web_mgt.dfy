/**
 * The web subject factory: decides, from the shape of a subject context,
 * whether to hand it to the generic factory or to build a web delegating
 * subject, and which resolved values that subject carries.
 */
module WebMgt {
  import opened Wrappers

  /** An object the factory only passes along: a security manager, session, principal collection, request or response. */
  datatype Handle = Handle(id: nat)

  /**
   * What the context's `resolveX()` accessors answer. How each is derived
   * (and any session the session manager starts while resolving) belongs to
   * the context, not to the factory.
   */
  datatype Resolved = Resolved(
    securityManager: Option<Handle>,
    session: Option<Handle>,
    sessionCreationEnabled: bool,
    principals: Option<Handle>,
    authenticated: bool,
    host: Option<string>)

  /**
   * A subject context: a plain one, or a web one that also resolves the
   * servlet request and response. Either may carry an already existing subject.
   */
  datatype SubjectContext =
    | DefaultSubjectContext(subject: Option<Subject>, resolved: Resolved)
    | WebSubjectContext(subject: Option<Subject>, resolved: Resolved,
                        servletRequest: Option<Handle>, servletResponse: Option<Handle>)

  /**
   * A subject: one built by this factory, whatever the generic factory builds
   * from a context, or any other subject object, tagged with whether its
   * class implements WebSubject.
   */
  datatype Subject =
    | WebDelegatingSubject(
        principals: Option<Handle>, authenticated: bool, host: Option<string>,
        session: Option<Handle>, sessionCreationEnabled: bool,
        request: Option<Handle>, response: Option<Handle>,
        securityManager: Option<Handle>)
    | GenericSubject(from: SubjectContext)
    | OtherSubject(id: nat, web: bool)

  /** `s instanceof WebSubject`. */
  predicate IsWebSubject(s: Subject) {
    match s
    case WebDelegatingSubject(_, _, _, _, _, _, _, _) => true
    case GenericSubject(_) => false
    case OtherSubject(_, web) => web
  }

  function ResolveSecurityManager(ctx: SubjectContext): Option<Handle> { ctx.resolved.securityManager }
  function ResolveSession(ctx: SubjectContext): Option<Handle> { ctx.resolved.session }
  function IsSessionCreationEnabled(ctx: SubjectContext): bool { ctx.resolved.sessionCreationEnabled }
  function ResolvePrincipals(ctx: SubjectContext): Option<Handle> { ctx.resolved.principals }
  function ResolveAuthenticated(ctx: SubjectContext): bool { ctx.resolved.authenticated }
  function ResolveHost(ctx: SubjectContext): Option<string> { ctx.resolved.host }

  function ResolveServletRequest(ctx: SubjectContext): Option<Handle>
    requires ctx.WebSubjectContext?
  {
    ctx.servletRequest
  }

  function ResolveServletResponse(ctx: SubjectContext): Option<Handle>
    requires ctx.WebSubjectContext?
  {
    ctx.servletResponse
  }

  /** `super.createSubject(context)`: the generic factory, whose result is not part of this model. */
  function SuperCreateSubject(ctx: SubjectContext): Subject {
    GenericSubject(ctx)
  }

  /** The existing subject is present and not a WebSubject (the SHIRO-646 test). */
  predicate IsNotBasedOnWebSubject(ctx: SubjectContext) {
    ctx.subject.Some? && !IsWebSubject(ctx.subject.value)
  }

  /**
   * `createSubject(context)`: a plain context, or one based on a non-web
   * subject, goes to the generic factory; every other context gets a new web
   * delegating subject.
   */
  function CreateSubject(ctx: SubjectContext): (s: Subject)
    ensures (!ctx.WebSubjectContext? || IsNotBasedOnWebSubject(ctx)) ==> s == SuperCreateSubject(ctx)
    ensures ctx.WebSubjectContext? && !IsNotBasedOnWebSubject(ctx) ==> s.WebDelegatingSubject?
  {
    if !ctx.WebSubjectContext? || IsNotBasedOnWebSubject(ctx) then
      SuperCreateSubject(ctx)
    else
      var securityManager := ResolveSecurityManager(ctx);
      var session := ResolveSession(ctx);
      var sessionEnabled := IsSessionCreationEnabled(ctx);
      var principals := ResolvePrincipals(ctx);
      var authenticated := ResolveAuthenticated(ctx);
      var host := ResolveHost(ctx);
      var request := ResolveServletRequest(ctx);
      var response := ResolveServletResponse(ctx);
      WebDelegatingSubject(principals, authenticated, host, session, sessionEnabled,
                           request, response, securityManager)
  }

  /** The deprecated `newSubjectInstance(...)`: always enables session creation. */
  function NewSubjectInstance(principals: Option<Handle>, authenticated: bool, host: Option<string>,
                              session: Option<Handle>, request: Option<Handle>, response: Option<Handle>,
                              securityManager: Option<Handle>): (s: Subject)
    ensures s.WebDelegatingSubject? && s.sessionCreationEnabled
    ensures s.principals == principals && s.authenticated == authenticated && s.host == host
    ensures s.session == session && s.request == request && s.response == response
    ensures s.securityManager == securityManager
  {
    WebDelegatingSubject(principals, authenticated, host, session, true, request, response, securityManager)
  }

  /** A context that is not a web context goes to the generic factory. */
  lemma PlainContextGoesGeneric(ctx: SubjectContext)
    requires ctx.DefaultSubjectContext?
    ensures CreateSubject(ctx) == SuperCreateSubject(ctx)
    ensures !IsWebSubject(CreateSubject(ctx))
  {
  }

  /** So does a web context whose existing subject is not a WebSubject. */
  lemma NonWebExistingSubjectGoesGeneric(ctx: SubjectContext)
    requires ctx.WebSubjectContext?
    requires ctx.subject.Some? && !IsWebSubject(ctx.subject.value)
    ensures CreateSubject(ctx) == SuperCreateSubject(ctx)
    ensures !IsWebSubject(CreateSubject(ctx))
  {
  }

  /**
   * A web context with no existing subject, or a web one, yields a web
   * delegating subject carrying exactly the context's resolved values.
   */
  lemma WebContextBuildsWebDelegatingSubject(ctx: SubjectContext)
    requires ctx.WebSubjectContext?
    requires ctx.subject.None? || IsWebSubject(ctx.subject.value)
    ensures var s := CreateSubject(ctx);
      && s.WebDelegatingSubject?
      && s.principals == ResolvePrincipals(ctx)
      && s.authenticated == ResolveAuthenticated(ctx)
      && s.host == ResolveHost(ctx)
      && s.session == ResolveSession(ctx)
      && s.sessionCreationEnabled == IsSessionCreationEnabled(ctx)
      && s.request == ResolveServletRequest(ctx)
      && s.response == ResolveServletResponse(ctx)
      && s.securityManager == ResolveSecurityManager(ctx)
  {
  }

  /**
   * The result is a WebSubject exactly when the context is a web context not
   * based on a non-web subject; in particular a web subject is only ever built
   * where a servlet request and response can be resolved.
   */
  lemma WebSubjectIffWebRoute(ctx: SubjectContext)
    ensures IsWebSubject(CreateSubject(ctx)) <==>
      ctx.WebSubjectContext? && (ctx.subject.None? || IsWebSubject(ctx.subject.value))
    ensures CreateSubject(ctx).WebDelegatingSubject? ==> ctx.WebSubjectContext?
  {
  }

  /** The route depends on nothing but the two type tests. */
  lemma RouteDependsOnlyOnTypeTests(c1: SubjectContext, c2: SubjectContext)
    requires c1.WebSubjectContext? == c2.WebSubjectContext?
    requires c1.subject.Some? == c2.subject.Some?
    requires c1.subject.Some? ==> IsWebSubject(c1.subject.value) == IsWebSubject(c2.subject.value)
    ensures CreateSubject(c1).WebDelegatingSubject? == CreateSubject(c2).WebDelegatingSubject?
    ensures CreateSubject(c1).GenericSubject? == CreateSubject(c2).GenericSubject?
  {
  }

  /**
   * An existing web subject is not reused: the result equals it only when it
   * already is a web delegating subject holding exactly the resolved values.
   */
  lemma ExistingWebSubjectIsRebuilt(ctx: SubjectContext)
    requires ctx.WebSubjectContext? && ctx.subject.Some? && IsWebSubject(ctx.subject.value)
    ensures CreateSubject(ctx) == ctx.subject.value ==>
      ctx.subject.value == WebDelegatingSubject(
        ResolvePrincipals(ctx), ResolveAuthenticated(ctx), ResolveHost(ctx), ResolveSession(ctx),
        IsSessionCreationEnabled(ctx), ResolveServletRequest(ctx), ResolveServletResponse(ctx),
        ResolveSecurityManager(ctx))
  {
  }

  /** An existing web subject of some other WebSubject class is always replaced by a new web delegating subject. */
  lemma ExistingWebSubjectReplaced(ctx: SubjectContext)
    requires ctx.WebSubjectContext? && ctx.subject.Some?
    requires ctx.subject.value.OtherSubject? && ctx.subject.value.web
    ensures CreateSubject(ctx) != ctx.subject.value && CreateSubject(ctx).WebDelegatingSubject?
  {
  }

  /**
   * The deprecated builder agrees with `createSubject` on a web route exactly
   * when the context itself enables session creation.
   */
  lemma NewSubjectInstanceIgnoresSessionFlag(ctx: SubjectContext)
    requires ctx.WebSubjectContext?
    requires ctx.subject.None? || IsWebSubject(ctx.subject.value)
    ensures NewSubjectInstance(ResolvePrincipals(ctx), ResolveAuthenticated(ctx), ResolveHost(ctx),
                               ResolveSession(ctx), ResolveServletRequest(ctx), ResolveServletResponse(ctx),
                               ResolveSecurityManager(ctx)) == CreateSubject(ctx)
            <==> IsSessionCreationEnabled(ctx)
  {
  }
}
