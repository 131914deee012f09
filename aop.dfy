/**
 * The annotation-driven method interceptor: an object holding an annotation
 * handler and an annotation resolver, which decides whether an intercepted
 * invocation carries the handler's annotation.
 */
module Aop {
  import opened Wrappers
  import opened Annotations

  /**
   * One intercepted call. The model keeps of it only what annotation lookup
   * needs: the annotations reflection finds on the call site, in declaration
   * order. The method's name only tells invocations apart.
   */
  datatype MethodInvocation = MethodInvocation(methodName: string, attached: seq<Annotation>)

  /** A handler, known to the interceptor only through its annotation class. */
  datatype AnnotationHandler = AnnotationHandler(annotationClass: AnnotationKind)

  /**
   * Where annotations come from: the default, reflection-based resolver, or
   * any resolver a user plugs in, given as its lookup function.
   */
  datatype AnnotationResolver =
    | DefaultAnnotationResolver
    | CustomResolver(lookup: (MethodInvocation, AnnotationKind) -> Option<Annotation>)

  /** The exceptions this part of the core can raise. */
  datatype Exception = IllegalArgumentException | NullPointerException

  /** The first annotation of class `kind` in `anns`, or None when there is none. */
  function FirstOfKind(anns: seq<Annotation>, kind: AnnotationKind): (r: Option<Annotation>)
    ensures r.Some? ==> r.value in anns && KindOf(r.value) == kind
    ensures r.Some? ==>
      exists j :: 0 <= j < |anns| && anns[j] == r.value && (forall k :: 0 <= k < j ==> KindOf(anns[k]) != kind)
    ensures r.None? <==> forall a :: a in anns ==> KindOf(a) != kind
  {
    if anns == [] then None
    else if KindOf(anns[0]) == kind then Some(anns[0])
    else FirstOfKind(anns[1..], kind)
  }

  /** What `resolver.getAnnotation(mi, kind)` answers. */
  function Resolve(resolver: AnnotationResolver, mi: MethodInvocation, kind: AnnotationKind): Option<Annotation> {
    match resolver
    case DefaultAnnotationResolver => FirstOfKind(mi.attached, kind)
    case CustomResolver(lookup) => lookup(mi, kind)
  }

  class AnnotationMethodInterceptor {
    /** Either field may be null: the setters accept null. */
    var handler: Option<AnnotationHandler>
    var resolver: Option<AnnotationResolver>

    /**
     * The two-argument constructor once its null check has passed: a missing
     * resolver is replaced by the default one.
     */
    constructor (h: AnnotationHandler, r: Option<AnnotationResolver>)
      ensures handler == Some(h)
      ensures resolver == Some(r.GetOr(DefaultAnnotationResolver))
    {
      handler := Some(h);
      resolver := Some(r.GetOr(DefaultAnnotationResolver));
    }

    /** Both lookups below can be made without a NullPointerException. */
    predicate Ready()
      reads this
    {
      handler.Some? && resolver.Some?
    }

    function GetHandler(): Option<AnnotationHandler>
      reads this
    {
      handler
    }

    function GetResolver(): Option<AnnotationResolver>
      reads this
    {
      resolver
    }

    method SetHandler(h: Option<AnnotationHandler>)
      modifies this
      ensures GetHandler() == h
      ensures resolver == old(resolver)
    {
      handler := h;
    }

    method SetResolver(r: Option<AnnotationResolver>)
      modifies this
      ensures GetResolver() == r
      ensures handler == old(handler)
    {
      resolver := r;
    }

    /**
     * `getAnnotation(mi)`: the resolver's answer for the handler's annotation
     * class. Dereferencing a null resolver or handler throws.
     */
    function GetAnnotation(mi: MethodInvocation): (r: Result<Option<Annotation>, Exception>)
      reads this
      ensures r.Success? <==> Ready()
      ensures r.Failure? ==> r.error == NullPointerException
      ensures r.Success? ==> r.value == Resolve(resolver.value, mi, handler.value.annotationClass)
    {
      match (resolver, handler)
      case (Some(res), Some(h)) => Success(Resolve(res, mi, h.annotationClass))
      case _ => Failure(NullPointerException)
    }

    /** `supports(mi)`: true exactly when `getAnnotation(mi)` finds an annotation. */
    function Supports(mi: MethodInvocation): (r: Result<bool, Exception>)
      reads this
      ensures r.Success? <==> GetAnnotation(mi).Success?
      ensures r.Failure? ==> r.error == GetAnnotation(mi).error
      ensures r.Success? ==> (r.value <==> GetAnnotation(mi).value.Some?)
    {
      match GetAnnotation(mi)
      case Success(a) => Success(a.Some?)
      case Failure(e) => Failure(e)
    }
  }

  /**
   * `new AnnotationMethodInterceptor(handler, resolver)`: a null handler is
   * rejected with IllegalArgumentException, a null resolver is defaulted.
   */
  method NewInterceptor(h: Option<AnnotationHandler>, r: Option<AnnotationResolver>)
    returns (res: Result<AnnotationMethodInterceptor, Exception>)
    ensures h.None? <==> res.Failure?
    ensures res.Failure? ==> res.error == IllegalArgumentException
    ensures res.Success? ==> fresh(res.value) && res.value.Ready()
    ensures res.Success? ==> res.value.handler == h
    ensures res.Success? ==> res.value.resolver == Some(r.GetOr(DefaultAnnotationResolver))
  {
    if h.None? {
      return Failure(IllegalArgumentException);
    }
    var i := new AnnotationMethodInterceptor(h.value, r);
    return Success(i);
  }

  /**
   * `new AnnotationMethodInterceptor(handler)`: the same, always with a
   * default resolver.
   */
  method NewInterceptorWithDefaultResolver(h: Option<AnnotationHandler>)
    returns (res: Result<AnnotationMethodInterceptor, Exception>)
    ensures h.None? <==> res.Failure?
    ensures res.Failure? ==> res.error == IllegalArgumentException
    ensures res.Success? ==> fresh(res.value) && res.value.Ready()
    ensures res.Success? ==> res.value.handler == h && res.value.resolver == Some(DefaultAnnotationResolver)
  {
    res := NewInterceptor(h, Some(DefaultAnnotationResolver));
  }

  /**
   * With the default resolver, an interceptor supports an invocation exactly
   * when an annotation of its handler's class is attached to it, and the
   * annotation it hands on is that one, of that class.
   */
  lemma DefaultResolverFindsHandlersAnnotation(i: AnnotationMethodInterceptor, mi: MethodInvocation)
    requires i.handler.Some? && i.resolver == Some(DefaultAnnotationResolver)
    ensures i.Supports(mi).Success?
    ensures i.Supports(mi).value <==> exists a :: a in mi.attached && KindOf(a) == i.handler.value.annotationClass
    ensures i.GetAnnotation(mi).value.Some? ==>
      i.GetAnnotation(mi).value.value in mi.attached &&
      KindOf(i.GetAnnotation(mi).value.value) == i.handler.value.annotationClass
  {
  }
}
