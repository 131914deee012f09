/**
 * The permission annotation handler: evaluates a RequiresPermissions
 * annotation against the calling subject with the single-permission fast
 * path, the AND batch check and the deferred-failure OR probe.
 *
 * The subject is given as its grant predicate `isGranted`; what it is asked
 * is recorded as a sequence of calls, so that the model says which checks
 * are made, in which order, and which one raises the denial.
 */
module AuthzAop {
  import opened Wrappers
  import opened Annotations
  import Aop

  /** The handler looks for RequiresPermissions annotations. */
  const PermissionAnnotationHandler: Aop.AnnotationHandler := Aop.AnnotationHandler(RequiresPermissionsKind)

  /** One call made on the subject. */
  datatype SubjectCall =
    | CheckPermission(permission: Permission)
    | CheckPermissions(permissions: seq<Permission>)
    | IsPermitted(permission: Permission)

  /**
   * How an authorization check ends: it returns normally, it throws an
   * AuthorizationException naming a permission, or (OR mode, empty list)
   * indexing `perms[0]` throws ArrayIndexOutOfBoundsException.
   */
  datatype Outcome = Allowed | Denied(permission: Permission) | IndexOutOfBounds

  /** The exception thrown by the unchecked cast in `getAnnotationValue`. */
  datatype CastException = ClassCastException

  ghost predicate AllGranted(isGranted: Permission -> bool, ps: seq<Permission>) {
    forall p :: p in ps ==> isGranted(p)
  }

  ghost predicate AnyGranted(isGranted: Permission -> bool, ps: seq<Permission>) {
    exists p :: p in ps && isGranted(p)
  }

  /** The subject's `checkPermission(p)`: throws unless `p` is granted. */
  function SubjectCheckPermission(isGranted: Permission -> bool, p: Permission): (r: Outcome)
    ensures r == Allowed <==> isGranted(p)
    ensures r != Allowed ==> r == Denied(p)
  {
    if isGranted(p) then Allowed else Denied(p)
  }

  /**
   * The subject's batch `checkPermissions(ps)`: passes when every permission
   * is granted, otherwise throws naming one that is not. (The order the
   * subject checks in is its own affair; here it is list order.)
   */
  function SubjectCheckPermissions(isGranted: Permission -> bool, ps: seq<Permission>): (r: Outcome)
    ensures r == Allowed <==> AllGranted(isGranted, ps)
    ensures r != Allowed ==> r.Denied? && r.permission in ps && !isGranted(r.permission)
  {
    if ps == [] then Allowed
    else if !isGranted(ps[0]) then Denied(ps[0])
    else
      var rest := SubjectCheckPermissions(isGranted, ps[1..]);
      assert forall p :: p in ps ==> p == ps[0] || p in ps[1..];
      rest
  }

  /** The `isPermitted` probes of the OR loop over `ps`, one per element, in order. */
  function Probes(ps: seq<Permission>): seq<SubjectCall> {
    if ps == [] then [] else Probes(ps[..|ps| - 1]) + [IsPermitted(ps[|ps| - 1])]
  }

  /** `getAnnotationValue(a)`: the permission list, after a cast that fails on any other annotation. */
  function GetAnnotationValue(a: Annotation): (r: Result<seq<Permission>, CastException>)
    ensures r.Success? <==> KindOf(a) == RequiresPermissionsKind
    ensures r.Success? ==> r.value == a.value
  {
    match a
    case RequiresPermissions(perms, _) => Success(perms)
    case OtherAnnotation(_) => Failure(ClassCastException)
  }

  /**
   * `assertAuthorized(a)` for the subject whose grants are `isGranted`:
   * returns how the check ends and every call it made on the subject. It
   * changes no state.
   */
  method AssertAuthorized(a: Annotation, isGranted: Permission -> bool)
    returns (outcome: Outcome, calls: seq<SubjectCall>)
    // Any annotation but RequiresPermissions: return at once, asking the subject nothing.
    ensures !a.RequiresPermissions? ==> outcome == Allowed && calls == []
    // One permission: a single checkPermission, whatever the logical mode.
    ensures a.RequiresPermissions? && |a.value| == 1 ==>
      && calls == [CheckPermission(a.value[0])]
      && (outcome == Allowed <==> isGranted(a.value[0]))
      && (outcome != Allowed ==> outcome == Denied(a.value[0]))
    // AND over any other number: one batch call, allowed iff all are granted.
    ensures a.RequiresPermissions? && |a.value| != 1 && a.logical == AND ==>
      && calls == [CheckPermissions(a.value)]
      && (outcome == Allowed <==> AllGranted(isGranted, a.value))
      && (outcome != Allowed ==> outcome.Denied? && outcome.permission in a.value && !isGranted(outcome.permission))
    // OR: every permission is probed, in order; the denial comes from checkPermission(perms[0]).
    ensures a.RequiresPermissions? && |a.value| != 1 && a.logical == OR ==>
      && (AnyGranted(isGranted, a.value) ==> outcome == Allowed && calls == Probes(a.value))
      && (!AnyGranted(isGranted, a.value) && |a.value| > 0 ==>
            outcome == Denied(a.value[0]) && calls == Probes(a.value) + [CheckPermission(a.value[0])])
      && (|a.value| == 0 ==> outcome == IndexOutOfBounds && calls == [])
  {
    if !a.RequiresPermissions? {
      return Allowed, [];
    }
    var perms := GetAnnotationValue(a).value;

    if |perms| == 1 {
      return SubjectCheckPermission(isGranted, perms[0]), [CheckPermission(perms[0])];
    }

    if a.logical == AND {
      return SubjectCheckPermissions(isGranted, perms), [CheckPermissions(perms)];
    }

    var hasAtLeastOnePermission := false;
    calls := [];
    for i := 0 to |perms|
      invariant calls == Probes(perms[..i])
      invariant hasAtLeastOnePermission <==> AnyGranted(isGranted, perms[..i])
    {
      assert perms[..i + 1][..i] == perms[..i];
      assert forall p :: p in perms[..i + 1] <==> p in perms[..i] || p == perms[i];
      calls := calls + [IsPermitted(perms[i])];
      if isGranted(perms[i]) {
        hasAtLeastOnePermission := true;
      }
    }
    assert perms[..|perms|] == perms;

    outcome := Allowed;
    if !hasAtLeastOnePermission {
      if |perms| == 0 {
        return IndexOutOfBounds, calls;
      }
      outcome := SubjectCheckPermission(isGranted, perms[0]);
      calls := calls + [CheckPermission(perms[0])];
    }
  }

  /** The OR loop asks `isPermitted` once per permission, in list order, and nothing else. */
  lemma {:induction false} ProbesInOrder(ps: seq<Permission>)
    ensures |Probes(ps)| == |ps|
    ensures forall k :: 0 <= k < |ps| ==> Probes(ps)[k] == IsPermitted(ps[k])
  {
    if ps != [] {
      ProbesInOrder(ps[..|ps| - 1]);
    }
  }

  /** So an OR check that succeeds never calls `checkPermission`. */
  lemma ProbesNeverCheck(ps: seq<Permission>, p: Permission)
    ensures CheckPermission(p) !in Probes(ps)
  {
  }

  /**
   * The fast path decides as the batch check would: for one permission,
   * `checkPermission(p)` and `checkPermissions([p])` end the same way.
   */
  lemma FastPathAgreesWithBatch(isGranted: Permission -> bool, p: Permission)
    ensures SubjectCheckPermission(isGranted, p) == SubjectCheckPermissions(isGranted, [p])
  {
  }

  /**
   * With the default resolver, the annotation an interceptor around this
   * handler passes on is always a RequiresPermissions one, so the type guard
   * of `AssertAuthorized` lets it through to the permission checks.
   */
  lemma InterceptedAnnotationIsRequiresPermissions(i: Aop.AnnotationMethodInterceptor, mi: Aop.MethodInvocation)
    requires i.handler == Some(PermissionAnnotationHandler)
    requires i.resolver == Some(Aop.DefaultAnnotationResolver)
    requires i.Supports(mi) == Success(true)
    ensures i.GetAnnotation(mi).value.Some? && i.GetAnnotation(mi).value.value.RequiresPermissions?
  {
  }
}
