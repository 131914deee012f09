/**
 * The annotations the authorization interceptors look for on a call site,
 * reduced to what the core reads from them.
 */
module Annotations {

  /** A permission expression such as "document:read", kept as a plain string. */
  type Permission = string

  /** How several required permissions combine (the RequiresPermissions `logical` element). */
  datatype Logical = AND | OR

  /** The class of an annotation: the one the permission handler understands, or any other. */
  datatype AnnotationKind = RequiresPermissionsKind | OtherKind(className: string)

  /**
   * An annotation instance found on a method. A RequiresPermissions annotation
   * carries its `value` (the permission list) and its `logical` mode; every
   * other annotation is only known by its class.
   */
  datatype Annotation =
    | RequiresPermissions(value: seq<Permission>, logical: Logical)
    | OtherAnnotation(className: string)

  /** The annotation class of an instance, as `Annotation.annotationType()` reports it. */
  function KindOf(a: Annotation): AnnotationKind {
    match a
    case RequiresPermissions(_, _) => RequiresPermissionsKind
    case OtherAnnotation(c) => OtherKind(c)
  }
}
