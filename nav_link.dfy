/**
 * The `NavLink` component (src/components/NavLink.tsx): whether a link is
 * active for the current pathname, and the class list it renders with.
 */
module NavLinks {
  import opened Wrappers

  /**
   * `isActive`: the pathname is the link's target or lies below it
   * (`pathname.startsWith(href + "/")`; Dafny's `<=` on sequences is the
   * prefix order). A missing pathname is never active.
   */
  predicate IsActive(pathname: Option<string>, href: string)
    ensures IsActive(pathname, href) ==> pathname.Some? && href <= pathname.value
  {
    match pathname
    case None => false
    case Some(path) => path == href || href + "/" <= path
  }

  /**
   * Active means: the same path, or a longer one that agrees with `href`
   * up to its length and has a `/` right after it.
   */
  lemma ActiveIffSelfOrBelow(path: string, href: string)
    ensures IsActive(Some(path), href) <==>
      path == href ||
      (|path| > |href| && path[..|href|] == href && path[|href|] == '/')
  {
  }

  /** A link is active on its own path. */
  lemma ActiveOnOwnPath(href: string)
    ensures IsActive(Some(href), href)
  {
  }

  /** A link is active on every path below it. */
  lemma ActiveBelow(href: string, rest: string)
    ensures IsActive(Some(href + "/" + rest), href)
  {
  }

  /** Sharing a prefix without a `/` boundary is not enough: `/ar/log` is not active on `/ar/login`. */
  lemma InactiveWithoutBoundary(href: string, tail: string)
    requires tail != [] && tail[0] != '/'
    ensures !IsActive(Some(href + tail), href)
  {
    var path := href + tail;
    assert path[|href|] == tail[0];
    ActiveIffSelfOrBelow(path, href);
  }

  /** The example from the login route. */
  lemma LogIsNotLogin()
    ensures !IsActive(Some("/ar/login"), "/ar/log")
  {
    assert "/ar/login" == "/ar/log" + "in";
    InactiveWithoutBoundary("/ar/log", "in");
  }

  /** With no pathname no link is active. */
  lemma NoPathnameNeverActive(href: string)
    ensures !IsActive(None, href)
  {
  }

  /** A class value `cn` keeps: present and not empty (`clsx` drops the falsy ones). */
  function Kept(cls: Option<string>): (kept: seq<string>)
    ensures |kept| <= 1
    ensures kept == [] <==> cls.None? || cls.value == ""
    ensures kept != [] ==> kept[0] == cls.value
  {
    if cls.Some? && cls.value != "" then [cls.value] else []
  }

  /**
   * `cn(className, isActive && activeClassName)`: the base class always
   * comes first, and the active class is appended exactly when the link is
   * active and an active class is given.
   */
  function ClassNames(className: Option<string>, activeClassName: Option<string>, active: bool): (classes: seq<string>)
    ensures |Kept(className)| <= |classes| && classes[..|Kept(className)|] == Kept(className)
    ensures |classes| > |Kept(className)| <==> active && activeClassName.Some? && activeClassName.value != ""
    ensures |classes| > |Kept(className)| ==> classes[|classes| - 1] == activeClassName.value
    ensures |classes| == |Kept(className)| +
      (if active && activeClassName.Some? && activeClassName.value != "" then 1 else 0)
  {
    Kept(className) + (if active then Kept(activeClassName) else [])
  }
}
