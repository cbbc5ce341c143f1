/**
 * The admin shell (src/components/admin/AdminLayout.tsx): the Save button's
 * busy flag, the mobile menu, and which navigation link is highlighted.
 */
module AdminShell {
  import opened Text

  /** The four navigation targets, in menu order. */
  const NavPaths: seq<string> := ["/admin/dashboard", "/admin/projects", "/admin/pages", "/admin/settings"]

  /** The desktop sidebar highlights a link on its own path and on every path below it. */
  predicate DesktopLinkActive(pathname: string, itemPath: string): (b: bool)
    ensures b <==> (pathname == itemPath ||
      (|itemPath| < |pathname| && pathname[..|itemPath|] == itemPath && pathname[|itemPath|] == '/'))
  {
    assert StartsWith(pathname, itemPath + "/") <==>
      |itemPath| < |pathname| && pathname[..|itemPath|] == itemPath && pathname[|itemPath|] == '/' by {
      if |itemPath| < |pathname| {
        assert pathname[..|itemPath| + 1] == pathname[..|itemPath|] + [pathname[|itemPath|]];
      }
    }
    pathname == itemPath || StartsWith(pathname, itemPath + "/")
  }

  /** The mobile menu highlights a link on its own path only. */
  predicate MobileLinkActive(pathname: string, itemPath: string): (b: bool)
    ensures b ==> DesktopLinkActive(pathname, itemPath)
    ensures b ==> |pathname| == |itemPath|
  {
    pathname == itemPath
  }

  /** A link highlighted in the mobile menu is highlighted in the sidebar too. */
  lemma MobileActiveIsDesktopActive(pathname: string, itemPath: string)
    requires MobileLinkActive(pathname, itemPath)
    ensures DesktopLinkActive(pathname, itemPath)
  {
  }

  /** Below a link's path the sidebar highlights it and the mobile menu does not. */
  lemma NestedPathDesktopOnly(itemPath: string, rest: string)
    requires |rest| > 0
    ensures DesktopLinkActive(itemPath + "/" + rest, itemPath)
    ensures !MobileLinkActive(itemPath + "/" + rest, itemPath)
  {
    var p := itemPath + "/" + rest;
    assert p[..|itemPath + "/"|] == itemPath + "/";
    assert |p| > |itemPath|;
  }

  /** Two prefixes of one string: the shorter is a prefix of the longer. */
  lemma CommonPrefix(s: string, a: string, b: string)
    requires StartsWith(s, a) && StartsWith(s, b) && |a| <= |b|
    ensures StartsWith(b, a)
  {
    assert b[..|a|] == s[..|b|][..|a|];
  }

  /** A highlighted link's path is a prefix of the current path. */
  lemma ActiveIsPrefix(pathname: string, itemPath: string)
    requires DesktopLinkActive(pathname, itemPath)
    ensures StartsWith(pathname, itemPath)
  {
    if pathname != itemPath {
      assert pathname[..|itemPath|] == pathname[..|itemPath| + 1][..|itemPath|];
    }
  }

  /** No navigation path is a prefix of another. */
  lemma NavPathsPrefixFree(i: nat, j: nat)
    requires i < |NavPaths| && j < |NavPaths| && i != j
    ensures !StartsWith(NavPaths[j], NavPaths[i])
  {
    var a, b := NavPaths[i], NavPaths[j];
    if |a| <= |b| {
      assert b[..|a|] != a by {
        var k := if (i == 1 && j == 2) || (i == 2 && j == 1) then 8 else 7;
        assert b[k] != a[k];
      }
    }
  }

  /** The sidebar highlights at most one navigation link, whatever the current path. */
  lemma AtMostOneDesktopActive(pathname: string, i: nat, j: nat)
    requires i < |NavPaths| && j < |NavPaths|
    requires DesktopLinkActive(pathname, NavPaths[i]) && DesktopLinkActive(pathname, NavPaths[j])
    ensures i == j
  {
    if i != j {
      ActiveIsPrefix(pathname, NavPaths[i]);
      ActiveIsPrefix(pathname, NavPaths[j]);
      if |NavPaths[i]| <= |NavPaths[j]| {
        CommonPrefix(pathname, NavPaths[i], NavPaths[j]);
        NavPathsPrefixFree(i, j);
      } else {
        CommonPrefix(pathname, NavPaths[j], NavPaths[i]);
        NavPathsPrefixFree(j, i);
      }
    }
  }

  /** Where a click in the mobile navigation lands. */
  datatype MenuTarget = MenuButton | Backdrop | Panel | MenuLink

  class AdminLayout {
    var isSaving: bool
    var isMobileMenuOpen: bool

    constructor()
      ensures !isSaving && !isMobileMenuOpen
    {
      isSaving := false;
      isMobileMenuOpen := false;
    }

    /**
     * A click on Save. The button exists only with an `onSave` and is disabled
     * while saving; an accepted click calls `onSave` and marks the shell busy.
     */
    method ClickSave(hasOnSave: bool) returns (callsOnSave: bool)
      modifies this
      ensures callsOnSave <==> hasOnSave && !old(isSaving)
      ensures isSaving == (old(isSaving) || callsOnSave)
      ensures isMobileMenuOpen == old(isMobileMenuOpen)
    {
      callsOnSave := hasOnSave && !isSaving;
      if callsOnSave {
        isSaving := true;
      }
    }

    /**
     * `onSave` settles: whether it resolved or threw, the busy flag is cleared
     * and the error goes no further.
     */
    method SaveSettled(threw: bool)
      modifies this
      ensures !isSaving
      ensures isMobileMenuOpen == old(isMobileMenuOpen)
    {
      isSaving := false;
    }

    /**
     * The menu button toggles the mobile menu; the backdrop and a link close
     * it; a click inside the panel stops there.
     */
    method MenuClick(target: MenuTarget)
      modifies this
      ensures target == MenuButton ==> isMobileMenuOpen == !old(isMobileMenuOpen)
      ensures target == Backdrop || target == MenuLink ==> !isMobileMenuOpen
      ensures target == Panel ==> isMobileMenuOpen == old(isMobileMenuOpen)
      ensures isSaving == old(isSaving)
    {
      match target
      case MenuButton => isMobileMenuOpen := !isMobileMenuOpen;
      case Backdrop => isMobileMenuOpen := false;
      case Panel =>
      case MenuLink => isMobileMenuOpen := false;
    }
  }
}
