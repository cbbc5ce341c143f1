/**
 * The public router's helpers (src/App.tsx): the admin-route test that hides
 * the public header and footer, navigation from a page name to its path, and
 * the page name highlighted for a path.
 */
module Routes {
  import opened Text

  const AdminPrefix: string := "/admin"

  /** The three public page names the header knows. */
  const PublicPages: seq<string> := ["home", "projects", "about"]

  /** `location.pathname.startsWith('/admin')`. */
  predicate IsAdminRoute(path: string): (b: bool)
    ensures b <==> exists rest :: path == AdminPrefix + rest
  {
    assert StartsWith(path, AdminPrefix) ==> path == AdminPrefix + path[|AdminPrefix|..];
    StartsWith(path, AdminPrefix)
  }

  /** The public header and footer are rendered exactly off the admin routes. */
  function ShowsChrome(path: string): (shown: bool)
    ensures shown <==> !(|path| >= 6 && path[..6] == AdminPrefix)
  {
    !IsAdminRoute(path)
  }

  /** `handlePageChange`: where the header's navigation goes; unknown names go home. */
  function PathForPage(page: string): (path: string)
    ensures path in ["/", "/projects", "/about"]
    ensures path == "/projects" <==> page == "projects"
    ensures path == "/about" <==> page == "about"
  {
    match page
    case "home" => "/"
    case "projects" => "/projects"
    case "about" => "/about"
    case _ => "/"
  }

  /** `getActivePage`: only the two exact paths name their page; everything else is home. */
  function ActivePage(path: string): (page: string)
    ensures page in PublicPages
    ensures page == "projects" <==> path == "/projects"
    ensures page == "about" <==> path == "/about"
  {
    if path == "/projects" then "projects"
    else if path == "/about" then "about"
    else "home"
  }

  /** Navigating to a public page and reading the active page back gives that page. */
  lemma ActiveAfterNavigate(page: string)
    requires page in PublicPages
    ensures ActivePage(PathForPage(page)) == page
  {
  }

  /** A path is where the navigation of its own active page leads exactly for the three public paths. */
  lemma NavigateToActive(path: string)
    ensures PathForPage(ActivePage(path)) == path <==> path in ["/", "/projects", "/about"]
  {
  }

  /** The header never navigates to an admin route, so it stays rendered after navigating. */
  lemma NavigationStaysPublic(page: string)
    ensures ShowsChrome(PathForPage(page))
  {
    var path := PathForPage(page);
    if path == "/projects" {
      assert path[1] != AdminPrefix[1];
    } else if path == "/about" {
      assert path[2] != AdminPrefix[2];
    }
  }
}
