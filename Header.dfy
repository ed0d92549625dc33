/** The page header (src/app/components/header/header.component.ts): the
    search box shows on the home page and on every dashboard page. */
module Header {
  import opened JsStrings

  const DashboardPrefix: string := "/dashboard"

  /** `updateShowSearch(url)`; None stands for a null or undefined url. */
  function ShowSearch(url: Option<string>): bool {
    var path := Lower(if url.Some? then url.value else "");
    path == "/" || StartsWith(path, DashboardPrefix)
  }

  /** The test ignores letter case. */
  lemma ShowSearchIgnoresCase(a: string, b: string)
    requires Lower(a) == Lower(b)
    ensures ShowSearch(Some(a)) == ShowSearch(Some(b))
  {
  }

  lemma LowerAppend(u: string, v: string)
    ensures Lower(u + v) == Lower(u) + Lower(v)
  {
  }

  /** Every path under a dashboard prefix shows the search, whatever
      follows it, even without a '/' in between ("/dashboardX"). */
  lemma DashboardPathsShowSearch(u: string, v: string)
    requires StartsWith(Lower(u), DashboardPrefix)
    ensures ShowSearch(Some(u + v))
  {
    LowerAppend(u, v);
    assert (Lower(u) + Lower(v))[..|DashboardPrefix|] == Lower(u)[..|DashboardPrefix|];
  }

  /** The root shows the search only as "/" exactly: a missing or empty
      url, and a path shorter than the prefix other than "/", do not. */
  lemma ShowSearchExamples()
    ensures ShowSearch(Some("/"))
    ensures ShowSearch(Some("/DASHBOARD"))
    ensures !ShowSearch(None) && !ShowSearch(Some(""))
    ensures !ShowSearch(Some("/login"))
  {
    assert Lower("/DASHBOARD") == DashboardPrefix;
    assert Lower("/login") == "/login";
  }

  /** A path shorter than "/dashboard" shows the search only if it is "/". */
  lemma ShortPathsHideSearch(u: string)
    requires |u| < |DashboardPrefix| && Lower(u) != "/"
    ensures !ShowSearch(Some(u))
  {
  }

  /** Character by character: the search shows for "/" in any case, and for
      any url whose first ten characters spell "/dashboard" in any case. */
  lemma ShowSearchCharacterised(u: string)
    ensures ShowSearch(Some(u)) <==>
      (|u| == 1 && u[0] == '/')
      || (|u| >= |DashboardPrefix|
          && forall i :: 0 <= i < |DashboardPrefix| ==> LowerChar(u[i]) == DashboardPrefix[i])
  {
    var path := Lower(u);
    if |u| == 1 && u[0] == '/' {
      assert path == "/";
    }
    if path == "/" {
      assert LowerChar(u[0]) == '/';
    }
    if |u| >= |DashboardPrefix| {
      if forall i :: 0 <= i < |DashboardPrefix| ==> LowerChar(u[i]) == DashboardPrefix[i] {
        assert path[..|DashboardPrefix|] == DashboardPrefix;
      }
    }
  }

  class HeaderComponent {
    var showSearch: bool
    var subscribed: bool   // `sub`, while it listens to navigation ends

    constructor ()
      ensures !showSearch && !subscribed
    {
      showSearch := false;
      subscribed := false;
    }

    /** Takes the router's current url, then listens for navigation ends. */
    method NgOnInit(currentUrl: Option<string>)
      modifies this
      ensures showSearch == ShowSearch(currentUrl) && subscribed
    {
      UpdateShowSearch(currentUrl);
      subscribed := true;
    }

    /** A `NavigationEnd` event; it reaches the component only while
        subscribed. */
    method OnNavigationEnd(urlAfterRedirects: Option<string>)
      modifies this`showSearch
      ensures showSearch == if subscribed then ShowSearch(urlAfterRedirects) else old(showSearch)
    {
      if subscribed {
        UpdateShowSearch(urlAfterRedirects);
      }
    }

    method NgOnDestroy()
      modifies this`subscribed
      ensures !subscribed
    {
      subscribed := false;
    }

    method UpdateShowSearch(url: Option<string>)
      modifies this`showSearch
      ensures showSearch == ShowSearch(url)
    {
      var path := Lower(if url.Some? then url.value else "");
      showSearch := path == "/" || StartsWith(path, DashboardPrefix);
    }
  }
}
