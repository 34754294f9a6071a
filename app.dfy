/**
 * The application shell: the loading gate, the route table under the `/dashboard`
 * basename, the protected-route redirect, the sidebar's active-item rule, the sidebar's
 * open flag and the error boundary.
 *
 * Paths here are router paths, i.e. with the `/dashboard` basename already removed, which
 * is what the router matches routes against and what `useLocation().pathname` returns.
 */
module App {
  import opened Prelude

  /** The five pages behind the login. */
  datatype Page = PortfolioTab | TransactionsTab | LogsTab | BotControlTab | SettingsTab

  /** What the app renders for a location. */
  datatype Screen = LoadingScreen | LoginScreen | PageScreen(page: Page) | Navigate(to: string)

  /** The protected routes of the table. */
  function PageAt(path: string): (p: Option<Page>)
    ensures p == Some(PortfolioTab) <==> path == "/portfolio"
    ensures p == Some(TransactionsTab) <==> path == "/transactions"
    ensures p == Some(LogsTab) <==> path == "/logs"
    ensures p == Some(BotControlTab) <==> path == "/bot-control"
    ensures p == Some(SettingsTab) <==> path == "/settings"
  {
    if path == "/portfolio" then Some(PortfolioTab)
    else if path == "/transactions" then Some(TransactionsTab)
    else if path == "/logs" then Some(LogsTab)
    else if path == "/bot-control" then Some(BotControlTab)
    else if path == "/settings" then Some(SettingsTab)
    else None
  }

  /** The router path of each page. */
  function PathOf(p: Page): string
  {
    match p
    case PortfolioTab => "/portfolio"
    case TransactionsTab => "/transactions"
    case LogsTab => "/logs"
    case BotControlTab => "/bot-control"
    case SettingsTab => "/settings"
  }

  lemma PathOfRoundTrip(p: Page)
    ensures PageAt(PathOf(p)) == Some(p)
  {
  }

  /** `ProtectedRoute`: the page when signed in, otherwise a redirect to `/dashboard/`. */
  function Protected(p: Page, isAuthenticated: bool): (s: Screen)
    ensures s.PageScreen? <==> isAuthenticated
    ensures s.PageScreen? ==> s.page == p
    ensures !isAuthenticated ==> s == Navigate("/dashboard/")
  {
    if isAuthenticated then PageScreen(p) else Navigate("/dashboard/")
  }

  /** `App`: the loading gate, then the first route of the table that matches. */
  function Resolve(path: string, isAuthenticated: bool, isLoading: bool): (s: Screen)
    ensures isLoading ==> s == LoadingScreen
    ensures !isLoading && path == "/" ==>
              s == if isAuthenticated then Navigate("/portfolio") else LoginScreen
    ensures !isLoading && PageAt(path).Some? ==> s == Protected(PageAt(path).value, isAuthenticated)
    ensures !isLoading && path != "/" && PageAt(path).None? ==>
              s == Navigate(if isAuthenticated then "/portfolio" else "/")
    ensures s.PageScreen? ==> isAuthenticated && PageAt(path) == Some(s.page)
  {
    if isLoading then LoadingScreen
    else if path == "/" then (if isAuthenticated then Navigate("/portfolio") else LoginScreen)
    else if PageAt(path).Some? then Protected(PageAt(path).value, isAuthenticated)
    else Navigate(if isAuthenticated then "/portfolio" else "/")
  }

  /** Follows `<Navigate>` redirects, at most `hops` times, once auth has loaded. */
  function Settle(path: string, isAuthenticated: bool, hops: nat): (s: Screen)
    // however the redirects run, a page is shown only to a signed-in user, and never the spinner
    ensures s.PageScreen? ==> isAuthenticated
    ensures s != LoadingScreen
    decreases hops
  {
    var s := Resolve(path, isAuthenticated, false);
    if s.Navigate? && hops > 0 then Settle(s.to, isAuthenticated, hops - 1) else s
  }

  /**
   * Redirects end within two hops: a visitor who is not signed in always ends on the login
   * page, wherever they start; a signed-in user ends on the page asked for, or on Portfolio
   * when the path names no page.
   */
  lemma SettleEnds(path: string, isAuthenticated: bool)
    ensures !isAuthenticated ==> Settle(path, isAuthenticated, 2) == LoginScreen
    ensures isAuthenticated ==>
              Settle(path, isAuthenticated, 2) ==
                PageScreen(if PageAt(path).Some? then PageAt(path).value else PortfolioTab)
  {
    assert PageAt("/dashboard/") == None;
    assert PageAt("/") == None;
  }

  /** A sidebar link. */
  datatype NavItem = NavItem(caption: string, path: string, page: Page)

  /** The sidebar as written: each link carries the basename a second time. */
  const NavItemsAsWritten := [
    NavItem("Portfolio", "/dashboard/portfolio", PortfolioTab),
    NavItem("Transactions", "/dashboard/transactions", TransactionsTab),
    NavItem("Logs", "/dashboard/logs", LogsTab),
    NavItem("Bot Control", "/dashboard/bot-control", BotControlTab),
    NavItem("Settings", "/dashboard/settings", SettingsTab)
  ]

  /** The sidebar with router paths, as the route table names them. */
  const NavItems := [
    NavItem("Portfolio", "/portfolio", PortfolioTab),
    NavItem("Transactions", "/transactions", TransactionsTab),
    NavItem("Logs", "/logs", LogsTab),
    NavItem("Bot Control", "/bot-control", BotControlTab),
    NavItem("Settings", "/settings", SettingsTab)
  ]

  /** `isActive`: the location's path is the item's path exactly. */
  predicate IsActive(location: string, item: NavItem)
  {
    location == item.path
  }

  /**
   * As written, no item is ever highlighted on a page the app renders, and every link,
   * followed by a signed-in user, lands on Portfolio: `/dashboard/logs` is no route, so
   * the catch-all redirects.
   */
  lemma NavAsWrittenBroken(location: string)
    requires Resolve(location, true, false).PageScreen?
    ensures forall i :: 0 <= i < |NavItemsAsWritten| ==> !IsActive(location, NavItemsAsWritten[i])
    ensures forall i :: 0 <= i < |NavItemsAsWritten| ==>
              Settle(NavItemsAsWritten[i].path, true, 2) == PageScreen(PortfolioTab)
  {
  }

  /** A Logs link that stays on Portfolio: the first link that goes astray. */
  lemma NavAsWrittenLogsLink()
    ensures NavItemsAsWritten[2].page == LogsTab
    ensures Settle(NavItemsAsWritten[2].path, true, 2) == PageScreen(PortfolioTab)
  {
    NavAsWrittenBroken("/logs");
  }

  /**
   * With router paths every link lands on its own page, and on each rendered page exactly
   * the item for that page is highlighted.
   */
  lemma NavHighlightsCurrentPage(location: string)
    requires Resolve(location, true, false).PageScreen?
    ensures forall i :: 0 <= i < |NavItems| ==>
              (IsActive(location, NavItems[i]) <==> NavItems[i].page == Resolve(location, true, false).page)
    ensures forall i :: 0 <= i < |NavItems| ==>
              Settle(NavItems[i].path, true, 2) == PageScreen(NavItems[i].page)
  {
    forall i | 0 <= i < |NavItems|
      ensures IsActive(location, NavItems[i]) <==> NavItems[i].page == Resolve(location, true, false).page
    {
      assert NavItems[i].path == PathOf(NavItems[i].page);
      PathOfRoundTrip(NavItems[i].page);
    }
  }

  /** The layout's sidebar: closed at first, toggled by the menu button, closed by the overlay or a link. */
  class Layout {
    var sidebarOpen: bool

    constructor ()
      ensures !sidebarOpen
    {
      sidebarOpen := false;
    }

    method MenuClick()
      modifies this
      ensures sidebarOpen == !old(sidebarOpen)
    {
      sidebarOpen := !sidebarOpen;
    }

    method Close()
      modifies this
      ensures !sidebarOpen
    {
      sidebarOpen := false;
    }
  }

  /** What the error boundary shows. */
  datatype BoundaryView = Children(screen: Screen) | SomethingWentWrong(message: Option<string>)

  /** `ErrorBoundary`: once a render error is caught, the fallback panel replaces the children. */
  class ErrorBoundary {
    var hasError: bool
    var error: Option<Fault>

    constructor ()
      ensures !hasError && error == None
    {
      hasError := false;
      error := None;
    }

    /** `getDerivedStateFromError`: remember the error. */
    method Catch(e: Fault)
      modifies this
      ensures hasError && error == Some(e)
    {
      hasError := true;
      error := Some(e);
    }

    /** `render`: the fallback with `error?.message` after an error, the children otherwise. */
    function View(children: Screen): (v: BoundaryView)
      reads this
      ensures v.Children? <==> !hasError
      ensures v.Children? ==> v.screen == children
      ensures v.SomethingWentWrong? && error.Some? && error.value.ErrorObject? ==>
                v.message == Some(error.value.message)
    {
      if hasError then
        SomethingWentWrong(if error.Some? && error.value.ErrorObject? then Some(error.value.message) else None)
      else Children(children)
    }
  }
}
