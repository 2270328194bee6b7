/**
 * `proxy.ts`: the request gate in front of every page. It decides between letting the request
 * through and redirecting it, from the path and whether a session cookie is present. The
 * route lists come from a configuration module and are parameters here.
 */
module Proxy {
  import opened Strings

  datatype Decision = Next | Redirect(location: string)

  /** The public paths, the sign-in/sign-up paths, and the prefix of the authentication API. */
  datatype Routes = Routes(publicRoutes: seq<string>, authRoutes: seq<string>, authPrefix: string)

  const LoginPath := "/login"
  const ThreadsPath := "/threads"

  /** A listed public path, or anything under an organization's or a thread's page. */
  predicate IsPublic(routes: Routes, path: string) {
    path in routes.publicRoutes || IsPrefix("/organizations/", path) || IsPrefix("/threads/", path)
  }

  /** The authentication API: the test `^(prefix)` is a plain string-prefix match. */
  predicate IsAuthApi(routes: Routes, path: string) {
    IsPrefix(routes.authPrefix, path)
  }

  /** The decision as the gate makes it. */
  function Decide(routes: Routes, path: string, hasSession: bool): (r: Decision)
    ensures r == Next || r == Redirect(ThreadsPath) || r == Redirect(LoginPath)
    ensures IsPublic(routes, path) || IsAuthApi(routes, path) ==> r == Next
    ensures r == Redirect(ThreadsPath) <==>
              !IsPublic(routes, path) && !IsAuthApi(routes, path) && path in routes.authRoutes && hasSession
    ensures r == Redirect(LoginPath) <==>
              !IsPublic(routes, path) && !IsAuthApi(routes, path) && !hasSession
  {
    if IsPublic(routes, path) then Next
    else if IsAuthApi(routes, path) then Next
    else if path in routes.authRoutes && hasSession then Redirect(ThreadsPath)
    else if !hasSession then Redirect(LoginPath)
    else Next
  }

  /** A signed-in request to any page that is not a sign-in page passes. */
  lemma SessionPassesOutsideAuthPages(routes: Routes, path: string)
    requires path !in routes.authRoutes
    ensures Decide(routes, path, true) == Next
  {}

  /** The route lists of the configuration module. */
  const ConfigRoutes := Routes(
    ["/", "/about", "/projects", "/organizations"],
    ["/login", "/signup", "/verify-email", "/forgot-password", "/reset-password"],
    "/api/auth")

  /** The prefix test admits paths that merely start with the prefix's letters. */
  lemma PrefixAdmitsNeighbours()
    ensures Decide(ConfigRoutes, "/api/authx", false) == Next
  {
    assert IsPrefix("/api/auth", "/api/authx");
  }

  /**
   * As written, a request without a session for the sign-in page itself is redirected to the
   * sign-in page: the redirect answers with the path it was asked for, so the page can never
   * load for a signed-out visitor.
   */
  lemma SignedOutLoginRedirectsToItself()
    ensures Decide(ConfigRoutes, LoginPath, false) == Redirect(LoginPath)
  {
    assert LoginPath in ConfigRoutes.authRoutes;
    assert !IsPrefix("/organizations/", LoginPath);
    assert !IsPrefix("/threads/", LoginPath);
    assert !IsPrefix("/api/auth", LoginPath);
  }

  /**
   * The decision with sign-in pages open to signed-out visitors: a sign-in page sends a
   * signed-in visitor to the threads and lets anyone else through.
   */
  function DecideCorrected(routes: Routes, path: string, hasSession: bool): (r: Decision)
    ensures IsPublic(routes, path) || IsAuthApi(routes, path) ==> r == Next
    ensures path in routes.authRoutes && !hasSession ==> r == Next
    ensures r != Decide(routes, path, hasSession) ==>
              !IsPublic(routes, path) && !IsAuthApi(routes, path) && path in routes.authRoutes && !hasSession
  {
    if IsPublic(routes, path) then Next
    else if IsAuthApi(routes, path) then Next
    else if path in routes.authRoutes then (if hasSession then Redirect(ThreadsPath) else Next)
    else if !hasSession then Redirect(LoginPath)
    else Next
  }

  /**
   * The corrected gate never redirects a request to its own path, as long as the sign-in page
   * is a sign-in route and the threads page is not.
   */
  lemma CorrectedNeverLoops(routes: Routes, path: string, hasSession: bool)
    requires LoginPath in routes.authRoutes && ThreadsPath !in routes.authRoutes
    ensures DecideCorrected(routes, path, hasSession) != Redirect(path)
  {}
}
