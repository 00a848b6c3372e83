/**
 * The route table and navigation guard of src/router/index.ts. The guard
 * looks only at whether a user record is stored, never at the token.
 */
module Routing {
  import opened Wrappers
  import opened Text
  import opened Storage

  datatype Route = Route(path: string, name: string, requiresAuth: bool)

  const Routes: seq<Route> := [
    Route("/", "login", false),
    Route("/register", "register", false),
    Route("/home", "home", true)
  ]

  /**
   * The two strings agree character by character once upper-cased, as the
   * route regexes compare without case; against the ASCII paths of the
   * route table this is JavaScript's case-insensitive comparison.
   */
  predicate SameIgnoringCase(a: string, b: string) {
    |a| == |b| && forall i :: 0 <= i < |a| ==> UpperChar(a[i]) == UpperChar(b[i])
  }

  /** A route's path without its trailing slash. */
  function Body(routePath: string): (b: string)
    ensures b == routePath || b + "/" == routePath
  {
    if routePath != [] && routePath[|routePath| - 1] == '/' then routePath[..|routePath| - 1] else routePath
  }

  /**
   * vue-router's matching under its defaults (`strict: false`,
   * `sensitive: false`): the route's path with or without one trailing
   * slash, in any letter case.
   */
  predicate Matches(routePath: string, path: string) {
    SameIgnoringCase(Body(routePath), path) || SameIgnoringCase(Body(routePath) + "/", path)
  }

  /** `to.meta.requiresAuth` for a path: the route it matches carries the flag. */
  predicate RequiresAuth(path: string) {
    exists k :: 0 <= k < |Routes| && Matches(Routes[k].path, path) && Routes[k].requiresAuth
  }

  /** Of the three routes, only "/home" is protected, in every spelling the matcher accepts. */
  lemma OnlyHomeProtected(path: string)
    ensures RequiresAuth(path) <==> Matches("/home", path)
  {
    if Matches("/home", path) {
      assert Routes[2].path == "/home";
    }
  }

  /** A trailing slash or capital letters still reach the protected route. */
  lemma HomeSpellingsProtected()
    ensures RequiresAuth("/home") && RequiresAuth("/home/") && RequiresAuth("/HOME") && RequiresAuth("/Home/")
  {
    assert Body("/home") == "/home";
    assert Matches("/home", "/home") && Matches("/home", "/home/");
    assert SameIgnoringCase("/home", "/HOME") by {
      forall i | 0 <= i < 5 ensures UpperChar("/home"[i]) == UpperChar("/HOME"[i]) { }
    }
    assert SameIgnoringCase("/home/", "/Home/") by {
      forall i | 0 <= i < 6 ensures UpperChar("/home/"[i]) == UpperChar("/Home/"[i]) { }
    }
    OnlyHomeProtected("/home");
    OnlyHomeProtected("/home/");
    OnlyHomeProtected("/HOME");
    OnlyHomeProtected("/Home/");
  }

  /** A second slash or a longer name does not reach it. */
  lemma HomeNeighboursOpen()
    ensures !RequiresAuth("/home//") && !RequiresAuth("/homes")
  {
    assert Body("/home") == "/home";
    OnlyHomeProtected("/home//");
    OnlyHomeProtected("/homes");
    assert !SameIgnoringCase("/home/", "/homes") by {
      assert UpperChar("/home/"[5]) != UpperChar("/homes"[5]);
    }
  }

  datatype Verdict = Allow | Redirect(to: string)

  /** beforeEach: a protected route without a stored, non-empty `user` is sent to "/". */
  function Guard(path: string, items: map<string, string>): (v: Verdict)
    ensures v == Allow || v == Redirect("/")
    ensures !RequiresAuth(path) ==> v == Allow
    ensures v.Redirect? <==> RequiresAuth(path) && (UserKey !in items || items[UserKey] == "")
  {
    var isAuthenticated := Lookup(items, UserKey);
    if RequiresAuth(path) && !(isAuthenticated.Some? && isAuthenticated.value != "") then Redirect("/")
    else Allow
  }

  /** The token plays no part: storing, changing or removing it never changes the verdict. */
  lemma GuardIgnoresToken(path: string, items: map<string, string>, token: string)
    ensures Guard(path, items[AuthTokenKey := token]) == Guard(path, items)
    ensures Guard(path, items - {AuthTokenKey}) == Guard(path, items)
  {
    assert AuthTokenKey != UserKey;
    assert UserKey in items[AuthTokenKey := token] <==> UserKey in items;
    assert UserKey in items - {AuthTokenKey} <==> UserKey in items;
  }

  /** The application's router: where it is, and the navigations requested of it. */
  class Router {
    var currentPath: string
    var pushed: seq<string>

    constructor (path: string)
      ensures currentPath == path && pushed == []
    {
      currentPath, pushed := path, [];
    }

    /** `router.push(path)`, recorded; the navigation itself is not modelled. */
    method Push(path: string)
      modifies this
      ensures pushed == old(pushed) + [path] && currentPath == old(currentPath)
    {
      pushed := pushed + [path];
    }
  }
}
