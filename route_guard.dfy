/** The Next.js `middleware`: sends a visitor without a session away from protected paths and a
    signed-in visitor away from the login and registration pages. */
module RouteGuard {
  import opened Text

  const ProtectedRoutes: seq<string> := ["/dashboard", "/:tenant"]

  /** `protectedRoutes.some(route => pathname.startsWith(route.replace('/:path*', '')))`. */
  predicate IsProtectedRoute(pathname: string) {
    exists i :: 0 <= i < |ProtectedRoutes| && StartsWith(pathname, ReplaceFirst(ProtectedRoutes[i], "/:path*", ""))
  }

  predicate IsAuthRoute(pathname: string) {
    StartsWith(pathname, "/login") || StartsWith(pathname, "/register")
  }

  datatype Decision = RedirectTo(target: string) | Next

  function Middleware(pathname: string, hasToken: bool): (d: Decision)
    ensures d == RedirectTo("/login") <==> IsProtectedRoute(pathname) && !hasToken
    ensures d == RedirectTo("/dashboard") <==> IsAuthRoute(pathname) && hasToken
    ensures d == Next <==> !(IsProtectedRoute(pathname) && !hasToken) && !(IsAuthRoute(pathname) && hasToken)
  {
    if IsProtectedRoute(pathname) && !hasToken then RedirectTo("/login")
    else if IsAuthRoute(pathname) && hasToken then RedirectTo("/dashboard")
    else Next
  }

  /** The `'/:path*'` pattern occurs in neither entry (neither holds a `*`), so the replacement
      leaves each entry as it is. */
  lemma PatternAbsent(i: nat)
    requires i < |ProtectedRoutes|
    ensures ReplaceFirst(ProtectedRoutes[i], "/:path*", "") == ProtectedRoutes[i]
  {
    var route := ProtectedRoutes[i];
    assert '*' in "/:path*" by { assert "/:path*"[6] == '*'; }
    assert '*' !in route;
    IndexOfMissingChar(route, "/:path*", '*');
  }

  /** Hence "protected" means starting literally with `/dashboard` or `/:tenant`. */
  lemma ProtectedMeansLiteralPrefix(pathname: string)
    ensures IsProtectedRoute(pathname) <==> StartsWith(pathname, "/dashboard") || StartsWith(pathname, "/:tenant")
  {
    if IsProtectedRoute(pathname) {
      var i :| 0 <= i < |ProtectedRoutes| && StartsWith(pathname, ReplaceFirst(ProtectedRoutes[i], "/:path*", ""));
      PatternAbsent(i);
      if i == 0 {
        assert StartsWith(pathname, "/dashboard");
      } else {
        assert StartsWith(pathname, "/:tenant");
      }
    }
    if StartsWith(pathname, "/dashboard") {
      PatternAbsent(0);
    } else if StartsWith(pathname, "/:tenant") {
      PatternAbsent(1);
    }
  }

  /** A path starting with a prefix has that prefix's second character. */
  lemma SecondChar(s: string, prefix: string)
    requires 2 <= |prefix| && StartsWith(s, prefix)
    ensures s[1] == prefix[1]
  {
    assert s[..|prefix|][1] == s[1];
  }

  /** A protected path has `d` or `:` as its second character. */
  lemma ProtectedSecondChar(path: string)
    ensures IsProtectedRoute(path) ==> 2 <= |path| && (path[1] == 'd' || path[1] == ':')
  {
    if IsProtectedRoute(path) {
      var i :| 0 <= i < |ProtectedRoutes| && StartsWith(path, ReplaceFirst(ProtectedRoutes[i], "/:path*", ""));
      PatternAbsent(i);
      if i == 0 {
        SecondChar(path, "/dashboard");
      } else {
        SecondChar(path, "/:tenant");
      }
    }
  }

  /** A real tenant path such as `/acme/sales` (any path whose second character is neither `d`
      nor `:`) is therefore not protected by this check. */
  lemma TenantPathNotProtected(path: string)
    requires 2 <= |path| && path[1] != 'd' && path[1] != ':'
    ensures !IsProtectedRoute(path)
  {
    ProtectedSecondChar(path);
  }

  /** A login or register path has `l` or `r` as its second character. */
  lemma AuthSecondChar(path: string)
    ensures IsAuthRoute(path) ==> 2 <= |path| && (path[1] == 'l' || path[1] == 'r')
  {
    if StartsWith(path, "/login") { SecondChar(path, "/login"); }
    if StartsWith(path, "/register") { SecondChar(path, "/register"); }
  }

  /** No path is both protected and an auth page, so at most one redirect applies. */
  lemma ProtectedAndAuthDisjoint(pathname: string)
    ensures !(IsProtectedRoute(pathname) && IsAuthRoute(pathname))
  {
    ProtectedSecondChar(pathname);
    AuthSecondChar(pathname);
  }
}
