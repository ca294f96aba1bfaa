/**
 * The route guard of the session middleware (utils/supabase/middleware.ts):
 * which paths are public, which need a signed-in user, and the redirect
 * `updateSession` answers with.
 *
 * The session lookup `supabase.auth.getUser()` is the parameter `signedIn`;
 * the cookie plumbing that rebuilds the pass-through response is not modelled.
 */
module RouteGuard {
  import Text

  const PublicPrefixes: seq<string> := ["/signup", "/auth/"]
  const ProtectedPrefixes: seq<string> :=
    ["/mainpos", "/settings", "/analytics", "/inventory", "/transactionhistory", "/payment"]

  /** `isPublicRoute`. */
  predicate IsPublic(path: string) {
    path == "/" || Text.StartsWith(path, "/signup") || Text.StartsWith(path, "/auth/")
  }

  /** `isProtectedRoute`. */
  predicate IsProtected(path: string) {
    Text.StartsWith(path, "/mainpos") || Text.StartsWith(path, "/settings")
    || Text.StartsWith(path, "/analytics") || Text.StartsWith(path, "/inventory")
    || Text.StartsWith(path, "/transactionhistory") || Text.StartsWith(path, "/payment")
  }

  /**
   * What the middleware answers: the request goes on unchanged, or it is
   * redirected to `path` on the same URL, with `redirected=true` added to the
   * query when `flagged`.
   */
  datatype Decision = PassThrough | Redirect(path: string, flagged: bool)

  /** The two redirect checks of `updateSession`, in their order. */
  function Guard(signedIn: bool, path: string): Decision {
    if !signedIn && IsProtected(path) then Redirect("/", true)
    else if signedIn && path == "/" then Redirect("/mainpos", false)
    else PassThrough
  }

  /** Two prefixes of the same path agree wherever both are defined. */
  lemma PrefixesAgree(path: string, p: string, q: string, i: int)
    requires Text.StartsWith(path, p) && Text.StartsWith(path, q)
    requires 0 <= i < |p| && i < |q|
    ensures p[i] == q[i]
  {
    assert p[i] == path[..|p|][i] == path[i];
    assert q[i] == path[..|q|][i] == path[i];
  }

  /** A path is public or protected by one of the listed prefixes, exactly as the predicates say. */
  lemma RouteKinds(path: string)
    ensures IsPublic(path) <==> path == "/" || exists i :: 0 <= i < |PublicPrefixes| && Text.StartsWith(path, PublicPrefixes[i])
    ensures IsProtected(path) <==> exists i :: 0 <= i < |ProtectedPrefixes| && Text.StartsWith(path, ProtectedPrefixes[i])
  {
    if Text.StartsWith(path, "/signup") {
      assert Text.StartsWith(path, PublicPrefixes[0]);
    }
    if Text.StartsWith(path, "/auth/") {
      assert Text.StartsWith(path, PublicPrefixes[1]);
    }
    if IsProtected(path) {
      var i := if Text.StartsWith(path, "/mainpos") then 0
        else if Text.StartsWith(path, "/settings") then 1
        else if Text.StartsWith(path, "/analytics") then 2
        else if Text.StartsWith(path, "/inventory") then 3
        else if Text.StartsWith(path, "/transactionhistory") then 4
        else 5;
      assert Text.StartsWith(path, ProtectedPrefixes[i]);
    }
  }

  /** No path is both public and protected. */
  lemma PublicNotProtected(path: string)
    ensures !(IsPublic(path) && IsProtected(path))
  {
    if IsProtected(path) {
      assert path != "/";
      var p := if Text.StartsWith(path, "/mainpos") then "/mainpos"
        else if Text.StartsWith(path, "/settings") then "/settings"
        else if Text.StartsWith(path, "/analytics") then "/analytics"
        else if Text.StartsWith(path, "/inventory") then "/inventory"
        else if Text.StartsWith(path, "/transactionhistory") then "/transactionhistory"
        else "/payment";
      assert Text.StartsWith(path, p);
      if Text.StartsWith(path, "/signup") {
        if p == "/settings" {
          PrefixesAgree(path, p, "/signup", 2);
        } else {
          PrefixesAgree(path, p, "/signup", 1);
        }
      }
      if Text.StartsWith(path, "/auth/") {
        if p == "/analytics" {
          PrefixesAgree(path, p, "/auth/", 2);
        } else {
          PrefixesAgree(path, p, "/auth/", 1);
        }
      }
    }
  }

  /**
   * A signed-out request is redirected exactly when its path is protected,
   * and then to `/` with the flag; a signed-in one exactly when its path is
   * `/`, and then to `/mainpos`; every other request goes through.
   */
  lemma GuardDecision(signedIn: bool, path: string)
    ensures Guard(signedIn, path) == Redirect("/", true) <==> !signedIn && IsProtected(path)
    ensures Guard(signedIn, path) == Redirect("/mainpos", false) <==> signedIn && path == "/"
    ensures Guard(signedIn, path) == PassThrough <==>
      (signedIn && path != "/") || (!signedIn && !IsProtected(path))
    ensures !signedIn && IsPublic(path) ==> Guard(signedIn, path) == PassThrough
  {
    PublicNotProtected(path);
  }

  /**
   * A redirect is never followed by another: the signed-out visitor sent to
   * `/` and the signed-in user sent to `/mainpos` are let through there.
   */
  lemma NoRedirectLoop(signedIn: bool, path: string)
    ensures Guard(signedIn, path).Redirect? ==> Guard(signedIn, Guard(signedIn, path).path) == PassThrough
  {
    assert !Text.StartsWith("/", "/mainpos");
  }
}
