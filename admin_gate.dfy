/**
 * The `middleware` function of middleware.ts: a decision on the request path
 * and the `admin_token` cookie. The token is only checked for presence; its
 * signature is not verified here. (The file's `matcher: []` means Next.js
 * never invokes it; the decision itself is what is modelled.)
 */
module AdminGate {
  import opened Wrappers
  import opened Js
  import opened Text

  const AdminPrefix := "/admin"
  const LoginPath := "/admin/login"

  datatype Decision = Next | Redirect(location: string)

  /** `middleware(request)`: the path and the value of the `admin_token` cookie, if any. */
  function Gate(pathname: string, token: Option<string>): (d: Decision)
    ensures d.Redirect? ==> d.location == LoginPath
    ensures d.Redirect? <==> StartsWith(pathname, AdminPrefix) && pathname != LoginPath && !Present(token)
  {
    if !StartsWith(pathname, AdminPrefix) then Next
    else if pathname == LoginPath then Next
    else if !Present(token) then Redirect(LoginPath)
    else Next
  }

  /** Paths outside "/admin" pass through, token or not. */
  lemma OutsideAdminPasses(pathname: string, token: Option<string>)
    requires !StartsWith(pathname, AdminPrefix)
    ensures Gate(pathname, token) == Next
  {
  }

  /** The check is a plain prefix test: "/administrator" without a token is redirected like "/admin/products". */
  lemma PrefixNotSegment()
    ensures Gate("/administrator", None) == Redirect(LoginPath)
    ensures Gate("/admin/products", Some("")) == Redirect(LoginPath)
    ensures Gate("/admi", None) == Next
  {
    assert StartsWith("/administrator", AdminPrefix) by {
      assert "/administrator"[..|AdminPrefix|] == AdminPrefix;
    }
    assert StartsWith("/admin/products", AdminPrefix) by {
      assert "/admin/products"[..|AdminPrefix|] == AdminPrefix;
    }
  }

  /** Any non-empty token passes, with no verification. */
  lemma AnyTokenPasses(pathname: string, token: string)
    requires token != ""
    ensures Gate(pathname, Some(token)) == Next
  {
  }

  /** A redirect never leads to another: the redirect target passes with or without a token. */
  lemma RedirectTargetPasses(pathname: string, token: Option<string>, next: Option<string>)
    requires Gate(pathname, token).Redirect?
    ensures Gate(Gate(pathname, token).location, next) == Next
  {
  }
}
