/** The CSRF stage of the application pipeline (app.js:159-166) and the stage
    that hands the token to the views (app.js:184-188).

    The csurf library itself is seen from outside only: for a request it
    either accepts (and binds a token to the session) or rejects. Its HTTP
    method check and token comparison are not part of this model. */
module Csrf {
  import opened Text

  /** The namespace whose paths skip the CSRF check. */
  const ApiPrefix: string := "/api"

  /** The path test of app.js:161: the check runs for exactly `/api` and for
      every path in which `/api` does not occur at all. */
  function Guarded(path: string): (r: bool)
    ensures r <==> path == ApiPrefix || !Contains(path, ApiPrefix)
  {
    path == ApiPrefix || IndexOf(path, ApiPrefix) == -1
  }

  /** Whether the CSRF check runs for `path`: the stage is installed only
      outside debug mode (app.js:159), and then tests the path. */
  function CsrfApplies(path: string, debug: bool): (r: bool)
    ensures r <==> !debug && (path == ApiPrefix || !Contains(path, ApiPrefix))
  {
    !debug && Guarded(path)
  }

  /** `req.csrfToken`: absent until csurf has run for the request. */
  datatype TokenFn = Absent | Issued(token: string)

  /** `res.locals.csrf`: unset until the locals stage has run. */
  datatype ViewLocal = Unset | Shown(value: string)

  /** The part of the request and response that the CSRF stages read and write. */
  datatype Ctx = Ctx(path: string, csrfToken: TokenFn, viewCsrf: ViewLocal)

  /** The request as it enters the pipeline. */
  function Entry(path: string): Ctx {
    Ctx(path, Absent, Unset)
  }

  /** csurf's answer for this request: the token it binds to the session and
      whether its own method and token check passes. */
  datatype Csurf = Csurf(token: string, passes: bool)

  datatype GateResult = Next(ctx: Ctx) | CsrfError

  /** The middleware of app.js:160-166: on a guarded path hand the request to
      csurf, which attaches `req.csrfToken` and either passes it on or raises
      an error; on any other path call `next()` untouched. */
  function Gate(ctx: Ctx, csurf: Csurf): (r: GateResult)
    ensures r.CsrfError? <==> CsrfApplies(ctx.path, false) && !csurf.passes
    ensures r.Next? && CsrfApplies(ctx.path, false) ==> r.ctx == ctx.(csrfToken := Issued(csurf.token))
    ensures r.Next? && !CsrfApplies(ctx.path, false) ==> r.ctx == ctx
  {
    if Guarded(ctx.path) then
      if csurf.passes then Next(ctx.(csrfToken := Issued(csurf.token))) else CsrfError
    else
      Next(ctx)
  }

  /** The middleware of app.js:184-188: the view sees the token when csurf
      attached one, and the empty string otherwise. */
  function ExposeToken(ctx: Ctx): (r: Ctx)
    ensures r.path == ctx.path && r.csrfToken == ctx.csrfToken
    ensures ctx.csrfToken.Issued? ==> r.viewCsrf == Shown(ctx.csrfToken.token)
    ensures ctx.csrfToken.Absent? ==> r.viewCsrf == Shown("")
  {
    ctx.(viewCsrf := Shown(if ctx.csrfToken.Issued? then ctx.csrfToken.token else ""))
  }

  /** A path that contains `/api` and is not `/api` itself passes the gate
      untouched, whatever csurf would have said (app.js:161,165). */
  lemma ExemptPathPassesUntouched(ctx: Ctx, csurf: Csurf)
    requires Contains(ctx.path, ApiPrefix) && ctx.path != ApiPrefix
    ensures Gate(ctx, csurf) == Next(ctx)
  {
  }

  /** In debug mode no path is checked. */
  lemma DebugNeverChecks(path: string)
    ensures !CsrfApplies(path, true)
  {
  }

  /** `/api` itself is checked outside debug mode. */
  lemma ApiRootChecked()
    ensures CsrfApplies(ApiPrefix, false)
  {
  }

  /** Any path with `/api` somewhere inside it, other than `/api` itself, is
      exempt: this covers `/api/v1/...` and also `/apidocs` or `/user/api`. */
  lemma ApiInfixExempt(pre: string, post: string, debug: bool)
    requires pre + post != []
    ensures !CsrfApplies(pre + ApiPrefix + post, debug)
  {
    ContainsInfix(pre, ApiPrefix, post);
    assert |pre + ApiPrefix + post| > |ApiPrefix|;
  }

  /** Every path that starts with `/api` and is longer is exempt. */
  lemma ApiNamespaceExempt(path: string, debug: bool)
    requires |path| > |ApiPrefix| && path[..|ApiPrefix|] == ApiPrefix
    ensures !CsrfApplies(path, debug)
  {
    var post := path[|ApiPrefix|..];
    assert path == [] + ApiPrefix + post;
    ApiInfixExempt([], post, debug);
  }

  /** An ordinary page path is checked outside debug mode. */
  lemma TopicsPageChecked()
    ensures CsrfApplies("/topics", false)
  {
    var topics := "/topics";
    // each window of "/topics" differs from "/api" in its first or second character
    assert topics[0..4][1] != ApiPrefix[1];
    assert topics[1..5][0] != ApiPrefix[0];
    assert topics[2..6][0] != ApiPrefix[0];
    assert topics[3..7][0] != ApiPrefix[0];
    assert IndexFrom(topics, ApiPrefix, 4) == -1;
  }

  /** A path that merely starts with `/api` is exempt like the API namespace. */
  lemma ApiDocsExempt()
    ensures !CsrfApplies("/apidocs", false)
  {
    ApiInfixExempt([], "docs", false);
    assert [] + ApiPrefix + "docs" == "/apidocs";
  }

  /** A path that ends in `/api` is exempt too. */
  lemma UserApiExempt()
    ensures !CsrfApplies("/user/api", false)
  {
    ApiInfixExempt("/user", [], false);
    assert "/user" + ApiPrefix + [] == "/user/api";
  }
}
