/** How a request travels along the application stack of app.js:104-208, as
    far as the CSRF stage, the locals stage and the error handlers decide it.

    Express hands the request to each installed middleware in turn. A
    middleware that calls `next(err)` switches the request into error mode:
    from then on only error handlers (four-argument middleware) run, and the
    first one answers. The stages this model treats as opaque tags pass the
    request on unchanged. */
module Dispatch {
  import opened Csrf
  import opened Pipeline

  /** An error passed to `next(err)`: csurf's rejection, or an error raised
      by any other stage or controller, named by where it came from. */
  datatype Failure = BadCsrfToken | StageError(origin: string)

  /** The answer an error handler sends. */
  datatype Response =
    | ServerError(status: int, body: string)  // app.js:204-207
    | DevErrorPage(err: Failure)              // the `errorhandler` page, app.js:202

  /** Where a request is after some prefix of the stack. */
  datatype Flow = Continue(ctx: Ctx) | Raise(err: Failure) | Responded(res: Response)

  /** The answer of the production error handler (app.js:204-207), whatever
      the error. */
  const Status500: Response := ServerError(500, "500 status")

  /** The stages whose effect on a request is modelled. */
  predicate Interpreted(s: AppStage) {
    s.CsrfGate? || s.CsrfLocals? || s.DevErrorHandler? || s.ServerErrorHandler?
  }

  /** One stage applied to the request's current state. */
  function Step(s: AppStage, f: Flow, csurf: Csurf): (r: Flow)
    ensures !Interpreted(s) ==> r == f
    ensures f.Responded? ==> r == f
    ensures f.Raise? && s == ServerErrorHandler ==> r == Responded(Status500)
    ensures f.Raise? && s == DevErrorHandler ==> r == Responded(DevErrorPage(f.err))
    ensures f.Raise? && !s.DevErrorHandler? && !s.ServerErrorHandler? ==> r == f
    ensures f.Continue? && (s.DevErrorHandler? || s.ServerErrorHandler?) ==> r == f
  {
    match f
    case Responded(_) => f
    case Raise(e) =>
      if s == ServerErrorHandler then Responded(Status500)
      else if s == DevErrorHandler then Responded(DevErrorPage(e))
      else f
    case Continue(c) =>
      if s == CsrfGate then
        match Gate(c, csurf)
        case Next(c') => Continue(c')
        case CsrfError => Raise(BadCsrfToken)
      else if s == CsrfLocals then Continue(ExposeToken(c))
      else f
  }

  /** The stages of `p` applied in order. An answered request stays
      answered, and a request in error mode never resumes normal processing:
      it ends either still in error mode with the same error or answered. */
  function Walk(p: seq<AppStage>, f: Flow, csurf: Csurf): (r: Flow)
    ensures f.Responded? ==> r == f
    ensures f.Raise? ==> r == f || r.Responded?
    decreases |p|
  {
    if |p| == 0 then f else Walk(p[1..], Step(p[0], f, csurf), csurf)
  }

  /** Walking two stacks one after the other is walking their concatenation. */
  lemma {:induction false} WalkConcat(x: seq<AppStage>, y: seq<AppStage>, f: Flow, csurf: Csurf)
    ensures Walk(x + y, f, csurf) == Walk(y, Walk(x, f, csurf), csurf)
  {
    if |x| == 0 {
      assert x + y == y;
    } else {
      assert (x + y)[0] == x[0] && (x + y)[1..] == x[1..] + y;
      WalkConcat(x[1..], y, Step(x[0], f, csurf), csurf);
    }
  }

  /** A stack of opaque stages leaves the request as it found it. */
  lemma {:induction false} WalkOpaque(p: seq<AppStage>, f: Flow, csurf: Csurf)
    requires forall i :: 0 <= i < |p| ==> !Interpreted(p[i])
    ensures Walk(p, f, csurf) == f
  {
    if |p| > 0 {
      WalkOpaque(p[1..], f, csurf);
    }
  }

  /** An error passes every stage that is not an error handler. */
  lemma {:induction false} WalkRaise(p: seq<AppStage>, e: Failure, csurf: Csurf)
    requires DevErrorHandler !in p && ServerErrorHandler !in p
    ensures Walk(p, Raise(e), csurf) == Raise(e)
  {
    if |p| > 0 {
      assert p[0] in p;
      assert forall s :: s in p[1..] ==> s in p;
      WalkRaise(p[1..], e, csurf);
    }
  }

  /** Everything installed ahead of the CSRF stage is opaque here. */
  lemma UpToIdentityOpaque(debug: bool, f: Flow, csurf: Csurf)
    ensures Walk(Front(debug) + Plumbing + Identity, f, csurf) == f
  {
    assert forall i :: 0 <= i < |Front(debug)| ==> !Interpreted(Front(debug)[i]);
    assert forall i :: 0 <= i < |Plumbing| ==> !Interpreted(Plumbing[i]);
    assert forall i :: 0 <= i < |Identity| ==> !Interpreted(Identity[i]);
    WalkConcat(Front(debug), Plumbing, f, csurf);
    WalkConcat(Front(debug) + Plumbing, Identity, f, csurf);
    WalkOpaque(Front(debug), f, csurf);
    WalkOpaque(Plumbing, f, csurf);
    WalkOpaque(Identity, f, csurf);
  }

  /** The error page helper, the locals stage and the multipart parser: only
      the locals stage acts, and only on a request that is still running. */
  lemma WalkLocals(f: Flow, csurf: Csurf)
    ensures f.Continue? ==> Walk(Locals, f, csurf) == Continue(ExposeToken(f.ctx))
    ensures !f.Continue? ==> Walk(Locals, f, csurf) == f
  {
    var f1 := Step(ErrorPage, f, csurf);
    var f2 := Step(CsrfLocals, f1, csurf);
    assert Locals[1..] == [CsrfLocals, Multipart] && Locals[1..][1..] == [Multipart];
    assert Walk(Locals, f, csurf) == Walk([Multipart], f2, csurf);
  }

  /** Both routers pass the state through here. */
  lemma WalkRouters(f: Flow, csurf: Csurf)
    ensures Walk(Routers, f, csurf) == f
  {
    WalkOpaque(Routers, f, csurf);
  }

  /** Where the whole stack leaves a request for `path`, given csurf's
      verdict. Outside debug mode a guarded path that csurf rejects ends in
      the 500 answer of app.js:204-207; every other request reaches the
      routers, and the view's `csrf` value is csurf's token exactly when the
      CSRF check ran, the empty string otherwise (app.js:159-188). */
  lemma CsrfOutcome(debug: bool, path: string, csurf: Csurf)
    ensures var f := Walk(AppPipeline(debug), Continue(Entry(path)), csurf);
      if CsrfApplies(path, debug) && !csurf.passes then
        f == Responded(Status500)
      else
        && f.Continue?
        && f.ctx.path == path
        && f.ctx.viewCsrf == Shown(if CsrfApplies(path, debug) then csurf.token else "")
  {
    var f0 := Continue(Entry(path));
    var a := Front(debug) + Plumbing + Identity;
    WalkConcat(a, Guard(debug), f0, csurf);
    WalkConcat(a + Guard(debug), Locals, f0, csurf);
    WalkConcat(a + Guard(debug) + Locals, Routers, f0, csurf);
    WalkConcat(a + Guard(debug) + Locals + Routers, ErrorHandling(debug), f0, csurf);
    UpToIdentityOpaque(debug, f0, csurf);
    var f1 := Walk(Guard(debug), f0, csurf);
    if debug {
      assert f1 == f0;
    } else {
      assert f1 == Step(CsrfGate, f0, csurf);
    }
    WalkLocals(f1, csurf);
    var f2 := Walk(Locals, f1, csurf);
    WalkRouters(f2, csurf);
    assert Walk(ErrorHandling(debug), f2, csurf) == Step(FinalHandler(debug), f2, csurf);
  }

  /** An error from any other stage, say a controller that cannot reach the
      database, gets the same 500 answer as a CSRF rejection outside debug
      mode. */
  lemma StageErrorIs500(k: nat, origin: string, csurf: Csurf)
    requires k < |AppPipeline(false)|
    ensures Walk(AppPipeline(false)[k..], Raise(StageError(origin)), csurf) == Responded(Status500)
  {
    ErrorReachesFinalHandler(false, k, StageError(origin), csurf);
  }

  /** In debug mode no request is ever turned away by the CSRF stage. */
  lemma DebugNeverRejects(path: string, csurf: Csurf)
    ensures Walk(AppPipeline(true), Continue(Entry(path)), csurf).Continue?
  {
    CsrfOutcome(true, path, csurf);
  }

  /** The stack is its body followed by the final error handler, and the body
      holds no error handler. */
  lemma BodyThenHandler(debug: bool)
    ensures var body := Front(debug) + Plumbing + Identity + Guard(debug) + Locals + Routers;
      && AppPipeline(debug) == body + [FinalHandler(debug)]
      && ServerErrorHandler !in body && DevErrorHandler !in body
  {
    var head := Front(debug) + Plumbing + Identity;
    assert ServerErrorHandler !in Front(debug) && DevErrorHandler !in Front(debug);
    assert ServerErrorHandler !in head && DevErrorHandler !in head;
  }

  /** An error raised anywhere ahead of the error handler ends at the handler
      the debug flag chose: the development error page in debug mode, and
      status 500 with body `500 status` otherwise, whatever the error
      (app.js:201-208). */
  lemma ErrorReachesFinalHandler(debug: bool, k: nat, e: Failure, csurf: Csurf)
    requires k < |AppPipeline(debug)|
    ensures Walk(AppPipeline(debug)[k..], Raise(e), csurf)
            == Responded(if debug then DevErrorPage(e) else Status500)
  {
    var p := AppPipeline(debug);
    var body := Front(debug) + Plumbing + Identity + Guard(debug) + Locals + Routers;
    BodyThenHandler(debug);
    if k < |body| {
      var rest := body[k..];
      assert p[k..] == rest + [FinalHandler(debug)];
      assert forall s :: s in rest ==> s in body;
      WalkConcat(rest, [FinalHandler(debug)], Raise(e), csurf);
      WalkRaise(rest, e, csurf);
    } else {
      assert p[k..] == [FinalHandler(debug)];
    }
  }
}
