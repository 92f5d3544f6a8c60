/** The application-level middleware stack of app.js:104-208, in the order the
    `app.use` calls install it, for each value of the debug flag, with the
    vocabulary for saying which stage runs before which. Each stage is a tag;
    what the stages do to a request is in `Dispatch`. */
module Pipeline {

  /** One `app.use` registration. Mount paths are kept where the source gives one. */
  datatype AppStage =
    | RequestLog                    // app.js:104
    | RenderTimer                   // app.js:108, debug only
    | LessCompiler                  // app.js:113, debug only
    | StaticFiles(mount: string)    // app.js:116
    | AgentProxy(mount: string)     // app.js:117
    | ResponseTime                  // app.js:121
    | Frameguard                    // app.js:123
    | JsonBody                      // app.js:124
    | UrlEncodedBody                // app.js:125
    | MethodOverride                // app.js:127
    | CookieParser                  // app.js:129
    | Compression                   // app.js:130
    | SessionStore                  // app.js:131-141
    | PassportInit                  // app.js:144
    | AuthUser                      // app.js:156
    | BlockUser                     // app.js:157
    | CsrfGate                      // app.js:160-166, outside debug only
    | ErrorPage                     // app.js:182
    | CsrfLocals                    // app.js:184-188
    | Multipart                     // app.js:190-194
    | ApiV1Router(mount: string)    // app.js:197, behind cors()
    | WebRouter(mount: string)      // app.js:198
    | DevErrorHandler               // app.js:202, debug only
    | ServerErrorHandler            // app.js:204-207, outside debug only

  const PublicMount: string := "/public"
  const AgentMount: string := "/agent"
  const ApiV1Mount: string := "/api/v1"
  const WebMount: string := "/"

  /** Logging, the debug-only render timer and less compiler, then the static
      mount and the proxy (app.js:104-117). */
  function Front(debug: bool): seq<AppStage> {
    [RequestLog] + (if debug then [RenderTimer, LessCompiler] else [])
    + [StaticFiles(PublicMount), AgentProxy(AgentMount)]
  }

  /** Generic plumbing: timing, framing, bodies, cookies, compression, the
      session and passport (app.js:121-144). */
  const Plumbing: seq<AppStage> :=
    [ResponseTime, Frameguard, JsonBody, UrlEncodedBody, MethodOverride,
     CookieParser, Compression, SessionStore, PassportInit]

  /** Identity resolution and the ban check (app.js:156-157). */
  const Identity: seq<AppStage> := [AuthUser, BlockUser]

  /** The CSRF stage exists only outside debug mode (app.js:159-168). */
  function Guard(debug: bool): seq<AppStage> {
    if debug then [] else [CsrfGate]
  }

  /** The error-page helper, the token for the views and the multipart parser
      (app.js:182-194). */
  const Locals: seq<AppStage> := [ErrorPage, CsrfLocals, Multipart]

  /** The API router ahead of the web router (app.js:197-198). */
  const Routers: seq<AppStage> := [ApiV1Router(ApiV1Mount), WebRouter(WebMount)]

  /** The final error handler chosen by the debug flag (app.js:201-208). */
  function FinalHandler(debug: bool): AppStage {
    if debug then DevErrorHandler else ServerErrorHandler
  }

  function ErrorHandling(debug: bool): seq<AppStage> {
    [FinalHandler(debug)]
  }

  /** The whole stack, in installation order. */
  function AppPipeline(debug: bool): (p: seq<AppStage>)
    ensures |p| > 0 && p[0] == RequestLog
    ensures p[|p| - 1] == FinalHandler(debug)
    ensures CsrfGate in p <==> !debug
  {
    Front(debug) + Plumbing + Identity + Guard(debug) + Locals + Routers + ErrorHandling(debug)
  }

  /** Index of the first `x` in `p`, or `|p|` when there is none. */
  function Position<T(==)>(p: seq<T>, x: T): (k: nat)
    ensures k <= |p|
    ensures k < |p| <==> x in p
    ensures k < |p| ==> p[k] == x
    ensures forall i :: 0 <= i < k ==> p[i] != x
  {
    if |p| == 0 then 0
    else if p[0] == x then 0
    else 1 + Position(p[1..], x)
  }

  /** `a` and `b` are both installed, and the first `a` comes before the
      first `b`. */
  predicate Precedes<T(==)>(p: seq<T>, a: T, b: T) {
    a in p && b in p && Position(p, a) < Position(p, b)
  }

  /** Where each stage's `app.use` call stands in app.js, as a rank. The two
      error handlers are alternatives and share a rank. */
  function Slot(s: AppStage): (r: nat)
    ensures r == 0 <==> s == RequestLog
    ensures r <= 22
    ensures r == 22 <==> s.DevErrorHandler? || s.ServerErrorHandler?
  {
    match s
    case RequestLog => 0
    case RenderTimer => 1
    case LessCompiler => 2
    case StaticFiles(_) => 3
    case AgentProxy(_) => 4
    case ResponseTime => 5
    case Frameguard => 6
    case JsonBody => 7
    case UrlEncodedBody => 8
    case MethodOverride => 9
    case CookieParser => 10
    case Compression => 11
    case SessionStore => 12
    case PassportInit => 13
    case AuthUser => 14
    case BlockUser => 15
    case CsrfGate => 16
    case ErrorPage => 17
    case CsrfLocals => 18
    case Multipart => 19
    case ApiV1Router(_) => 20
    case WebRouter(_) => 21
    case DevErrorHandler => 22
    case ServerErrorHandler => 22
  }

  /** Stages appear in strictly increasing slot order: each is installed at
      most once, and never ahead of a stage the file installs earlier. */
  ghost predicate Increasing(p: seq<AppStage>) {
    forall i, j :: 0 <= i < j < |p| ==> Slot(p[i]) < Slot(p[j])
  }

  /** Each stage of `p` has a higher slot than the one before it. */
  predicate Chain(p: seq<AppStage>) {
    |p| < 2 || (Slot(p[0]) < Slot(p[1]) && Chain(p[1..]))
  }

  /** Two chains join into one when the first ends below where the second
      starts. */
  lemma {:induction false} ChainJoin(x: seq<AppStage>, y: seq<AppStage>)
    requires Chain(x) && Chain(y)
    requires |x| > 0 && |y| > 0 ==> Slot(x[|x| - 1]) < Slot(y[0])
    ensures Chain(x + y)
  {
    if |x| == 0 {
      assert x + y == y;
    } else if |x| == 1 {
      assert (x + y)[1..] == y;
    } else {
      assert (x + y)[1..] == x[1..] + y;
      ChainJoin(x[1..], y);
    }
  }

  /** A chain is strictly increasing: the order of neighbours carries over
      to every pair. */
  lemma {:induction false} ChainIncreasing(p: seq<AppStage>)
    requires Chain(p)
    ensures Increasing(p)
  {
    if |p| >= 2 {
      var q := p[1..];
      ChainIncreasing(q);
      forall i, j | 0 <= i < j < |p|
        ensures Slot(p[i]) < Slot(p[j])
      {
        if i == 0 {
          if j > 1 {
            assert p[1] == q[0] && p[j] == q[j - 1];
          }
        } else {
          assert p[i] == q[i - 1] && p[j] == q[j - 1];
        }
      }
    }
  }

  /** A strictly increasing stack is a chain: the converse of
      `ChainIncreasing`. */
  lemma {:induction false} IncreasingChain(p: seq<AppStage>)
    requires Increasing(p)
    ensures Chain(p)
  {
    if |p| >= 2 {
      var q := p[1..];
      forall i, j | 0 <= i < j < |q|
        ensures Slot(q[i]) < Slot(q[j])
      {
        assert q[i] == p[i + 1] && q[j] == p[j + 1];
      }
      IncreasingChain(q);
    }
  }

  /** Each segment of the stack is strictly increasing on its own. */
  lemma SegmentsIncreasing(debug: bool)
    ensures Increasing(Front(debug)) && Increasing(Plumbing) && Increasing(Identity)
    ensures Increasing(Guard(debug)) && Increasing(Locals) && Increasing(Routers)
    ensures Increasing(ErrorHandling(debug))
  {
  }

  /** Each segment of the stack is a chain on its own. */
  lemma SegmentsChain(debug: bool)
    ensures Chain(Front(debug)) && Chain(Plumbing) && Chain(Identity)
    ensures Chain(Guard(debug)) && Chain(Locals) && Chain(Routers) && Chain(ErrorHandling(debug))
  {
    SegmentsIncreasing(debug);
    IncreasingChain(Front(debug));
    IncreasingChain(Plumbing);
    IncreasingChain(Identity);
    IncreasingChain(Guard(debug));
    IncreasingChain(Locals);
    IncreasingChain(Routers);
    IncreasingChain(ErrorHandling(debug));
  }

  /** The stages up to the ban check form a chain that ends with `blockUser`. */
  lemma HeadChain(debug: bool)
    ensures var h := Front(debug) + Plumbing + Identity;
      Chain(h) && |h| > 0 && h[|h| - 1] == BlockUser
  {
    SegmentsChain(debug);
    ChainJoin(Front(debug), Plumbing);
    ChainJoin(Front(debug) + Plumbing, Identity);
  }

  /** The stages from the CSRF stage on form a chain that starts above
      `blockUser`. */
  lemma TailChain(debug: bool)
    ensures var t := Guard(debug) + Locals + Routers + ErrorHandling(debug);
      Chain(t) && |t| > 0 && Slot(t[0]) > Slot(BlockUser)
  {
    SegmentsChain(debug);
    ChainJoin(Guard(debug), Locals);
    ChainJoin(Guard(debug) + Locals, Routers);
    ChainJoin(Guard(debug) + Locals + Routers, ErrorHandling(debug));
  }

  /** The installed stack is a chain in slot order. */
  lemma PipelineChain(debug: bool)
    ensures Chain(AppPipeline(debug))
  {
    var h := Front(debug) + Plumbing + Identity;
    var t := Guard(debug) + Locals + Routers + ErrorHandling(debug);
    HeadChain(debug);
    TailChain(debug);
    ChainJoin(h, t);
    assert AppPipeline(debug) == h + t;
  }

  /** The installed stack is strictly increasing in slot order. */
  lemma PipelineIncreasing(debug: bool)
    ensures Increasing(AppPipeline(debug))
  {
    PipelineChain(debug);
    ChainIncreasing(AppPipeline(debug));
  }

  /** In a strictly increasing stack, installation order and slot order agree,
      in both directions. */
  lemma PrecedesBySlot(p: seq<AppStage>, a: AppStage, b: AppStage)
    requires Increasing(p) && a in p && b in p
    ensures Precedes(p, a, b) <==> Slot(a) < Slot(b)
  {
    var i, j := Position(p, a), Position(p, b);
    assert p[i] == a && p[j] == b;
  }

  /** Of two installed stages, one runs before the other exactly when the
      file installs it earlier. */
  lemma InstalledInFileOrder(debug: bool, a: AppStage, b: AppStage)
    requires a in AppPipeline(debug) && b in AppPipeline(debug)
    ensures Precedes(AppPipeline(debug), a, b) <==> Slot(a) < Slot(b)
  {
    PipelineIncreasing(debug);
    PrecedesBySlot(AppPipeline(debug), a, b);
  }

  /** No stage is installed twice. */
  lemma NoStageTwice(debug: bool)
    ensures var p := AppPipeline(debug);
      forall i, j :: 0 <= i < j < |p| ==> p[i] != p[j]
  {
    PipelineIncreasing(debug);
  }

  /** The mounts and parsers installed ahead of identity resolution. */
  lemma EarlyStagesInstalled(debug: bool)
    ensures var p := AppPipeline(debug);
      && StaticFiles(PublicMount) in p && AgentProxy(AgentMount) in p
      && JsonBody in p && UrlEncodedBody in p && CookieParser in p && SessionStore in p
  {
    var x := Front(debug) + Plumbing;
    assert StaticFiles(PublicMount) in Front(debug) && AgentProxy(AgentMount) in Front(debug);
    assert StaticFiles(PublicMount) in x && AgentProxy(AgentMount) in x;
    assert JsonBody in x && UrlEncodedBody in x && CookieParser in x && SessionStore in x;
  }

  /** The identity stages, the locals stage, both routers and the error handler. */
  lemma LateStagesInstalled(debug: bool)
    ensures var p := AppPipeline(debug);
      && AuthUser in p && BlockUser in p && CsrfLocals in p
      && ApiV1Router(ApiV1Mount) in p && WebRouter(WebMount) in p && FinalHandler(debug) in p
  {
    var x := Front(debug) + Plumbing + Identity;
    assert AuthUser in x && BlockUser in x;
    x := x + Guard(debug) + Locals;
    assert AuthUser in x && BlockUser in x && CsrfLocals in x;
  }

  /** The `/public` static mount and the `/agent` proxy, the body and cookie
      parsers and the session are all installed ahead of `authUser`, so they
      run before the caller is identified (app.js:116-156). */
  lemma PlumbingBeforeIdentity(debug: bool)
    ensures var p := AppPipeline(debug);
      && Precedes(p, StaticFiles(PublicMount), AuthUser)
      && Precedes(p, AgentProxy(AgentMount), AuthUser)
      && Precedes(p, JsonBody, AuthUser)
      && Precedes(p, UrlEncodedBody, AuthUser)
      && Precedes(p, CookieParser, AuthUser)
      && Precedes(p, SessionStore, AuthUser)
  {
    EarlyStagesInstalled(debug);
    LateStagesInstalled(debug);
    InstalledInFileOrder(debug, StaticFiles(PublicMount), AuthUser);
    InstalledInFileOrder(debug, AgentProxy(AgentMount), AuthUser);
    InstalledInFileOrder(debug, JsonBody, AuthUser);
    InstalledInFileOrder(debug, UrlEncodedBody, AuthUser);
    InstalledInFileOrder(debug, CookieParser, AuthUser);
    InstalledInFileOrder(debug, SessionStore, AuthUser);
  }

  /** `authUser` precedes `blockUser`, and both precede the CSRF stage (when
      installed), the locals stage and both routers (app.js:156-198). */
  lemma IdentityBeforeGuards(debug: bool)
    ensures var p := AppPipeline(debug);
      && Precedes(p, AuthUser, BlockUser)
      && Precedes(p, BlockUser, CsrfLocals)
      && Precedes(p, BlockUser, ApiV1Router(ApiV1Mount))
      && Precedes(p, BlockUser, WebRouter(WebMount))
      && (!debug ==> Precedes(p, AuthUser, CsrfGate) && Precedes(p, BlockUser, CsrfGate))
  {
    LateStagesInstalled(debug);
    InstalledInFileOrder(debug, AuthUser, BlockUser);
    InstalledInFileOrder(debug, BlockUser, CsrfLocals);
    InstalledInFileOrder(debug, BlockUser, ApiV1Router(ApiV1Mount));
    InstalledInFileOrder(debug, BlockUser, WebRouter(WebMount));
    if !debug {
      InstalledInFileOrder(debug, AuthUser, CsrfGate);
      InstalledInFileOrder(debug, BlockUser, CsrfGate);
    }
  }

  /** Outside debug mode the CSRF stage precedes the locals stage and both
      routers; in every mode the locals stage precedes both routers
      (app.js:159-198). */
  lemma CsrfStagesBeforeRouters(debug: bool)
    ensures var p := AppPipeline(debug);
      && Precedes(p, CsrfLocals, ApiV1Router(ApiV1Mount))
      && Precedes(p, CsrfLocals, WebRouter(WebMount))
      && (!debug ==>
            && Precedes(p, CsrfGate, CsrfLocals)
            && Precedes(p, CsrfGate, ApiV1Router(ApiV1Mount))
            && Precedes(p, CsrfGate, WebRouter(WebMount)))
  {
    LateStagesInstalled(debug);
    InstalledInFileOrder(debug, CsrfLocals, ApiV1Router(ApiV1Mount));
    InstalledInFileOrder(debug, CsrfLocals, WebRouter(WebMount));
    if !debug {
      InstalledInFileOrder(debug, CsrfGate, CsrfLocals);
      InstalledInFileOrder(debug, CsrfGate, ApiV1Router(ApiV1Mount));
      InstalledInFileOrder(debug, CsrfGate, WebRouter(WebMount));
    }
  }

  /** The `/api/v1` router is mounted ahead of the `/` web router, and the
      error handler after both (app.js:197-208). */
  lemma RoutersInOrder(debug: bool)
    ensures var p := AppPipeline(debug);
      && Precedes(p, ApiV1Router(ApiV1Mount), WebRouter(WebMount))
      && Precedes(p, WebRouter(WebMount), FinalHandler(debug))
  {
    LateStagesInstalled(debug);
    InstalledInFileOrder(debug, ApiV1Router(ApiV1Mount), WebRouter(WebMount));
    InstalledInFileOrder(debug, WebRouter(WebMount), FinalHandler(debug));
  }
}
