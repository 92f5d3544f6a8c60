# nodeclub request pipeline, modelled in Dafny

nodeclub is a forum server built on Express. This project models the part of
`app.js` that decides how a request crosses the application stack. It also
models the route table of the `/api/v1` router.

- **Text** — JavaScript's `String.prototype.indexOf`, with a proof that it
  agrees with a declarative substring predicate `Contains`.
- **Csrf** — the CSRF path rule. The check runs for the path `/api` itself
  and for every path in which `/api` does not occur. The stage is installed
  only outside debug mode. The module also holds the CSRF stage (`Gate`) and
  the stage that hands `res.locals.csrf` to the views (`ExposeToken`).
  csurf is seen from outside as a verdict plus a token.
- **Pipeline** — the stack of `app.use` calls for each value of the debug
  flag. `Position` and `Precedes` are its ordering vocabulary. `Slot` ranks
  each stage by where the file installs it. The stack built from its
  segments is proved to follow that rank stage by stage (`Chain`). Both
  ordering lemmas follow from that: every pair is in file order, and
  `Precedes` agrees with file order.
- **Dispatch** — Express's hand-off along the stack. A request is running,
  in error mode, or answered. Only the CSRF stage, the locals stage and the
  final error handler act; every other stage is an opaque tag that passes
  the request on.
- **ApiRoutes** — the thirteen routes of `api_router_v1.js`, each with its
  method, path pattern and callback chain. Proved properties:
  - every chain ends in its controller;
  - every POST route authenticates first;
  - limiters appear only behind `Auth`, and only on the two create routes;
  - every request whose path is spelled `/api/v1` followed by a route's
    path skips the CSRF check.

## Model

| member | source | states |
|---|---|---|
| Text.IndexOf | app.js:161 | `indexOf` returns -1 exactly when the pattern is not a substring. Otherwise it returns an index where the pattern occurs, with no occurrence before it. |
| Text.IndexFrom | app.js:161 | A search from position `from` returns the first occurrence at or after `from`, or -1 when there is none from there on. |
| Text.ContainsInfix | app.js:161 | A pattern is a substring of any string that has it in the middle. |
| Csrf.Guarded | app.js:161 | The path test holds iff the path is `/api` or `/api` occurs nowhere in it. |
| Csrf.CsrfApplies | app.js:159-162 | The CSRF check runs iff the server is not in debug mode and the path is `/api` or does not contain `/api`. |
| Csrf.Gate | app.js:160-166 | The stage raises an error iff the check applies and csurf rejects. If it passes a checked request, it attaches csurf's token. An unchecked request passes exactly as it came. |
| Csrf.ExposeToken | app.js:184-188 | The view's `csrf` is the token csurf attached, or `""` when none was attached. The path and the token are left unchanged. |
| Csrf.ExemptPathPassesUntouched | app.js:161-165 | Any path other than `/api` that contains `/api` passes the stage unchanged, whatever csurf would say. |
| Csrf.DebugNeverChecks | app.js:159 | In debug mode no path is checked. |
| Csrf.ApiRootChecked | app.js:161-162 | `/api` itself is checked outside debug mode. |
| Csrf.ApiInfixExempt | app.js:161-165 | A path with `/api` inside it and something around it is exempt in every mode. |
| Csrf.ApiNamespaceExempt | app.js:161-165 | Every path longer than `/api` that starts with `/api` is exempt. |
| Csrf.TopicsPageChecked | app.js:161-162 | An ordinary page path such as `/topics` is checked outside debug mode. |
| Csrf.ApiDocsExempt | app.js:161-165 | `/apidocs` is exempt, although it is outside the API namespace. |
| Csrf.UserApiExempt | app.js:161-165 | `/user/api` is exempt, although it is outside the API namespace. |
| Pipeline.AppPipeline | app.js:104-208 | The stack starts with the request logger and ends with the error handler the debug flag picks. It contains the CSRF stage iff not in debug mode. |
| Pipeline.Slot | app.js:104-208 | Ranks each `app.use` call by its place in the file. The request logger comes first. The two error handlers share the last rank, because only one of them is installed. |
| Pipeline.Position | app.js:104-208 | The index of the first installation of a stage. It is below the stack's length iff the stage is installed. |
| Pipeline.PipelineChain | app.js:104-208 | Each installed stage stands after the stage installed just before it in the file. |
| Pipeline.ChainIncreasing | app.js:104-208 | A stack whose neighbouring stages follow file order is in file order for every pair. |
| Pipeline.IncreasingChain | app.js:104-208 | Conversely, a stack in file order for every pair is in file order for each neighbouring pair. |
| Pipeline.PipelineIncreasing | app.js:104-208 | Every stage stands after all the stages the file installs before it. |
| Pipeline.PrecedesBySlot | app.js:104-208 | In such a stack, one installed stage precedes another iff the file installs it earlier. |
| Pipeline.InstalledInFileOrder | app.js:104-208 | Of two installed stages, one runs before the other iff the file installs it earlier, in either mode. |
| Pipeline.NoStageTwice | app.js:104-208 | No stage is installed twice, in either mode. |
| Pipeline.PlumbingBeforeIdentity | app.js:116-156 | The static mount, the proxy, both body parsers, the cookie parser and the session all run before `authUser`. |
| Pipeline.IdentityBeforeGuards | app.js:156-198 | `authUser` runs before `blockUser`. Both run before the CSRF stage when it is installed. `blockUser` runs before the locals stage and both routers. |
| Pipeline.CsrfStagesBeforeRouters | app.js:159-198 | Outside debug mode, the CSRF stage runs before the locals stage and both routers. In both modes, the locals stage runs before both routers. |
| Pipeline.RoutersInOrder | app.js:197-208 | The `/api/v1` router comes before the `/` router, and the error handler comes after both. |
| Dispatch.Step | app.js:159-207 | Opaque stages leave the state alone and an answered request stays answered. An error passes every stage except an error handler, which answers it. A running request passes the error handlers. |
| Dispatch.Walk | app.js:104-208 | The stack is applied stage by stage. An answered request stays answered. A request in error mode never resumes normal processing: it stays in error mode with its error or gets answered. |
| Dispatch.WalkConcat | app.js:104-208 | Running two stacks in sequence is the same as running their concatenation. |
| Dispatch.CsrfOutcome | app.js:159-207 | Outside debug mode, a request on a checked path that csurf rejects ends with status 500. Every other request reaches the routers with its path intact. The view's `csrf` is csurf's token when the check ran and `""` when it did not. |
| Dispatch.StageErrorIs500 | app.js:204-207 | Outside debug mode, an error raised by any other stage or controller, at any position, ends with status 500. |
| Dispatch.DebugNeverRejects | app.js:159-168 | In debug mode every request reaches the routers. |
| Dispatch.ErrorReachesFinalHandler | app.js:201-208 | An error raised at any point of the stack is answered by the final handler. That is the development error page in debug mode, and status 500 with body `500 status` otherwise, whatever the error. |
| ApiRoutes.Routes | api_router_v1.js:20-45 | The thirteen routes in declaration order, from `GET /topics` to `POST /message/mark_all`, each with its method, path pattern and callback chain. |
| ApiRoutes.TableWellGuarded | api_router_v1.js:20-45 | Every route ends in one controller. A POST route starts with `Auth`. A limiter appears only on a POST route, with one of the two configured allowances. |
| ApiRoutes.ChainsEndInHandler | api_router_v1.js:20-45 | Every chain's last callback is its controller action, and it has no other. |
| ApiRoutes.PostRoutesAuthFirst | api_router_v1.js:22-45 | Every POST route runs `middleware.auth` first. |
| ApiRoutes.LimitsOnlyOnPost | api_router_v1.js:22-39 | A limiter appears only on POST routes. Its action and allowance are `create_topic`/`create_post_per_day` or `create_reply`/`create_reply_per_day`. |
| ApiRoutes.CreateRoutesLimited | api_router_v1.js:22-39 | Creating a topic and creating a reply each go through `Auth`, then the per-day limiter, then the controller. |
| ApiRoutes.LimitsOnlyOnCreateRoutes | api_router_v1.js:20-45 | Every route that carries a limiter is `/topics` or `/topic/:topic_id/replies`. |
| ApiRoutes.AuthFirstGuardsLimits | api_router_v1.js:22-39 | A chain that starts with `Auth` has `Auth` ahead of each of its limiters. |
| ApiRoutes.AuthBeforeLimit | api_router_v1.js:22-39 | On every route, `Auth` runs strictly before any limiter. |
| ApiRoutes.TopicShowOptionalAuth | api_router_v1.js:21 | `GET /topic/:id` exists. It runs `tryAuth` and never demands `Auth`. |
| ApiRoutes.PublicReads | api_router_v1.js:20-31 | `GET /topics`, `GET /topic_collect/:loginname` and `GET /user/:loginname` exist, each with only its controller. No route with one of those paths has an authentication callback. |
| ApiRoutes.MessagesRequireAuth | api_router_v1.js:43-45 | `GET /messages`, `GET /message/count` and `POST /message/mark_all` exist, each as `Auth` then its controller. Every route with one of those paths demands `Auth`. |
| ApiRoutes.RoutesDistinct | api_router_v1.js:20-45 | No method and path pattern is declared twice. |
| ApiRoutes.MountedPathExempt | app.js:161-197 | Any path spelled `/api/v1` followed by anything is exempt from the CSRF check. |
| ApiRoutes.ApiRoutesSkipCsrf | app.js:161-197 | In either mode, a request whose path is spelled `/api/v1` followed by a route's path is not CSRF-checked, POST routes included. |
| ApiRoutes.CaseVariantChecked | app.js:161-197 | `/API/v1/topics` is CSRF-checked outside debug mode, although Express routes it to the API router. |

Two points of the code are easy to misread:

- The CSRF exemption is a substring test, not a prefix test. `app.js:161`
  looks for `/api` anywhere in the path, so `/apidocs` and `/user/api` are
  exempt too. `ApiDocsExempt` and `UserApiExempt` record this.
- csurf's error carries status 403, but outside debug mode the only error
  handler installed answers 500 for every error (`app.js:204-207`).
  `CsrfOutcome` and `StageErrorIs500` state this.

## Left out

- The internals of `auth.authUser`, `auth.blockUser`, `middleware.auth`,
  `middleware.tryAuth` and `limit.peruserperday`. They are outside these two
  files, so they are opaque stages or route tags. Identity resolution, ban
  checks, the per-user daily quota and its store are not modelled.
- The internals of csurf: its HTTP-method exemption, secret storage, token
  generation and token comparison. A request's csurf outcome is the `Csurf`
  parameter: a token and a pass/fail verdict.
- Effects of the opaque stages: the request logger, render timer, less
  compiler, static files, proxy, response-time, helmet, method-override, the body, cookie and
  multipart parsers, compression, the Redis-backed session, passport and the
  GitHub strategy, the error-page helper and `cors()`. They are library code
  or I/O. Dispatch passes the request through them unchanged, so none of
  them is modelled as failing or answering.
- Express's mount-path and route-pattern matching, and each router's
  dispatch to its controllers. This is library behaviour. Route paths are
  kept as the strings the source writes.
- `app.set('view cache', true)`, `app.locals` extensions, view engine
  set-up, `app.listen`, logging and the APM agent. These are configuration
  and I/O, with no effect on the order or outcome modelled here.
- The content and status of the `errorhandler` development page.
  `DevErrorPage` records only which error it renders.
- Dispatch.Step: no opaque stage or controller raises an error during the
  walk, since their behaviour is outside these files. An error they raise
  is a `StageError`. `ErrorReachesFinalHandler` and `StageErrorIs500` cover
  it by starting the walk in error mode at any position of the stack.
- ApiRoutes.ApiRoutesSkipCsrf: covers only paths spelled with the
  lower-case mount `/api/v1`. Express matches the mount at app.js:197
  without regard to case, because case-sensitive routing is never enabled.
  So `/API/v1/...` reaches the API router but is CSRF-checked, as
  `CaseVariantChecked` shows. Express's case folding is not modelled.
- ApiRoutes.MountedPathExempt: the same restriction to the lower-case
  spelling of the mount, for the same reason.
- Text.IndexOf: counts positions in Unicode scalar values, while JavaScript
  counts UTF-16 code units. The two differ after a character outside the
  Basic Multilingual Plane. app.js:161 only compares the result with -1,
  and that outcome is the same under both counts.
