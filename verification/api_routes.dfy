/** The route table of the `/api/v1` router (api_router_v1.js:20-45): for each
    route its HTTP method, its path pattern and the ordered chain of callbacks
    Express runs for it.

    `middleware.auth`, `middleware.tryAuth`, `limit.peruserperday` and the
    controllers are opaque tags here; the limiter is recorded with the action
    name and the configuration key of its daily allowance. Path patterns are
    kept as the strings the source writes (`:id` is not interpreted). */
module ApiRoutes {
  import opened Text
  import opened Csrf

  datatype Method = Get | Post

  /** One callback of a route chain. */
  datatype RouteStage =
    | Auth                                     // middleware.auth
    | TryAuth                                  // middleware.tryAuth
    | Limit(action: string, allowance: string) // limit.peruserperday(action, config[allowance])
    | Handler(name: string)                    // the controller action

  datatype Route = Route(verb: Method, path: string, chain: seq<RouteStage>)

  /** Where app.js:197 mounts this router. */
  const Mount: string := "/api/v1"

  /** Topics (api_router_v1.js:20-22). */
  const TopicRoutes: seq<Route> :=
    [ Route(Get,  "/topics",    [Handler("topic.index")]),
      Route(Get,  "/topic/:id", [TryAuth, Handler("topic.show")]),
      Route(Post, "/topics",    [Auth, Limit("create_topic", "create_post_per_day"), Handler("topic.create")]) ]

  /** Topic collections (api_router_v1.js:26-28). */
  const CollectRoutes: seq<Route> :=
    [ Route(Post, "/topic_collect/collect",    [Auth, Handler("topic_collect.collect")]),
      Route(Post, "/topic_collect/de_collect", [Auth, Handler("topic_collect.de_collect")]),
      Route(Get,  "/topic_collect/:loginname", [Handler("topic_collect.list")]) ]

  /** Users (api_router_v1.js:31). */
  const UserRoutes: seq<Route> :=
    [ Route(Get, "/user/:loginname", [Handler("user.show")]) ]

  /** Access-token check (api_router_v1.js:36). */
  const ToolRoutes: seq<Route> :=
    [ Route(Post, "/accesstoken", [Auth, Handler("tools.accesstoken")]) ]

  /** Replies (api_router_v1.js:39-40). */
  const ReplyRoutes: seq<Route> :=
    [ Route(Post, "/topic/:topic_id/replies", [Auth, Limit("create_reply", "create_reply_per_day"), Handler("reply.create")]),
      Route(Post, "/reply/:reply_id/ups",     [Auth, Handler("reply.ups")]) ]

  /** Messages (api_router_v1.js:43-45). */
  const MessageRoutes: seq<Route> :=
    [ Route(Get,  "/messages",          [Auth, Handler("message.index")]),
      Route(Get,  "/message/count",     [Auth, Handler("message.count")]),
      Route(Post, "/message/mark_all",  [Auth, Handler("message.markAll")]) ]

  /** The whole table, in declaration order. */
  function Routes(): (r: seq<Route>)
    ensures |r| == 13
    ensures r[0] == Route(Get, "/topics", [Handler("topic.index")])
    ensures r[12] == Route(Post, "/message/mark_all", [Auth, Handler("message.markAll")])
  {
    TopicRoutes + CollectRoutes + UserRoutes + ToolRoutes + ReplyRoutes + MessageRoutes
  }

  /** How many controller actions the chain holds. */
  function Handlers(chain: seq<RouteStage>): nat {
    if |chain| == 0 then 0
    else (if chain[0].Handler? then 1 else 0) + Handlers(chain[1..])
  }

  /** The controller action is the last callback and the only one. */
  predicate HandlerLastOnce(chain: seq<RouteStage>) {
    |chain| > 0 && chain[|chain| - 1].Handler? && Handlers(chain) == 1
  }

  /** Every limiter in the chain has `Auth` somewhere before it. */
  predicate AuthGuardsLimits(chain: seq<RouteStage>) {
    forall i :: 0 <= i < |chain| && chain[i].Limit? ==> Auth in chain[..i]
  }

  /** The chain mentions no authentication callback. */
  predicate Unauthenticated(chain: seq<RouteStage>) {
    Auth !in chain && TryAuth !in chain
  }

  /** The limiter's action and its daily allowance are the two pairs the
      source uses. */
  predicate KnownAllowance(s: RouteStage)
    requires s.Limit?
  {
    || (s.action == "create_topic" && s.allowance == "create_post_per_day")
    || (s.action == "create_reply" && s.allowance == "create_reply_per_day")
  }

  /** A chain that starts with `Auth` guards every limiter in it. */
  lemma AuthFirstGuardsLimits(chain: seq<RouteStage>)
    requires |chain| > 0 && chain[0] == Auth
    ensures AuthGuardsLimits(chain)
  {
    forall i | 0 <= i < |chain| && chain[i].Limit?
      ensures Auth in chain[..i]
    {
      assert chain[..i][0] == Auth;
    }
  }

  /** What the table promises of each of its routes: the controller action
      comes last and once, a POST route starts with `Auth`, and a limiter
      appears only on a POST route and only with a known allowance. */
  predicate WellGuarded(r: Route) {
    && HandlerLastOnce(r.chain)
    && (r.verb == Post ==> |r.chain| > 0 && r.chain[0] == Auth)
    && (forall i :: 0 <= i < |r.chain| && r.chain[i].Limit? ==> r.verb == Post && KnownAllowance(r.chain[i]))
  }

  lemma TopicRoutesWellGuarded()
    ensures forall r :: r in TopicRoutes ==> WellGuarded(r)
  {
  }

  lemma CollectRoutesWellGuarded()
    ensures forall r :: r in CollectRoutes ==> WellGuarded(r)
  {
  }

  lemma UserAndToolRoutesWellGuarded()
    ensures forall r :: r in UserRoutes + ToolRoutes ==> WellGuarded(r)
  {
  }

  lemma ReplyRoutesWellGuarded()
    ensures forall r :: r in ReplyRoutes ==> WellGuarded(r)
  {
  }

  lemma MessageRoutesWellGuarded()
    ensures forall r :: r in MessageRoutes ==> WellGuarded(r)
  {
  }

  /** Every route of the table is well guarded (api_router_v1.js:20-45). */
  lemma TableWellGuarded()
    ensures forall r :: r in Routes() ==> WellGuarded(r)
  {
    TopicRoutesWellGuarded();
    CollectRoutesWellGuarded();
    UserAndToolRoutesWellGuarded();
    ReplyRoutesWellGuarded();
    MessageRoutesWellGuarded();
  }

  /** Every chain ends in its controller action, which appears exactly once
      (api_router_v1.js:20-45). */
  lemma ChainsEndInHandler()
    ensures forall r :: r in Routes() ==> HandlerLastOnce(r.chain)
  {
    TableWellGuarded();
  }

  /** Every POST route runs `Auth` first (api_router_v1.js:22,26,27,36,39,40,45). */
  lemma PostRoutesAuthFirst()
    ensures forall r :: r in Routes() && r.verb == Post ==> |r.chain| > 0 && r.chain[0] == Auth
  {
    TableWellGuarded();
  }

  /** Limiters appear only on POST routes, and each pairs `create_topic` with
      `create_post_per_day` or `create_reply` with `create_reply_per_day`
      (api_router_v1.js:22,39). */
  lemma LimitsOnlyOnPost()
    ensures forall r, i :: r in Routes() && 0 <= i < |r.chain| && r.chain[i].Limit? ==>
              r.verb == Post && KnownAllowance(r.chain[i])
  {
    TableWellGuarded();
  }

  /** Creating a topic is limited by `create_post_per_day` and creating a
      reply by `create_reply_per_day`, each behind `Auth` (api_router_v1.js:22,39). */
  lemma CreateRoutesLimited()
    ensures Route(Post, "/topics", [Auth, Limit("create_topic", "create_post_per_day"), Handler("topic.create")]) in Routes()
    ensures Route(Post, "/topic/:topic_id/replies", [Auth, Limit("create_reply", "create_reply_per_day"), Handler("reply.create")]) in Routes()
  {
  }

  /** Only the two create routes carry a limiter (api_router_v1.js:22,39). */
  lemma LimitsOnlyOnCreateRoutes()
    ensures forall r, i :: r in Routes() && 0 <= i < |r.chain| && r.chain[i].Limit? ==>
              r.path == "/topics" || r.path == "/topic/:topic_id/replies"
  {
    forall r, i | r in Routes() && 0 <= i < |r.chain| && r.chain[i].Limit?
      ensures r.path == "/topics" || r.path == "/topic/:topic_id/replies"
    {
      InSection(r);
    }
  }

  /** On every route of the table, `Auth` runs strictly before any limiter
      (api_router_v1.js:22,39). Provided `middleware.auth` turns anonymous
      callers away, the per-user quota is only consulted for an identified
      user; that callback is not part of this model. */
  lemma AuthBeforeLimit()
    ensures forall r :: r in Routes() ==> AuthGuardsLimits(r.chain)
  {
    TableWellGuarded();
    forall r | r in Routes()
      ensures AuthGuardsLimits(r.chain)
    {
      if r.verb == Post {
        AuthFirstGuardsLimits(r.chain);
      }
    }
  }

  /** Each route of the table belongs to one of its sections. */
  lemma InSection(r: Route)
    requires r in Routes()
    ensures || r in TopicRoutes || r in CollectRoutes || r in UserRoutes
            || r in ToolRoutes || r in ReplyRoutes || r in MessageRoutes
  {
  }

  /** `GET /topic/:id` identifies the caller if it can but never demands it
      (api_router_v1.js:21). */
  lemma TopicShowOptionalAuth()
    ensures exists r :: r in Routes() && r.verb == Get && r.path == "/topic/:id"
    ensures forall r :: r in Routes() && r.verb == Get && r.path == "/topic/:id" ==>
              TryAuth in r.chain && Auth !in r.chain
  {
    assert TopicRoutes[1] in Routes();
    forall r | r in Routes() && r.verb == Get && r.path == "/topic/:id"
      ensures TryAuth in r.chain && Auth !in r.chain
    {
      InSection(r);
    }
  }


  /** The topic list, a user's collected topics and a user's profile are
      readable with no authentication callback at all (api_router_v1.js:20,28,31). */
  lemma PublicReads()
    ensures Route(Get, "/topics", [Handler("topic.index")]) in Routes()
    ensures Route(Get, "/topic_collect/:loginname", [Handler("topic_collect.list")]) in Routes()
    ensures Route(Get, "/user/:loginname", [Handler("user.show")]) in Routes()
    ensures forall r :: r in Routes() && r.verb == Get
              && (r.path == "/topics" || r.path == "/topic_collect/:loginname" || r.path == "/user/:loginname")
              ==> Unauthenticated(r.chain)
  {
    forall r | r in Routes() && r.verb == Get
              && (r.path == "/topics" || r.path == "/topic_collect/:loginname" || r.path == "/user/:loginname")
      ensures Unauthenticated(r.chain)
    {
      InSection(r);
    }
  }

  /** All three message routes demand `Auth` (api_router_v1.js:43-45). */
  lemma MessagesRequireAuth()
    ensures Route(Get, "/messages", [Auth, Handler("message.index")]) in Routes()
    ensures Route(Get, "/message/count", [Auth, Handler("message.count")]) in Routes()
    ensures Route(Post, "/message/mark_all", [Auth, Handler("message.markAll")]) in Routes()
    ensures forall r :: r in Routes()
              && (r.path == "/messages" || r.path == "/message/count" || r.path == "/message/mark_all")
              ==> Auth in r.chain
  {
    forall r | r in Routes()
              && (r.path == "/messages" || r.path == "/message/count" || r.path == "/message/mark_all")
      ensures Auth in r.chain
    {
      InSection(r);
    }
  }

  /** No method and path pattern is declared twice. */
  lemma RoutesDistinct()
    ensures forall i, j :: 0 <= i < j < |Routes()| ==>
              Routes()[i].verb != Routes()[j].verb || Routes()[i].path != Routes()[j].path
  {
  }

  /** A request whose path is spelled `/api/v1` followed by a route's path,
      POST routes included, skips the CSRF check of app.js:159-166 in every
      mode. Express also
      routes case variants such as `/API/v1/...` here, and those are checked
      (`CaseVariantChecked`). */
  lemma ApiRoutesSkipCsrf(debug: bool)
    ensures forall r :: r in Routes() ==> !CsrfApplies(Mount + r.path, debug)
  {
    forall r | r in Routes()
      ensures !CsrfApplies(Mount + r.path, debug)
    {
      MountedPathExempt(r.path, debug);
    }
  }

  /** Any path that starts with the mount point, spelled in lower case, is
      exempt. */
  lemma MountedPathExempt(path: string, debug: bool)
    ensures !CsrfApplies(Mount + path, debug)
  {
    var full := Mount + path;
    assert full[..|ApiPrefix|] == ApiPrefix;
    ApiNamespaceExempt(full, debug);
  }

  /** The path test is case sensitive while Express's mount matching is not:
      `/API/v1/topics` reaches this router, yet the CSRF check runs for it. */
  lemma CaseVariantChecked()
    ensures CsrfApplies("/API/v1/topics", false)
  {
    var path := "/API/v1/topics";
    // each window differs from "/api" in its first or second character
    assert path[0..4][1] != ApiPrefix[1];
    assert path[1..5][0] != ApiPrefix[0];
    assert path[2..6][0] != ApiPrefix[0];
    assert path[3..7][0] != ApiPrefix[0];
    assert path[4..8][1] != ApiPrefix[1];
    assert path[5..9][0] != ApiPrefix[0];
    assert path[6..10][0] != ApiPrefix[0];
    assert path[7..11][1] != ApiPrefix[1];
    assert path[8..12][0] != ApiPrefix[0];
    assert path[9..13][0] != ApiPrefix[0];
    assert path[10..14][0] != ApiPrefix[0];
    assert IndexFrom(path, ApiPrefix, 11) == -1;
  }
}
