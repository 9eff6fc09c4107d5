/** The network gateway, present twice: in the background worker
    (`background.js`) and in `src/utils/api.js`.  It covers URL construction,
    the choice of the topic-list endpoint, the bounded retry on 403, the
    response shapes a topic page may take, and the classification of the
    session reply.  The network is an input: `net(k)` is the reply to the
    `k`-th request. */
module Gateway {
  import opened Wrappers
  import opened Text
  import opened Topics

  const BaseUrl := "https://linux.do"

  /** How many times a 403 is retried when the caller gives no count. */
  const DefaultRetries: nat := 2

  /** Which copy of the gateway. */
  datatype Variant = Background | Api

  /** The URL an endpoint designates: `BASE_URL` is prepended unless the
      endpoint already starts with `http`. */
  function Url(endpoint: string): (u: string)
    ensures StartsWith(u, "http")
    ensures StartsWith(endpoint, "http") ==> u == endpoint
    ensures u == endpoint || u == BaseUrl + endpoint
  {
    if StartsWith(endpoint, "http") then endpoint
    else
      assert "http" <= BaseUrl;
      BaseUrl + endpoint
  }

  /** The URL fetched: `.json` is appended unless it already occurs. */
  function JsonUrl(url: string): (j: string)
    ensures Contains(j, ".json")
    ensures Contains(url, ".json") ==> j == url
    ensures j == url || j == url + ".json"
  {
    if Contains(url, ".json") then url
    else
      ContainsSuffix(url, ".json");
      url + ".json"
  }

  /** Both normalisations are idempotent, so the retry (which passes the
      already-built `url` back in as the endpoint) fetches the same URL. */
  lemma RetryTargetsSameUrl(endpoint: string)
    ensures Url(Url(endpoint)) == Url(endpoint)
    ensures JsonUrl(JsonUrl(Url(endpoint))) == JsonUrl(Url(endpoint))
  {
  }

  // ---------------------------------------------------------------------
  // Endpoint selection

  /** `fetchTopics(categoryFilter, subCategoryFilter, CATEGORIES)` in
      `src/utils/api.js`: `top` has its own list, `categories` with a known
      sub-category id has that category's list, and everything else
      (including an unknown id) falls back to the latest list.  `sub` is the
      selected id, `None` for an empty selection. */
  function TopicsEndpoint(categoryFilter: string, sub: Option<int>): (e: string)
    ensures e == "/top.json" <==> categoryFilter == "top"
    ensures e == "/latest.json" <==>
              categoryFilter != "top" &&
              (categoryFilter != "categories" || FindById(Categories(), sub).None?)
  {
    if categoryFilter == "top" then "/top.json"
    else if categoryFilter == "categories" && sub.Some? then
      match FindById(Categories(), sub)
      case Some(c) => CategoryEndpoint(c.slug, sub.value)
      case None => "/latest.json"
    else "/latest.json"
  }

  /** The list of one category: `/c/<slug>/<id>.json`. */
  function CategoryEndpoint(slug: string, id: int): (e: string)
    ensures StartsWith(e, "/c/")
    ensures e != "/top.json" && e != "/latest.json"
  {
    var e := "/c/" + slug + "/" + IntToString(id) + ".json";
    assert e[1] == 'c';
    e
  }

  /** The same choice in `sidepanel.js`, which looks the id up without a
      guard: an id that is not in the table makes `subCat.slug` throw, here
      `None`. */
  function LegacyEndpoint(categoryFilter: string, sub: Option<int>): (e: Option<string>)
    ensures e.None? <==> categoryFilter != "top" && categoryFilter == "categories" &&
                         FindById(Categories(), sub).None?
  {
    if categoryFilter == "top" then Some("/top.json")
    else if categoryFilter == "categories" then
      match FindById(Categories(), sub)
      case Some(c) => Some(CategoryEndpoint(c.slug, sub.value))
      case None => None
    else Some("/latest.json")
  }

  /** The two endpoint choices agree except where the legacy panel throws,
      and there the modular one asks for the latest list. */
  lemma EndpointsAgree(categoryFilter: string, sub: Option<int>)
    ensures LegacyEndpoint(categoryFilter, sub).Some? ==>
              LegacyEndpoint(categoryFilter, sub).value == TopicsEndpoint(categoryFilter, sub)
    ensures LegacyEndpoint(categoryFilter, sub).None? ==>
              TopicsEndpoint(categoryFilter, sub) == "/latest.json"
  {
  }

  /** Every endpoint `fetchTopics` picks is a path ending in `.json`, so the
      URL fetched is exactly the site's base URL followed by it. */
  lemma TopicsUrl(categoryFilter: string, sub: Option<int>)
    ensures JsonUrl(Url(TopicsEndpoint(categoryFilter, sub))) == BaseUrl + TopicsEndpoint(categoryFilter, sub)
  {
    var e := TopicsEndpoint(categoryFilter, sub);
    assert e[0] == '/';
    assert !StartsWith(e, "http");
    var n := |e| - 5;
    assert e == e[..n] + ".json";
    ContainsSuffix(BaseUrl + e[..n], ".json");
    assert BaseUrl + e == BaseUrl + e[..n] + ".json";
  }

  // ---------------------------------------------------------------------
  // The topic page

  /** The `topic_list` member of a page: present, and with or without `topics`. */
  datatype TopicList = TopicList(topics: Option<seq<Topic>>)

  /** The logged-in user as the site describes it. */
  datatype SessionUser = SessionUser(username: string)

  /** What the body of a topic page parses to. */
  datatype PageBody =
    | NotJson(message: string)      // `response.json()` rejects with this message
    | JsonNull                      // the literal `null`: reading a member throws
    | JsonScalar                    // a number, string or boolean: no members, not an array
    | JsonArray(items: seq<Topic>)
    | JsonObject(topicList: Option<TopicList>, topics: Option<seq<Topic>>,
                 users: Option<seq<UserInfo>>, currentUser: Option<SessionUser>)

  /** The reply to one request: the request itself failed, or a status and body. */
  datatype HttpReply = NetworkError(message: string) | Response(status: int, body: PageBody)

  /** `response.ok`. */
  predicate Ok(status: int) {
    200 <= status <= 299
  }

  /** The message of the `TypeError` raised by reading a member of `null`. */
  const NullTopicListMessage := "Cannot read properties of null (reading 'topic_list')"

  /** What `fetchWithRetry` resolves to. */
  datatype FetchResult = FetchResult(
    success: bool,
    topics: seq<Topic>,
    users: Option<seq<UserInfo>>,
    currentUser: Option<SessionUser>,
    error: Option<string>)

  /** The `catch` branch: every failure carries empty `topics` and `users`. */
  function Failure(message: string): (r: FetchResult)
    ensures !r.success && r.topics == [] && r.users == Some([]) && r.error == Some(message)
  {
    FetchResult(false, [], Some([]), None, Some(message))
  }

  /** The places a topic list may sit in a parsed page, in the order they are
      tried: `topic_list.topics`, `topics`, the page itself when it is an array. */
  function Candidates(body: PageBody): seq<Option<seq<Topic>>> {
    match body
    case JsonObject(tl, ts, _, _) => [if tl.Some? then tl.value.topics else None, ts, None]
    case JsonArray(items) => [None, None, Some(items)]
    case _ => [None, None, None]
  }

  /** The first candidate that is present, or the empty list. */
  function FirstPresent(cs: seq<Option<seq<Topic>>>): seq<Topic> {
    if cs == [] then [] else if cs[0].Some? then cs[0].value else FirstPresent(cs[1..])
  }

  /** The extraction chain of `fetchWithRetry`: it takes the first candidate
      present and an empty list when none is. */
  function ExtractTopics(body: PageBody): (r: seq<Topic>)
    ensures r == FirstPresent(Candidates(body))
  {
    var cs := Candidates(body);
    FirstPresentOfThree(cs[0], cs[1], cs[2]);
    assert cs == [cs[0], cs[1], cs[2]];
    if body.JsonObject? && body.topicList.Some? && body.topicList.value.topics.Some? then
      body.topicList.value.topics.value
    else if body.JsonObject? && body.topics.Some? then body.topics.value
    else if body.JsonArray? then body.items
    else []
  }

  /** The three-candidate chain written out. */
  lemma FirstPresentOfThree(a: Option<seq<Topic>>, b: Option<seq<Topic>>, c: Option<seq<Topic>>)
    ensures FirstPresent([a, b, c]) ==
              if a.Some? then a.value else if b.Some? then b.value else if c.Some? then c.value else []
  {
    assert [a, b, c][1..] == [b, c] && [b, c][1..] == [c] && [c][1..] == [];
    assert FirstPresent([c]) == if c.Some? then c.value else FirstPresent([]);
    assert FirstPresent([b, c]) == if b.Some? then b.value else FirstPresent([c]);
    assert FirstPresent([a, b, c]) == if a.Some? then a.value else FirstPresent([b, c]);
  }

  /** The outcome of one request when it is not retried.  Only `api.js`
      gives a 429 its own message. */
  function Outcome(v: Variant, reply: HttpReply): (r: FetchResult)
    ensures !r.success ==> r.topics == [] && r.users == Some([]) && r.error.Some?
    ensures r.success <==> reply.Response? && Ok(reply.status) &&
                           !reply.body.NotJson? && !reply.body.JsonNull?
    ensures r.success ==> r.topics == ExtractTopics(reply.body) && r.error.None?
  {
    match reply
    case NetworkError(m) => Failure(m)
    case Response(status, body) =>
      if !Ok(status) then
        if v == Api && status == 429 then Failure("Too Many Requests (429)")
        else Failure("HTTP " + IntToString(status))
      else
        match body
        case NotJson(m) => Failure(m)
        case JsonNull => Failure(NullTopicListMessage)
        case JsonObject(_, _, users, currentUser) =>
          FetchResult(true, ExtractTopics(body), users, currentUser, None)
        case _ => FetchResult(true, ExtractTopics(body), None, None, None)
  }

  /** The two copies treat every reply alike except a 429, which only the
      messages tell apart. */
  lemma OutcomeVariantsAgree(reply: HttpReply)
    ensures !(reply.Response? && reply.status == 429) ==> Outcome(Background, reply) == Outcome(Api, reply)
    ensures reply.Response? && reply.status == 429 ==>
              Outcome(Background, reply) == Failure("HTTP 429") &&
              Outcome(Api, reply) == Failure("Too Many Requests (429)")
  {
    if reply.Response? && reply.status == 429 {
      assert IntToString(429) == "429" by {
        assert Digit(4) == '4' && Digit(2) == '2' && Digit(9) == '9';
        assert NatToString(429) == NatToString(42) + [Digit(9)];
        assert NatToString(42) == NatToString(4) + [Digit(2)];
      }
      assert "HTTP " + "429" == "HTTP 429";
    }
  }

  /** A reply that makes `fetchWithRetry` try again. */
  predicate IsForbidden(reply: HttpReply) {
    reply.Response? && reply.status == 403
  }

  /** The outcome of `fetchWithRetry` together with the URLs it fetched. */
  datatype Fetched = Fetched(result: FetchResult, urls: seq<string>)

  /** `fetchWithRetry(endpoint, retries)`, starting at request number
      `attempt`: a 403 is retried while retries remain (with the built URL
      passed back in); every other reply ends the recursion with its outcome. */
  function FetchWithRetry(v: Variant, endpoint: string, retries: nat, net: nat -> HttpReply, attempt: nat): (f: Fetched)
    ensures 1 <= |f.urls| <= retries + 1
    ensures forall i :: 0 <= i < |f.urls| ==> f.urls[i] == JsonUrl(Url(endpoint))
    ensures forall k :: attempt <= k < attempt + |f.urls| - 1 ==> IsForbidden(net(k))
    ensures |f.urls| <= retries ==> !IsForbidden(net(attempt + |f.urls| - 1))
    ensures f.result == Outcome(v, net(attempt + |f.urls| - 1))
    decreases retries
  {
    var jsonUrl := JsonUrl(Url(endpoint));
    var reply := net(attempt);
    // `!response.ok && response.status === 403`: a 403 is never `ok`.
    if !IsForbidden(reply) || retries == 0 then
      Fetched(Outcome(v, reply), [jsonUrl])
    else
      var rest := FetchWithRetry(v, Url(endpoint), retries - 1, net, attempt + 1);
      assert JsonUrl(Url(Url(endpoint))) == jsonUrl by { RetryTargetsSameUrl(endpoint); }
      Fetched(rest.result, [jsonUrl] + rest.urls)
  }

  /** With the default count at most three requests are made, and a failure
      always has empty `topics` and `users`. */
  lemma AtMostThreeRequests(v: Variant, endpoint: string, net: nat -> HttpReply)
    ensures var f := FetchWithRetry(v, endpoint, DefaultRetries, net, 0);
            |f.urls| <= 3 &&
            (!f.result.success ==> f.result.topics == [] && f.result.users == Some([]))
  {
  }

  /** A 429 ends the request sequence at once: in `api.js` with its own
      message, in the background worker as any other HTTP error. */
  lemma NoRetryOn429(v: Variant, endpoint: string, retries: nat, net: nat -> HttpReply, attempt: nat)
    requires net(attempt).Response? && net(attempt).status == 429
    ensures var f := FetchWithRetry(v, endpoint, retries, net, attempt);
            |f.urls| == 1 && !f.result.success &&
            f.result.error == Some(if v == Api then "Too Many Requests (429)" else "HTTP 429")
  {
    OutcomeVariantsAgree(net(attempt));
  }

  /** A server that keeps answering 403 is asked exactly `retries + 1` times. */
  lemma PersistentForbidden(v: Variant, endpoint: string, retries: nat, net: nat -> HttpReply, attempt: nat)
    requires forall k :: attempt <= k ==> IsForbidden(net(k))
    ensures |FetchWithRetry(v, endpoint, retries, net, attempt).urls| == retries + 1
    ensures !FetchWithRetry(v, endpoint, retries, net, attempt).result.success
  {
    var f := FetchWithRetry(v, endpoint, retries, net, attempt);
    assert IsForbidden(net(attempt + |f.urls| - 1));
  }

  // ---------------------------------------------------------------------
  // The session reply

  /** What the body of `/session/current.json` parses to. */
  datatype SessionBody =
    | SessionNotJson(message: string)
    | SessionNull
    | SessionJson(currentUser: Option<SessionUser>)

  /** The reply to the session request. */
  datatype SessionReply = SessionNetworkError(message: string) | SessionResponse(status: int, body: SessionBody)

  /** A login status as the side panels receive it and as the cache stores
      it; `timestamp` is set only on the cached copy. */
  datatype SessionStatus = SessionStatus(
    loggedIn: bool,
    user: Option<SessionUser>,
    rateLimited: bool,
    retryAfter: Option<int>,
    error: Option<string>,
    timestamp: Option<int>)

  /** The message of the `TypeError` raised by reading `current_user` of `null`. */
  const NullSessionMessage := "Cannot read properties of null (reading 'current_user')"

  /** A logged-out status, with or without an error. */
  function LoggedOut(error: Option<string>): SessionStatus {
    SessionStatus(false, None, false, None, error, None)
  }

  /** `fetchUserFromAPI()`: a 429 is rate-limited, any other non-OK status
      and any thrown or parse error is logged out with an error, a present
      `current_user` is logged in, and anything else is logged out. */
  function ClassifySession(v: Variant, reply: SessionReply): (s: SessionStatus)
    ensures s.loggedIn <==> reply.SessionResponse? && Ok(reply.status) &&
                            reply.body.SessionJson? && reply.body.currentUser.Some?
    ensures s.loggedIn ==> s.user == reply.body.currentUser && s.error.None? && !s.rateLimited
    ensures !s.loggedIn ==> s.user.None?
    ensures s.rateLimited <==> reply.SessionResponse? && reply.status == 429
    ensures s.error.None? <==> reply.SessionResponse? && Ok(reply.status) && reply.body.SessionJson?
    ensures s.retryAfter.None? && s.timestamp.None?
  {
    match reply
    case SessionNetworkError(m) => LoggedOut(Some(m))
    case SessionResponse(status, body) =>
      if status == 429 then SessionStatus(false, None, true, None, Some("Too Many Requests"), None)
      else if !Ok(status) then LoggedOut(Some("HTTP " + IntToString(status)))
      else
        match body
        case SessionNotJson(m) => LoggedOut(Some(if v == Background then "JSON解析失败" else m))
        case SessionNull => LoggedOut(Some(NullSessionMessage))
        case SessionJson(u) =>
          if u.Some? then SessionStatus(true, u, false, None, None, None) else LoggedOut(None)
  }

  /** The two classifications differ only in the message for a body that is
      not JSON. */
  lemma ClassifyVariantsAgree(reply: SessionReply)
    ensures !(reply.SessionResponse? && Ok(reply.status) && reply.body.SessionNotJson?) ==>
              ClassifySession(Background, reply) == ClassifySession(Api, reply)
    ensures reply.SessionResponse? && Ok(reply.status) && reply.body.SessionNotJson? ==>
              ClassifySession(Background, reply).error == Some("JSON解析失败") &&
              ClassifySession(Api, reply).error == Some(reply.body.message)
  {
  }
}
