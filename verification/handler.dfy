/**
 The request handler with its I/O taken out: the request, the configured API
 key and the two replies of the data provider are inputs, and the result is the
 response the handler sends together with the provider calls it made.
 */
module Handler {
  import opened JsonValue
  import opened Posts

  /** The parts of the inbound request the handler reads. The `username` query
      value is `undefined` when absent; a repeated parameter arrives as an array. */
  datatype Request = Request(verb: string, username: Json)

  /** The `RAPIDAPI_KEY` environment variable. */
  datatype Setting = Unset | Set(value: string)

  /** A reply of the data provider as the handler sees it after `await res.json()`:
      `Unavailable` when the request was rejected or the body did not parse. */
  datatype Upstream = Unavailable | Reply(ok: bool, data: Json)

  /** An outbound call, with the value it passes as its query parameter. */
  datatype Call = UserIdByUsername(username: Json) | UserPostFeed(userId: Json)

  /** The human-readable `error` texts, kept opaque. */
  datatype Message = UsernameRequired | KeyNotConfigured | UserNotFound | PostsUnavailable | UnknownFailure

  datatype Body =
    | Empty                                      // `res.end()`: no payload
    | Error(error: Message)                      // `{ error }`
    | ErrorRaw(error: Message, raw: Json)        // `{ error, raw }`
    | ErrorDetail(error: Message, detail: Fault) // `{ error, detail }`
    | Feed(username: Json, userId: Json, postCount: nat, posts: seq<Post>)

  datatype Response = Response(status: int, body: Body)

  /** What one invocation does: the response, and the provider calls in order. */
  datatype Outcome = Outcome(response: Response, calls: seq<Call>)

  /** What the `try` block produced before the `catch` branch turned a throw
      into a response. */
  datatype Attempt = Attempt(result: Result<Response>, calls: seq<Call>)

  /** `process.env.RAPIDAPI_KEY` as a JavaScript value: a string, or `undefined`
      when unset. */
  function EnvJson(env: Setting): Json {
    match env
    case Unset => Undefined
    case Set(v) => Str(v)
  }

  /** The negation of `!RAPIDAPI_KEY`: the variable is set and not empty, which
      is exactly the truthiness of the value `process.env` yields. */
  predicate KeyConfigured(env: Setting)
    ensures KeyConfigured(env) <==> Truthy(EnvJson(env))
  {
    env.Set? && env.value != ""
  }

  /** The second half of the `try` block: fetch the feed of `userId` and
      normalize its items. */
  function FetchPosts(username: Json, userId: Json, feed: Upstream): (r: Result<Response>)
    ensures r.Ok? ==> r.value.status in {200, 500}
  {
    match feed
    case Unavailable => Throw(UpstreamError)
    case Reply(ok, postsData) =>
      if !ok then Ok(Response(500, ErrorRaw(PostsUnavailable, postsData)))
      else
        match Member(postsData, "items")
        case Throw(f) => Throw(f)
        case Ok(items) =>
          if !items.Arr? then Ok(Response(500, ErrorRaw(PostsUnavailable, postsData)))
          else
            match NormalizeAll(items.elems)
            case Throw(f) => Throw(f)
            case Ok(cleaned) => Ok(Response(200, Feed(username, userId, |cleaned|, cleaned)))
  }

  /** The `try` block: resolve the username, then fetch the posts. Each URL is
      built with `encodeURIComponent`, whose string conversion can throw before
      the call goes out; the feed is requested only once a truthy `UserID` that
      converts is known. */
  function TryFetch(username: Json, lookup: Upstream, feed: Upstream): (a: Attempt)
    ensures |a.calls| <= 2
    ensures a.calls == [] <==> ToStringThrows(username)
    ensures a.calls == [] ==> a.result == Throw(TypeError)
    ensures a.calls != [] ==> a.calls[0] == UserIdByUsername(username)
  {
    if ToStringThrows(username) then Attempt(Throw(TypeError), [])
    else
      var first := [UserIdByUsername(username)];
      match lookup
      case Unavailable => Attempt(Throw(UpstreamError), first)
      case Reply(ok, userIdData) =>
        if !ok then Attempt(Ok(Response(404, ErrorRaw(UserNotFound, userIdData))), first)
        else
          match Member(userIdData, "UserID")
          case Throw(f) => Attempt(Throw(f), first)
          case Ok(userId) =>
            if !Truthy(userId) then Attempt(Ok(Response(404, ErrorRaw(UserNotFound, userIdData))), first)
            else if ToStringThrows(userId) then Attempt(Throw(TypeError), first)
            else Attempt(FetchPosts(username, userId, feed), first + [UserPostFeed(userId)])
  }

  /** The handler: preflight, the two guards, then the `try` block, whose
      exceptions all become a 500 with a `detail`. */
  function Handle(req: Request, env: Setting, lookup: Upstream, feed: Upstream): (o: Outcome)
    // A preflight is answered with an empty 200 before anything else is looked at.
    ensures req.verb == "OPTIONS" ==> o == Outcome(Response(200, Empty), [])
    // A falsy username is rejected with 400, whatever the key, and nothing is called.
    ensures o.response.status == 400 <==> req.verb != "OPTIONS" && !Truthy(req.username)
    ensures o.response.status == 400 ==> o.response.body == Error(UsernameRequired) && o.calls == []
    // A missing key is reported only once the username passed, and nothing is called.
    ensures o.response.body == Error(KeyNotConfigured) <==>
      req.verb != "OPTIONS" && Truthy(req.username) && !KeyConfigured(env)
    ensures o.response.body == Error(KeyNotConfigured) ==> o.response.status == 500 && o.calls == []
    // Every provider call is made with a username that passed both guards and converts to a string.
    ensures o.calls != [] <==>
      req.verb != "OPTIONS" && Truthy(req.username) && KeyConfigured(env) && !ToStringThrows(req.username)
    ensures o.calls != [] ==> o.calls[0] == UserIdByUsername(req.username)
    // A failed lookup or a falsy UserID is a 404 echoing the lookup body, and the feed is never requested.
    ensures o.response.status == 404 <==>
      o.calls != [] && lookup.Reply? && (!lookup.ok || (!Nullish(lookup.data) && !Truthy(Own(lookup.data, "UserID"))))
    ensures o.response.status == 404 ==>
      o.response.body == ErrorRaw(UserNotFound, lookup.data) && o.calls == [UserIdByUsername(req.username)]
    // The feed is requested exactly when the lookup produced a truthy UserID that converts, and with that id.
    ensures |o.calls| == 2 <==>
      o.calls != [] && lookup.Reply? && lookup.ok && !Nullish(lookup.data) &&
      Truthy(Own(lookup.data, "UserID")) && !ToStringThrows(Own(lookup.data, "UserID"))
    ensures |o.calls| == 2 ==> o.calls[1] == UserPostFeed(Own(lookup.data, "UserID"))
    ensures |o.calls| <= 2
    // A failed feed, or a non-array `items`, is a 500 echoing the feed body.
    ensures o.response.body.ErrorRaw? && o.response.body.error == PostsUnavailable <==>
      |o.calls| == 2 && feed.Reply? &&
      (!feed.ok || (!Nullish(feed.data) && !Own(feed.data, "items").Arr?))
    ensures o.response.body.ErrorRaw? && o.response.body.error == PostsUnavailable ==>
      o.response.status == 500 && o.response.body.raw == feed.data
    // A success carries the echoed username, the lookup's UserID and the items normalized in order.
    ensures o.response.body.Feed? <==>
      |o.calls| == 2 && feed.Reply? && feed.ok && !Nullish(feed.data) &&
      Own(feed.data, "items").Arr? && NormalizeAll(Own(feed.data, "items").elems).Ok?
    ensures o.response.body.Feed? ==>
      var items := Own(feed.data, "items").elems;
      var body := o.response.body;
      && o.response.status == 200
      && body.username == req.username
      && body.userId == Own(lookup.data, "UserID")
      && body.postCount == |body.posts| == |items|
      && forall i :: 0 <= i < |items| ==> NormalizeItem(items[i]) == Ok(body.posts[i])
    // Every exception inside the `try` block becomes a 500 with a `detail`: a
    // username or UserID whose string conversion throws, an unavailable call,
    // a successful reply whose body is `null`, or an item that throws.
    ensures o.response.body.ErrorDetail? <==>
      || (req.verb != "OPTIONS" && Truthy(req.username) && KeyConfigured(env) && ToStringThrows(req.username))
      || (&& o.calls != []
          && (|| lookup.Unavailable?
              || (lookup.ok && Nullish(lookup.data))
              || (lookup.ok && !Nullish(lookup.data) &&
                  Truthy(Own(lookup.data, "UserID")) && ToStringThrows(Own(lookup.data, "UserID")))
              || (&& |o.calls| == 2
                  && (|| feed.Unavailable?
                      || (feed.ok && Nullish(feed.data))
                      || (feed.ok && Own(feed.data, "items").Arr? &&
                          NormalizeAll(Own(feed.data, "items").elems).Throw?)))))
    ensures o.response.body.ErrorDetail? && o.calls == [] ==> o.response.body.detail == TypeError
    ensures o.response.body.ErrorDetail? ==>
      o.response.status == 500 && o.response.body.error == UnknownFailure
    ensures o.response.status in {200, 400, 404, 500}
  {
    if req.verb == "OPTIONS" then Outcome(Response(200, Empty), [])
    else if !Truthy(req.username) then Outcome(Response(400, Error(UsernameRequired)), [])
    else if !KeyConfigured(env) then Outcome(Response(500, Error(KeyNotConfigured)), [])
    else
      var attempt := TryFetch(req.username, lookup, feed);
      match attempt.result
      case Ok(response) => Outcome(response, attempt.calls)
      case Throw(f) => Outcome(Response(500, ErrorDetail(UnknownFailure, f)), attempt.calls)
  }

  /** The JSON payload `res.json(...)` sends; `undefined` stands for the empty
      preflight reply, which has none. */
  function BodyJson(b: Body): Json {
    match b
    case Empty => Undefined
    case Error(m) => Obj(map["error" := MessageJson(m)])
    case ErrorRaw(m, raw) => Obj(map["error" := MessageJson(m), "raw" := raw])
    case ErrorDetail(m, f) => Obj(map["error" := MessageJson(m), "detail" := FaultJson(f)])
    case Feed(username, userId, count, posts) =>
      Obj(map[
        "username" := username, "user_id" := userId,
        "post_count" := Num(count as real), "posts" := Arr(PostsJson(posts))])
  }

  /** The opaque `error` text of a message. */
  function MessageJson(m: Message): Json {
    match m
    case UsernameRequired => Str("username-required")
    case KeyNotConfigured => Str("key-not-configured")
    case UserNotFound => Str("user-not-found")
    case PostsUnavailable => Str("posts-unavailable")
    case UnknownFailure => Str("unknown-failure")
  }

  /** The `detail` of a caught exception, standing for its message. */
  function FaultJson(f: Fault): Json {
    match f
    case TypeError => Str("TypeError")
    case UpstreamError => Str("UpstreamError")
  }

  /** The serialized `posts` array, in order: every entry of a well-formed post
      is an object with exactly the eleven post keys, none of them `undefined`. */
  function PostsJson(posts: seq<Post>): (r: seq<Json>)
    ensures |r| == |posts|
    ensures forall i :: 0 <= i < |posts| && WellFormed(posts[i]) ==>
      && r[i].Obj?
      && r[i].fields.Keys == set k | k in PostKeys
      && forall k :: k in r[i].fields ==> r[i].fields[k] != Undefined
  {
    seq(|posts|, i requires 0 <= i < |posts| => PostJson(posts[i]))
  }

  /** Every response other than the preflight and a success carries an `error`
      key; a success's `post_count` is the length of its `posts` array, every
      entry of which has all eleven post keys present and none `undefined`. */
  lemma ResponseBodyShape(req: Request, env: Setting, lookup: Upstream, feed: Upstream)
    ensures var o := Handle(req, env, lookup, feed);
      !o.response.body.Empty? && !o.response.body.Feed? ==>
        o.response.status != 200 && "error" in BodyJson(o.response.body).fields
    ensures var o := Handle(req, env, lookup, feed);
      o.response.body.Feed? ==>
        var out := BodyJson(o.response.body).fields;
        && out.Keys == {"username", "user_id", "post_count", "posts"}
        && out["post_count"] == Num(|out["posts"].elems| as real)
        && forall i :: 0 <= i < |out["posts"].elems| ==>
             && out["posts"].elems[i].fields.Keys == set k | k in PostKeys
             && forall k :: k in out["posts"].elems[i].fields ==> out["posts"].elems[i].fields[k] != Undefined
  {
    var o := Handle(req, env, lookup, feed);
    if o.response.body.Feed? {
      var posts := o.response.body.posts;
      var items := Own(feed.data, "items").elems;
      forall i | 0 <= i < |posts|
        ensures WellFormed(posts[i])
      {
        assert NormalizeItem(items[i]) == Ok(posts[i]);
      }
    }
  }
}
