/**
 Concrete requests and provider replies worked through the handler: a
 successful `instagram` exchange and the edge cases where JavaScript's nullish
 and falsy checks part ways.
 */
module Scenarios {
  import opened JsonValue
  import opened Posts
  import opened Handler

  /** A post whose every optional field is `null`, caption `""`, no author. */
  const BarePost := Post(Null, Null, Null, Null, Null, Str(""), Null, Null, Null, Null, NoAuthor)

  /** A photo post with an id, a code, a caption and a like count, raw and normalized. */
  const ExampleItem := Obj(map[
    "id" := Str("1"), "code" := Str("abc"), "media_type" := Num(1.0),
    "caption" := Obj(map["text" := Str("hi")]), "like_count" := Num(5.0)])
  const ExamplePost := Post(Str("1"), Null, Str("abc"), Num(1.0), Null, Str("hi"), Num(5.0), Null, Null, Null, NoAuthor)

  /** What each name the normalization reads yields on the example item. */
  lemma ExampleItemReads()
    ensures Prop(ExampleItem, "id") == Str("1")
    ensures Prop(ExampleItem, "code") == Str("abc")
    ensures Prop(ExampleItem, "media_type") == Num(1.0)
    ensures Prop(ExampleItem, "like_count") == Num(5.0)
    ensures Prop(ExampleItem, "caption") == Obj(map["text" := Str("hi")])
    ensures Prop(ExampleItem, "pk") == Undefined
    ensures Prop(ExampleItem, "taken_at") == Undefined
    ensures Prop(ExampleItem, "comment_count") == Undefined
    ensures Prop(ExampleItem, "image_versions2") == Undefined
    ensures Prop(ExampleItem, "additional_candidates") == Undefined
    ensures Prop(ExampleItem, "video_versions") == Undefined
    ensures Prop(ExampleItem, "user") == Undefined
  {
    assert ExampleItem.fields.Keys == {"id", "code", "media_type", "caption", "like_count"};
  }

  /** The example photo post keeps its five present fields; every other field is `null`. */
  lemma ExampleItemNormalizes()
    ensures NormalizeItem(ExampleItem) == Ok(ExamplePost)
  {
    ExampleItemReads();
    assert Dig(Obj(map["text" := Str("hi")]), CaptionText) == Str("hi");
  }

  const ExampleLookup := Obj(map["UserID" := Str("25025320")])
  const ExampleFeed := Obj(map["items" := Arr([ExampleItem])])

  /** The example feed, requested with the example id, yields one normalized post. */
  lemma ExampleFeedFetches()
    ensures FetchPosts(Str("instagram"), Str("25025320"), Reply(true, ExampleFeed)) ==
      Ok(Response(200, Feed(Str("instagram"), Str("25025320"), 1, [ExamplePost])))
  {
    ExampleItemNormalizes();
    var all := NormalizeAll([ExampleItem]);
    assert all.Ok? && |all.value| == 1 && NormalizeItem([ExampleItem][0]) == Ok(all.value[0]);
    assert all.value == [ExamplePost];
    assert Member(ExampleFeed, "items") == Ok(Arr([ExampleItem]));
  }

  /** Once the username converts and the lookup yields a truthy `UserID` that
      converts, the `try` block is the feed fetch with that id, after both calls. */
  lemma TryFetchReachesFeed(username: Json, lookup: Upstream, feed: Upstream)
    requires !ToStringThrows(username)
    requires lookup.Reply? && lookup.ok && !Nullish(lookup.data)
    requires Truthy(Own(lookup.data, "UserID")) && !ToStringThrows(Own(lookup.data, "UserID"))
    ensures var id := Own(lookup.data, "UserID");
      TryFetch(username, lookup, feed) ==
        Attempt(FetchPosts(username, id, feed), [UserIdByUsername(username), UserPostFeed(id)])
  {
  }

  /** The `try` block of the example exchange: the lookup, then the feed call
      with the id it returned, and the example post. */
  lemma InstagramAttempt()
    ensures TryFetch(Str("instagram"), Reply(true, ExampleLookup), Reply(true, ExampleFeed)) ==
      Attempt(
        Ok(Response(200, Feed(Str("instagram"), Str("25025320"), 1, [ExamplePost]))),
        [UserIdByUsername(Str("instagram")), UserPostFeed(Str("25025320"))])
  {
    assert Own(ExampleLookup, "UserID") == Str("25025320");
    TryFetchReachesFeed(Str("instagram"), Reply(true, ExampleLookup), Reply(true, ExampleFeed));
    ExampleFeedFetches();
  }

  /** Username `instagram` resolves to `25025320`, whose feed holds the example
      post; the reply echoes both and counts one post. */
  lemma InstagramExchange()
    ensures
      Handle(Request("GET", Str("instagram")), Set("secret"), Reply(true, ExampleLookup), Reply(true, ExampleFeed)) ==
        Outcome(
          Response(200, Feed(Str("instagram"), Str("25025320"), 1, [ExamplePost])),
          [UserIdByUsername(Str("instagram")), UserPostFeed(Str("25025320"))])
  {
    InstagramAttempt();
  }

  /** A missing or empty username wins over a missing key: still 400, nothing called. */
  lemma UsernameCheckedBeforeKey(verb: string, lookup: Upstream, feed: Upstream)
    requires verb != "OPTIONS"
    ensures Handle(Request(verb, Undefined), Unset, lookup, feed) ==
      Outcome(Response(400, Error(UsernameRequired)), [])
    ensures Handle(Request(verb, Str("")), Set(""), lookup, feed) ==
      Outcome(Response(400, Error(UsernameRequired)), [])
  {
  }

  /** An empty key is as good as none. */
  lemma EmptyKeyIsMissing(lookup: Upstream, feed: Upstream)
    ensures Handle(Request("GET", Str("instagram")), Set(""), lookup, feed) ==
      Outcome(Response(500, Error(KeyNotConfigured)), [])
  {
  }

  /** A `null` lookup body: with a failed status the `!ok` test short-circuits
      to a 404; with a successful one, reading `UserID` throws into the catch branch. */
  lemma NullLookupBody(feed: Upstream)
    ensures Handle(Request("GET", Str("instagram")), Set("secret"), Reply(false, Null), feed) ==
      Outcome(Response(404, ErrorRaw(UserNotFound, Null)), [UserIdByUsername(Str("instagram"))])
    ensures Handle(Request("GET", Str("instagram")), Set("secret"), Reply(true, Null), feed) ==
      Outcome(Response(500, ErrorDetail(UnknownFailure, TypeError)), [UserIdByUsername(Str("instagram"))])
  {
  }

  /** `UserID` is tested for truthiness, not presence: `0` and `""` are not found. */
  lemma FalsyUserIdNotFound(feed: Upstream)
    ensures
      var data := Obj(map["UserID" := Num(0.0)]);
      Handle(Request("GET", Str("instagram")), Set("secret"), Reply(true, data), feed).response ==
        Response(404, ErrorRaw(UserNotFound, data))
    ensures
      var data := Obj(map["UserID" := Str("")]);
      Handle(Request("GET", Str("instagram")), Set("secret"), Reply(true, data), feed).response ==
        Response(404, ErrorRaw(UserNotFound, data))
  {
  }

  /** A `null` entry among the items throws in the mapping, so the whole request
      fails with a 500 `detail`: there is no partial list of posts. */
  lemma NullItemFailsWholeFeed()
    ensures
      var lookup := Reply(true, Obj(map["UserID" := Str("7")]));
      var feed := Reply(true, Obj(map["items" := Arr([Obj(map[]), Null])]));
      Handle(Request("GET", Str("instagram")), Set("secret"), lookup, feed) ==
        Outcome(Response(500, ErrorDetail(UnknownFailure, TypeError)),
          [UserIdByUsername(Str("instagram")), UserPostFeed(Str("7"))])
  {
    var items := [Obj(map[]), Null];
    var data := Obj(map["items" := Arr(items)]);
    assert NormalizeAll(items).Throw? && NormalizeAll(items).fault == TypeError;
    assert Member(data, "items") == Ok(Arr(items));
    assert FetchPosts(Str("instagram"), Str("7"), Reply(true, data)) == Throw(TypeError);
    assert Own(Obj(map["UserID" := Str("7")]), "UserID") == Str("7");
    TryFetchReachesFeed(Str("instagram"), Reply(true, Obj(map["UserID" := Str("7")])), Reply(true, data));
  }

  /** `items` given as an object rather than an array is a 500 echoing the feed. */
  lemma NonArrayItemsRejected()
    ensures
      var lookup := Reply(true, Obj(map["UserID" := Str("7")]));
      var data := Obj(map["items" := Obj(map[])]);
      Handle(Request("GET", Str("instagram")), Set("secret"), lookup, Reply(true, data)).response ==
        Response(500, ErrorRaw(PostsUnavailable, data))
  {
  }

  /** An item with no fields at all normalizes without throwing to the bare post. */
  lemma EmptyItemIsBare()
    ensures NormalizeItem(Obj(map[])) == Ok(BarePost)
  {
  }

  /** An item whose present values are all falsy: `0`, `false`, `""`, and a
      caption text of `0`. */
  const FalsyItem := Obj(map[
    "like_count" := Num(0.0), "media_type" := Bool(false), "code" := Str(""),
    "caption" := Obj(map["text" := Num(0.0)])])

  /** What the names behind the falsy fields yield on that item. */
  lemma FalsyItemReads()
    ensures Prop(FalsyItem, "like_count") == Num(0.0)
    ensures Prop(FalsyItem, "media_type") == Bool(false)
    ensures Prop(FalsyItem, "code") == Str("")
    ensures Prop(FalsyItem, "caption") == Obj(map["text" := Num(0.0)])
  {
  }

  /** Falsy but present values survive `??`: `0`, `false` and `""` are kept,
      and so is a caption text of `0`. */
  lemma FalsyValuesKept()
    ensures var p := NormalizeItem(FalsyItem).value;
      p.likeCount == Num(0.0) && p.mediaType == Bool(false) && p.code == Str("") &&
      p.caption == Num(0.0)
  {
    FalsyItemReads();
    assert Dig(Obj(map["text" := Num(0.0)]), CaptionText) == Num(0.0);
  }

  /** A `UserID` whose string conversion throws: an object whose own `toString`
      key shadows the inherited method, alone or inside an array. It is truthy,
      so the lookup passes, but building the feed URL throws a TypeError; the
      feed is never requested. */
  lemma ShadowedToStringUserId(feed: Upstream)
    ensures
      var shadow := Obj(map["toString" := Num(0.0)]);
      && Handle(Request("GET", Str("instagram")), Set("secret"), Reply(true, Obj(map["UserID" := shadow])), feed) ==
           Outcome(Response(500, ErrorDetail(UnknownFailure, TypeError)), [UserIdByUsername(Str("instagram"))])
      && Handle(Request("GET", Str("instagram")), Set("secret"), Reply(true, Obj(map["UserID" := Arr([shadow])])), feed) ==
           Outcome(Response(500, ErrorDetail(UnknownFailure, TypeError)), [UserIdByUsername(Str("instagram"))])
  {
    var shadow := Obj(map["toString" := Num(0.0)]);
    assert ToStringThrows(shadow);
    assert ToStringThrows(Arr([shadow])) by {
      assert Arr([shadow]).elems[0] == shadow;
    }
  }

  /** An object `UserID` with no own `toString` converts to `"[object Object]"`,
      so the feed is requested with it. */
  lemma PlainObjectUserIdFetches(feed: Upstream)
    ensures
      var id := Obj(map["valueOf" := Num(0.0)]);
      Handle(Request("GET", Str("instagram")), Set("secret"), Reply(true, Obj(map["UserID" := id])), feed).calls ==
        [UserIdByUsername(Str("instagram")), UserPostFeed(id)]
  {
  }

  /** An item with an empty candidate list, a first frame, and an author `""`. */
  const FrameOnlyItem := Obj(map[
    "image_versions2" := Obj(map["candidates" := Arr([])]),
    "additional_candidates" := Obj(map["first_frame" := Obj(map["url" := Str("f.jpg")])]),
    "user" := Str("")])

  /** What the names behind `image_url` and `user` yield on that item. */
  lemma FrameOnlyItemReads()
    ensures Prop(FrameOnlyItem, "image_versions2") == Obj(map["candidates" := Arr([])])
    ensures Prop(FrameOnlyItem, "additional_candidates") == Obj(map["first_frame" := Obj(map["url" := Str("f.jpg")])])
    ensures Prop(FrameOnlyItem, "user") == Str("")
  {
  }

  /** An empty candidate list falls through to the first-frame URL, and an
      author given as `""` is falsy and yields no summary. */
  lemma ImageFallsBackToFirstFrame()
    ensures NormalizeItem(FrameOnlyItem).value.imageUrl == Str("f.jpg")
    ensures NormalizeItem(FrameOnlyItem).value.user == NoAuthor
  {
    FrameOnlyItemReads();
    assert Dig(Obj(map["candidates" := Arr([])]), CandidateUrl) == Undefined;
    assert Dig(Obj(map["first_frame" := Obj(map["url" := Str("f.jpg")])]), FirstFrameUrl) == Str("f.jpg");
  }

  /** An author given as `{}` is truthy and yields a summary whose fields are all `null`. */
  lemma EmptyAuthorIsAllNull()
    ensures NormalizeItem(Obj(map["user" := Obj(map[])])).value.user == Author(Null, Null, Null, Null, Null)
  {
  }
}
