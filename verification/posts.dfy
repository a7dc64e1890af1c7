/**
 The per-item normalization the handler applies to the provider's `items`
 array: every raw post, a loosely typed JSON value, becomes a post of fixed
 shape whose every field is present, `null` standing in for anything missing.
 */
module Posts {
  import opened JsonValue

  /** The author summary of a post; `NoAuthor` is the `user: null` case. */
  datatype Author =
    | NoAuthor
    | Author(id: Json, username: Json, fullName: Json, profilePicUrl: Json, isVerified: Json)

  /** A normalized post. Each `Json` field holds a value copied from the raw
      item or the default the handler substitutes for a nullish one. */
  datatype Post = Post(
    mediaId: Json,
    pk: Json,
    code: Json,
    mediaType: Json,
    takenAt: Json,
    caption: Json,
    likeCount: Json,
    commentCount: Json,
    imageUrl: Json,
    videoUrl: Json,
    user: Author)

  /** The optional steps the handler takes after each leading plain read:
      `item.caption?.text`, `item.image_versions2?.candidates?.[0]?.url`,
      `item.additional_candidates?.first_frame?.url`, `item.video_versions?.[0]?.url`. */
  const CaptionText: seq<Step> := [Name("text")]
  const CandidateUrl: seq<Step> := [Name("candidates"), Index(0), Name("url")]
  const FirstFrameUrl: seq<Step> := [Name("first_frame"), Name("url")]
  const FirstVersionUrl: seq<Step> := [Index(0), Name("url")]

  /** The same chains read from the item itself. */
  const CaptionPath: seq<Step> := [Name("caption")] + CaptionText
  const PrimaryImagePath: seq<Step> := [Name("image_versions2")] + CandidateUrl
  const FirstFramePath: seq<Step> := [Name("additional_candidates")] + FirstFrameUrl
  const VideoPath: seq<Step> := [Name("video_versions")] + FirstVersionUrl

  /** The keys of a serialized post, listed in the order the handler writes
      them; the serialized object itself keeps no key order. */
  const PostKeys: seq<string> := [
    "media_id", "pk", "code", "media_type", "taken_at", "caption",
    "like_count", "comment_count", "image_url", "video_url", "user"]

  /** The keys of a serialized author summary. */
  const AuthorKeys: seq<string> := ["id", "username", "full_name", "profile_pic_url", "is_verified"]

  /** `x ?? null`. */
  function OrNull(x: Json): (r: Json)
    ensures !Nullish(x) ==> r == x
    ensures Nullish(x) ==> r == Null
    ensures r != Undefined
  {
    Coalesce(x, Null)
  }

  /** No field of the post, nor of its author summary, is `undefined`: every
      key the handler writes is present in the serialized output. */
  predicate WellFormed(p: Post) {
    && p.mediaId != Undefined && p.pk != Undefined && p.code != Undefined
    && p.mediaType != Undefined && p.takenAt != Undefined && p.caption != Undefined
    && p.likeCount != Undefined && p.commentCount != Undefined
    && p.imageUrl != Undefined && p.videoUrl != Undefined
    && (p.user.Author? ==>
          && p.user.id != Undefined && p.user.username != Undefined && p.user.fullName != Undefined
          && p.user.profilePicUrl != Undefined && p.user.isVerified != Undefined)
  }

  /** The author summary built from a truthy `item.user`; the ternary that
      guards it guarantees the plain reads `item.user.pk` etc. cannot throw. */
  function NormalizeAuthor(u: Json): (a: Author)
    requires Truthy(u)
    ensures a.Author?
    ensures a.id == OrNull(Own(u, "pk"))
    ensures a.username == OrNull(Own(u, "username"))
    ensures a.fullName == OrNull(Own(u, "full_name"))
    ensures a.profilePicUrl == OrNull(Own(u, "profile_pic_url"))
    ensures a.isVerified == OrNull(Own(u, "is_verified"))
  {
    Author(
      OrNull(Prop(u, "pk")),
      OrNull(Prop(u, "username")),
      OrNull(Prop(u, "full_name")),
      OrNull(Prop(u, "profile_pic_url")),
      OrNull(Prop(u, "is_verified")))
  }

  /** The mapping callback of `items.map`. Its first plain read `item.id`
      throws on a `null` (or `undefined`) item; any other value normalizes. */
  function NormalizeItem(item: Json): (r: Result<Post>)
    ensures r.Throw? <==> Nullish(item)
    ensures r.Throw? ==> r.fault == TypeError
    ensures r.Ok? ==> WellFormed(r.value)
  {
    match Get(item, Name("id"))
    case Throw(f) => Throw(f)
    case Ok(id) =>
      var user := Prop(item, "user");
      Ok(Post(
        mediaId := OrNull(id),
        pk := OrNull(Prop(item, "pk")),
        code := OrNull(Prop(item, "code")),
        mediaType := OrNull(Prop(item, "media_type")),
        takenAt := OrNull(Prop(item, "taken_at")),
        caption := Coalesce(Dig(Prop(item, "caption"), CaptionText), Str("")),
        likeCount := OrNull(Prop(item, "like_count")),
        commentCount := OrNull(Prop(item, "comment_count")),
        imageUrl := OrNull(Coalesce(
          Dig(Prop(item, "image_versions2"), CandidateUrl),
          Dig(Prop(item, "additional_candidates"), FirstFrameUrl))),
        videoUrl := OrNull(Dig(Prop(item, "video_versions"), FirstVersionUrl)),
        user := if Truthy(user) then NormalizeAuthor(user) else NoAuthor))
  }

  /** `items.map(normalize)`: it throws if any item throws, and otherwise keeps
      the length and order of `items`, post `i` being the normalization of item `i`. */
  function NormalizeAll(items: seq<Json>): (r: Result<seq<Post>>)
    ensures r.Ok? <==> forall i :: 0 <= i < |items| ==> !Nullish(items[i])
    ensures r.Throw? ==> r.fault == TypeError
    ensures r.Ok? ==> |r.value| == |items|
    ensures r.Ok? ==> forall i :: 0 <= i < |items| ==> NormalizeItem(items[i]) == Ok(r.value[i])
    decreases |items|
  {
    if |items| == 0 then Ok([])
    else
      match NormalizeItem(items[0])
      case Throw(f) => Throw(f)
      case Ok(p) =>
        match NormalizeAll(items[1..])
        case Throw(f) => Throw(f)
        case Ok(ps) => Ok([p] + ps)
  }

  /** The author summary as the handler serializes it: an object or `null`. */
  function AuthorJson(a: Author): Json {
    match a
    case NoAuthor => Null
    case Author(id, username, fullName, pic, verified) =>
      Obj(map[
        "id" := id, "username" := username, "full_name" := fullName,
        "profile_pic_url" := pic, "is_verified" := verified])
  }

  /** A normalized post as the handler serializes it. */
  function PostJson(p: Post): Json {
    Obj(map[
      "media_id" := p.mediaId, "pk" := p.pk, "code" := p.code,
      "media_type" := p.mediaType, "taken_at" := p.takenAt, "caption" := p.caption,
      "like_count" := p.likeCount, "comment_count" := p.commentCount,
      "image_url" := p.imageUrl, "video_url" := p.videoUrl, "user" := AuthorJson(p.user)])
  }

  /** A present author summary whose fields are all defined serializes to an
      object with exactly its five keys, none of them `undefined`. */
  lemma AuthorJsonComplete(a: Author)
    requires a.Author?
    requires a.id != Undefined && a.username != Undefined && a.fullName != Undefined
    requires a.profilePicUrl != Undefined && a.isVerified != Undefined
    ensures AuthorJson(a).fields.Keys == set k | k in AuthorKeys
    ensures forall k :: k in AuthorJson(a).fields ==> AuthorJson(a).fields[k] != Undefined
  {
  }

  /** A well-formed post serializes to an object with exactly the eleven keys,
      none of them `undefined`; a present author summary has exactly its five
      keys, none of them `undefined` either. */
  lemma PostJsonComplete(p: Post)
    requires WellFormed(p)
    ensures PostJson(p).fields.Keys == set k | k in PostKeys
    ensures forall k :: k in PostJson(p).fields ==> PostJson(p).fields[k] != Undefined
    ensures p.user.Author? ==> AuthorJson(p.user).fields.Keys == set k | k in AuthorKeys
    ensures p.user.Author? ==>
      forall k :: k in AuthorJson(p.user).fields ==> AuthorJson(p.user).fields[k] != Undefined
  {
    if p.user.Author? {
      AuthorJsonComplete(p.user);
    }
    PostJsonKeys(p);
  }

  /** Whatever its fields hold, a post serializes to exactly the eleven keys. */
  lemma PostJsonKeys(p: Post)
    ensures PostJson(p).fields.Keys == set k | k in PostKeys
  {
  }

  /** Every scalar field keeps whatever non-nullish value the raw item holds
      under its raw key, falsy ones such as `0`, `false` and `""` included, and
      is `null` when that key is absent, `null` or `undefined`. */
  lemma ScalarFieldsKeepPresentValues(item: Json)
    requires !Nullish(item)
    ensures var v := Own(item, "id"); NormalizeItem(item).value.mediaId == (if Nullish(v) then Null else v)
    ensures var v := Own(item, "pk"); NormalizeItem(item).value.pk == (if Nullish(v) then Null else v)
    ensures var v := Own(item, "code"); NormalizeItem(item).value.code == (if Nullish(v) then Null else v)
    ensures var v := Own(item, "media_type"); NormalizeItem(item).value.mediaType == (if Nullish(v) then Null else v)
    ensures var v := Own(item, "taken_at"); NormalizeItem(item).value.takenAt == (if Nullish(v) then Null else v)
    ensures var v := Own(item, "like_count"); NormalizeItem(item).value.likeCount == (if Nullish(v) then Null else v)
    ensures var v := Own(item, "comment_count"); NormalizeItem(item).value.commentCount == (if Nullish(v) then Null else v)
  {
    PropIsOwn(item, "id");
    PropIsOwn(item, "pk");
    PropIsOwn(item, "code");
    PropIsOwn(item, "media_type");
    PropIsOwn(item, "taken_at");
    PropIsOwn(item, "like_count");
    PropIsOwn(item, "comment_count");
  }

  /** `caption` is `item.caption.text` when both levels are present and the
      text is not nullish, and `""` otherwise (never `null`). */
  lemma CaptionDefaultsToEmpty(item: Json)
    requires !Nullish(item)
    ensures var text := Dig(item, CaptionPath);
      NormalizeItem(item).value.caption == (if Nullish(text) then Str("") else text)
    ensures NormalizeItem(item).value.caption != Null
    ensures Nullish(Own(item, "caption")) ==> NormalizeItem(item).value.caption == Str("")
  {
    PlainThenOptional(item, Name("caption"), CaptionText);
    PropIsOwn(item, "caption");
  }

  /** `image_url` is the first candidate's URL when present, else the first
      frame's URL when present, else `null`. */
  lemma ImageUrlPreference(item: Json)
    requires !Nullish(item)
    ensures var primary := Dig(item, PrimaryImagePath);
      var frame := Dig(item, FirstFramePath);
      NormalizeItem(item).value.imageUrl ==
        (if !Nullish(primary) then primary else if !Nullish(frame) then frame else Null)
  {
    PlainThenOptional(item, Name("image_versions2"), CandidateUrl);
    PlainThenOptional(item, Name("additional_candidates"), FirstFrameUrl);
  }

  /** `video_url` is the first video version's URL when present, else `null`. */
  lemma VideoUrlFirstVersion(item: Json)
    requires !Nullish(item)
    ensures var first := Dig(item, VideoPath);
      NormalizeItem(item).value.videoUrl == (if Nullish(first) then Null else first)
  {
    PlainThenOptional(item, Name("video_versions"), FirstVersionUrl);
  }

  /** `user` is `null` exactly when `item.user` is falsy; otherwise each of its
      five fields copies the raw author's field with a `null` default. */
  lemma UserSummaryExactlyWhenTruthy(item: Json)
    requires !Nullish(item)
    ensures var u := Own(item, "user");
      NormalizeItem(item).value.user.NoAuthor? <==> !Truthy(u)
    ensures var u := Own(item, "user");
      Truthy(u) ==> NormalizeItem(item).value.user == NormalizeAuthor(u)
  {
    PropIsOwn(item, "user");
  }
}
