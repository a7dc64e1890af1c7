# Instagram feed proxy handler, modelled in Dafny

The repository is a single serverless HTTP handler, `api/instagram.js`. Given a
`username` query parameter it asks a third-party data provider for that
account's numeric `UserID`, then for the account's post feed. It reshapes every
raw post into a fixed-shape record and answers with
`{ username, user_id, post_count, posts }`. Each failure has its own status:
400 for a missing username, 500 for a missing API key, 404 when the account is
not found, 500 when the feed fails, and 500 with a `detail` for any exception.

This project models that handler with the network taken out. The request, the
`RAPIDAPI_KEY` setting and the two provider replies are inputs. The handler
becomes a total function from those inputs to the response it sends and the
provider calls it makes. The reshaping of posts becomes a pure function from a
loosely typed JSON value to a fixed record.

- `json_value.dfy`, module `JsonValue`: the `Json` datatype, including
  `undefined`. It also holds the JavaScript semantics the handler depends on:
  plain member access that throws on `null`/`undefined` (`Get`), optional
  chaining (`OptGet`, and `Dig` for whole chains), nullish coalescing
  (`Coalesce`) and truthiness (`Truthy`).
- `posts.dfy`, module `Posts`: the per-item normalization (`NormalizeItem`),
  the `items.map` over it (`NormalizeAll`) and the serialized post shape
  (`PostJson`).
- `handler.dfy`, module `Handler`: the control flow of the handler (`Handle`),
  the `try` block (`TryFetch`, `FetchPosts`) and the serialized response body
  (`BodyJson`).
- `scenarios.dfy`, module `Scenarios`: concrete exchanges, including a
  successful `instagram` lookup and the edge cases where nullish and falsy
  checks differ.

Behaviour of the code worth stating up front:
- Every method other than `OPTIONS` goes through the same path; there is no
  method check.
- The lookup fails on a falsy `UserID`, so `0` and `""` give 404 like a missing
  one (`Scenarios.FalsyUserIdNotFound`).
- The API key is tested for truthiness, so an empty variable counts as missing.
- `res.json()` runs before the `ok` test. A failed reply whose body is not JSON
  therefore lands in the catch branch, not in the 404 or 500-with-`raw` branch.
- The `!ok || !data.UserID` test short-circuits. A failed lookup with a `null`
  body gives 404, while a successful lookup with a `null` body throws and gives
  500 with `detail` (`Scenarios.NullLookupBody`).

## Model

| member | source | states |
|---|---|---|
| JsonValue.Truthy | api/instagram.js:15 | JavaScript truthiness as used by `!username`, `!RAPIDAPI_KEY`, `!userIdData.UserID` and `item.user ? … : null`; a nullish value is never truthy |
| JsonValue.FalsyExactly | api/instagram.js:108 | the falsy JSON values are exactly `undefined`, `null`, `false`, `0` and `""`; empty arrays and objects are truthy |
| JsonValue.Decimal | api/instagram.js:100 | the key an index `[0]` reads on a plain object is the canonical decimal spelling of the index: digits only, no leading zero, and their value is the index |
| JsonValue.Get | api/instagram.js:83-89 | for the names the handler reads, a plain read `v.p` / `v[i]` throws a TypeError exactly on `null`/`undefined`; on an object it yields the own key or `undefined`, on an array the element or `undefined`, on a boolean or number `undefined` |
| JsonValue.Member | api/instagram.js:49-73 | reading `userIdData.UserID` or `postsData.items` throws a TypeError exactly on a nullish body and otherwise yields the body's own key, `undefined` when absent or when the body is not an object |
| JsonValue.OptGet | api/instagram.js:92 | `v?.p` is `undefined` on a nullish value and the plain read otherwise, so it never throws |
| JsonValue.Coalesce | api/instagram.js:83-96 | `a ?? b` replaces only `null`/`undefined`; any other value, falsy ones included, is kept |
| JsonValue.PropIsOwn | api/instagram.js:83-89 | for the identifiers the handler reads (none of them `length` or inherited), reading it from any non-nullish value is the object's own-key lookup, and `undefined` on non-objects |
| JsonValue.ToStringThrows | api/instagram.js:35-36 | the string conversion `encodeURIComponent` applies throws only for an object (one with an own `toString` key) or a non-empty array (one holding such an element); strings, numbers, booleans and `null` always convert |
| JsonValue.Dig | api/instagram.js:99-105 | an optional chain read step by step: a one-step chain is `v?.p`, and a chain starting on a nullish value is `undefined` however long, as JavaScript short-circuits the whole rest of the chain |
| JsonValue.CoalesceAssociative | api/instagram.js:99-102 | `??` is associative, so the left-grouped `a ?? b ?? null` yields the first non-nullish operand, else the last |
| JsonValue.DigAppend | api/instagram.js:99-105 | optional chains compose: reading path `p + q` equals reading `q` from the end of `p` |
| JsonValue.DigPrefixesPresent | api/instagram.js:99-105 | an optional chain yields a non-nullish value only if every intermediate level was non-nullish |
| JsonValue.PlainThenOptional | api/instagram.js:92 | `item.p?.q…` on a non-nullish item reads the same as the optional chain `p, q, …` from the item |
| Posts.OrNull | api/instagram.js:83-89 | `x ?? null` keeps a non-nullish value, maps nullish to `null`, and is never `undefined` |
| Posts.NormalizeAuthor | api/instagram.js:108-116 | the author summary's five fields copy `pk`, `username`, `full_name`, `profile_pic_url`, `is_verified` of the raw author with a `null` default |
| Posts.NormalizeItem | api/instagram.js:81-117 | normalizing an item throws (a TypeError) exactly when the item is `null`/`undefined`; otherwise every output field is present (none `undefined`) |
| Posts.NormalizeAll | api/instagram.js:81 | the `map` succeeds exactly when no item is nullish; it then preserves length and order, post `i` being the normalization of item `i` |
| Posts.PostJsonKeys | api/instagram.js:83-116 | whatever its fields hold, a post serializes to exactly the eleven keys `media_id` … `user` |
| Posts.AuthorJsonComplete | api/instagram.js:108-116 | an author summary whose fields are defined serializes to exactly `id`, `username`, `full_name`, `profile_pic_url`, `is_verified`, none `undefined` |
| Posts.PostJsonComplete | api/instagram.js:81-117 | a normalized post serializes to exactly the eleven keys, none `undefined`, and a present author to exactly its five keys |
| Posts.ScalarFieldsKeepPresentValues | api/instagram.js:83-96 | each of `media_id`, `pk`, `code`, `media_type`, `taken_at`, `like_count`, `comment_count` equals the raw key's value when that is non-nullish (including `0`, `false`, `""`) and `null` otherwise |
| Posts.CaptionDefaultsToEmpty | api/instagram.js:92 | `caption` is `item.caption.text` when both levels are present and the text is non-nullish, else `""`; it is never `null` |
| Posts.ImageUrlPreference | api/instagram.js:99-102 | `image_url` is the first image candidate's URL if non-nullish, else the first frame's URL if non-nullish, else `null` |
| Posts.VideoUrlFirstVersion | api/instagram.js:105 | `video_url` is the first video version's URL if non-nullish, else `null` |
| Posts.UserSummaryExactlyWhenTruthy | api/instagram.js:108-116 | `user` is `null` exactly when `item.user` is falsy; otherwise it is the author summary of `item.user` |
| Handler.KeyConfigured | api/instagram.js:21-30 | the key counts as configured exactly when the value `process.env.RAPIDAPI_KEY` yields (a string or `undefined`) is truthy |
| Handler.PostsJson | api/instagram.js:119-124 | the serialized `posts` array has one entry per post, and each well-formed post's entry has exactly the eleven keys, none `undefined` |
| Handler.FetchPosts | api/instagram.js:60-124 | a feed answer that does not throw has status 200 or 500 |
| Handler.TryFetch | api/instagram.js:32-78 | the `try` block makes no call, and throws a TypeError, exactly when the username's string conversion throws; otherwise it makes the lookup call first, with the username, and at most one more call |
| Handler.Handle | api/instagram.js:9-130 | OPTIONS gives an empty 200 with no calls. 400 exactly for a falsy username, before the key check. The missing-key 500 only once the username passed. 404 with the lookup body exactly for a failed lookup or a falsy `UserID`, without a feed call. The lookup is called exactly when both guards passed and the username converts to a string. The feed is called exactly after a truthy `UserID` that converts to a string, with that id. 500 with the feed body exactly for a failed feed or non-array `items`. A success echoes the username and `UserID` with `post_count` = number of items and `posts[i]` = normalized `items[i]`. 500 with `detail` exactly when the username's or the `UserID`'s string conversion throws, a call is unavailable, a successful reply's body is `null`, or an item throws |
| Handler.ResponseBodyShape | api/instagram.js:15-130 | every error response has an `error` key and a non-200 status; a success body has exactly `username`, `user_id`, `post_count`, `posts`, with `post_count` the length of `posts` and every post carrying all eleven keys |
| Scenarios.ExampleItemNormalizes | api/instagram.js:81-117 | the example photo post normalizes to `media_id "1"`, `code "abc"`, `media_type 1`, `caption "hi"`, `like_count 5`, everything else `null` |
| Scenarios.ExampleFeedFetches | api/instagram.js:71-124 | the example feed yields a 200 with one normalized post |
| Scenarios.TryFetchReachesFeed | api/instagram.js:47-61 | once the username converts and a successful lookup holds a truthy `UserID` that converts, the `try` block is the feed fetch with that id, after exactly the lookup and feed calls |
| Scenarios.InstagramAttempt | api/instagram.js:32-124 | the `try` block of the `instagram` exchange yields the 200 with the example post after the two calls |
| Scenarios.InstagramExchange | api/instagram.js:9-124 | the `instagram` → `25025320` exchange answers 200 with that username, id, `post_count` 1 and the example post, after exactly the two calls |
| Scenarios.UsernameCheckedBeforeKey | api/instagram.js:15-30 | a missing or empty username with a missing key still gives 400 and no calls |
| Scenarios.EmptyKeyIsMissing | api/instagram.js:21-30 | an empty `RAPIDAPI_KEY` gives the missing-key 500 |
| Scenarios.NullLookupBody | api/instagram.js:47-53 | a `null` lookup body gives 404 when the status failed and a 500 `detail` (TypeError) when it succeeded |
| Scenarios.FalsyUserIdNotFound | api/instagram.js:49-53 | a `UserID` of `0` or `""` gives 404 |
| Scenarios.ShadowedToStringUserId | api/instagram.js:55-61 | a `UserID` of `{"toString":0}`, or an array holding one, passes the truthiness test but makes `encodeURIComponent` throw: 500 with a TypeError `detail` after the lookup call only |
| Scenarios.PlainObjectUserIdFetches | api/instagram.js:55-61 | a `UserID` object without an own `toString` converts, so the feed is called with it |
| Scenarios.NullItemFailsWholeFeed | api/instagram.js:81-130 | a `null` item makes the whole request a 500 `detail`, with no partial list |
| Scenarios.NonArrayItemsRejected | api/instagram.js:73-78 | an object `items` gives 500 echoing the feed body |
| Scenarios.EmptyItemIsBare | api/instagram.js:81-117 | an item with no fields normalizes to all-`null` fields, caption `""` and no author |
| Scenarios.FalsyValuesKept | api/instagram.js:83-96 | `0`, `false` and `""` survive normalization unchanged |
| Scenarios.ImageFallsBackToFirstFrame | api/instagram.js:99-116 | an empty candidate list falls back to the first-frame URL, and an author `""` gives `user: null` |
| Scenarios.EmptyAuthorIsAllNull | api/instagram.js:108-116 | an author `{}` is truthy and gives a summary whose fields are all `null` |

## Left out

- The two `fetch` calls and `res.json()` parsing are I/O and are not modelled. Of the URLs built with `encodeURIComponent`, only whether the string conversion of the value throws is modelled (`ToStringThrows`); the percent-encoded text itself is not, since it is only sent over the network. Each reply is an input: `Unavailable` (the request rejected or the body did not parse) or `Reply(ok, data)`. The calls made are recorded as `Call` values carrying the query value they pass.
- `process.env` is I/O; `RAPIDAPI_KEY` is an input `Setting`.
- The CORS headers (lines 5-7) are constant side effects with no branching.
- `console.error` logging (line 126) is a side effect only.
- The human-readable `error` texts are opaque `Message` values, serialized as fixed labels, not the handler's Turkish wording.
- The exception's `message` in `detail` is modelled only by its kind (`TypeError` or `UpstreamError`), not its text.
- NaN is not representable in `Json`, since `JSON.parse` cannot produce it; numbers are unbounded reals.
- `Json` numbers are finite, so the `Infinity` that `JSON.parse` yields for an overflowing literal such as `1e400` is not representable. The handler's branching would not change, since `Infinity` is truthy, not nullish and converts to a string. The output would: `JSON.stringify` writes `Infinity` as `null`, so `{"UserID":1e400}` comes back with `user_id: null`.
- `Get` treats a `Name` on an array or string as `length` or `undefined`. It does not model numeric-string names such as `arr["0"]`, which the handler never uses.
- JavaScript strings are UTF-16 code-unit sequences. Indexing a string in `Get` works on Dafny characters.
- Handler.FetchPosts: its own contract only bounds the status; what it returns in each case is stated in `Handle`'s contract.
- Handler.TryFetch: its own contract only fixes the first call and the call count; its outcomes are stated in `Handle`'s contract.
- `BodyJson` writes the preflight's missing payload as `undefined`.
- JsonValue.Get: inherited prototype properties (`toString`, `constructor`, `valueOf`, `map`, …) are not modelled; every read yields only own keys, elements and `length`. The handler reads none of the inherited names.
- Handler.Handle: a string `UserID` or username always converts. In JavaScript, `encodeURIComponent` also throws a URIError on a string holding a lone surrogate (a lookup body `{"UserID":"\ud800"}`), which would end in a 500 `detail` after one call. Dafny's `char` excludes surrogates, so such a string cannot be represented here. The TypeError from an object with an own `toString` (`{"UserID":{"toString":0}}` or `{"UserID":[{"toString":0}]}`) is modelled.
- `Obj` is an unordered map, while `JSON.stringify` writes keys in insertion order. The key order of the echoed `raw` bodies and of the serialized posts is therefore not modelled; the handler never branches on it.
