# Threads Graph API binding — a Dafny model

This project models the core of a small TypeScript binding over Meta's Threads
Graph API: the `ThreadsManager` that turns one call into a sequence of Graph
requests (create a media container, then publish it; one child container per
carousel item, then an aggregate container; one GET for each read operation),
the argument schemas that validate tool input, and the tool registry that
dispatches a tool name to exactly one manager call.

The Graph client is replaced by a scripted oracle (`Graph.Client`): a queue of
answers consumed one per request, and a log to which every request
`(method, endpoint, params)` is appended. Each manager operation is a method of a
class holding that client, and is proved equal to a pure `...Run` function over
the client's state as a value (`Graph.Oracle`). The trace properties — how many
requests, in what order, with exactly which params, and none after a failed
check — are stated on those functions and in lemmas about them.

Files and modules:

- `core.dfy` (`Core`): JavaScript values (`undefined`, `null`, booleans, numbers, strings, arrays, objects), truthiness, property access, the error kinds, and the media-kind and reply-control enumerations.
- `text.dfy` (`Text`): `join(",")`, a reference `split`, and the round trip between them.
- `graph.dfy` (`Graph`): the oracle, its request log, and the client class.
- `containers.dfy` (`Containers`): the params of a post's container, a carousel child container, and the carousel aggregate.
- `schemas.dfy` (`Schemas`): the argument schemas as validators that return typed arguments or the names of the rejected fields.
- `threads.dfy` (`Threads`): the nine-operation manager of `src/index.ts`.
- `legacy.dfy` (`Legacy`): the four-operation manager of `src/manager.ts`, and how it differs from the canonical one.
- `registry.dfy` (`Registry`): the nine tools, their name and description tables, dispatch, and the four-key schema table of `src/toolSchemas.ts`.

The schema library's URL check is a parameter `isUrl`. Environment variables are
passed in as two optional strings. A constructor that throws is a static method
returning a `Result`.

## Model

| member | source | states |
|---|---|---|
| Text.JoinAppend | src/index.ts:161 | joining two non-empty id lists is joining each with exactly one comma between them, so the join keeps the ids in order |
| Text.SplitJoin | src/index.ts:161 | splitting the comma-join of comma-free ids at the commas gives back the ids, in order |
| Graph.Perform | src/manager.ts:26-34 | a request is appended to the log and consumes one answer; it succeeds with the answer's body exactly when the answer is a body, and otherwise fails with a transport error |
| Graph.Client.Send | src/manager.ts:26-34 | the client's new state and result are those of `Perform` on its old state |
| Containers.ContainerParams | src/index.ts:117-125 | `media_type` and `text` are present, every option is kept verbatim, a truthy URL goes under `image_url` for IMAGE and under `video_url` for any other kind (TEXT included), and with no URL neither field exists; the key set is exactly that |
| Containers.ChildParams | src/index.ts:143-149 | a child has `is_carousel_item: true`, its URL under the field of its kind, `alt_text` exactly when it is non-empty, and no other keys |
| Containers.AggregateParams | src/index.ts:159-163 | the aggregate is `CAROUSEL` with `children` the comma-join of the ids and `text` exactly when it is non-empty |
| Schemas.RequiredString | src/index.ts:51 | accepts exactly a string and returns it; otherwise reports the field |
| Schemas.OptionalString | src/index.ts:15 | accepts exactly an absent field or a string and returns it unchanged |
| Schemas.RequiredUrl | src/index.ts:25 | accepts exactly a string that passes the URL check |
| Schemas.OptionalUrl | src/index.ts:17 | accepts an absent field or a string that passes the URL check |
| Schemas.MediaTypeDefaultText | src/index.ts:16 | accepts exactly absent, `TEXT`, `IMAGE`, `VIDEO`; absent becomes TEXT and a given kind is returned as given |
| Schemas.OptionalReplyControl | src/index.ts:18 | accepts exactly absent or one of the three reply-control names, and returns it unchanged |
| Schemas.LimitDefault25 | src/index.ts:52 | accepts absent (giving 25) or an integer number, within the bounds when the field is bounded, and returns it unchanged |
| Schemas.ValidatePostThread | src/index.ts:14-22 | success exactly when every field meets its constraint; the typed result stands for exactly the given fields, with media kind TEXT when absent; a rejection names at least one field (the same schema is the `th_post_thread` entry of src/toolSchemas.ts) |
| Schemas.ValidatePostMedia | src/index.ts:24-34 | the photo and video schemas: a URL-checked `url` is required, `text` and `alt_text` optional, all returned unchanged |
| Schemas.ItemOf | src/index.ts:39-43 | a valid carousel entry becomes an item that stands for exactly its fields, never of kind TEXT |
| Schemas.CarouselItems | src/index.ts:37-46 | accepts exactly an array of 2 to 10 valid entries; the items are those entries, in order, each with a checked URL |
| Schemas.ValidatePostCarousel | src/index.ts:36-48 | accepts exactly valid items and an optional text; 2 to 10 items, returned in order |
| Schemas.ValidateGetReplies | src/index.ts:50-54 | `media_id` is a required string, `limit` any integer with default 25, `cursor` optional |
| Schemas.ValidateReply | src/index.ts:56-59 | `media_id` and `text` are both required strings |
| Schemas.ValidateGetUserThreads | src/index.ts:61-63 | `limit` is absent (giving 25) or an integer with 1 <= limit <= 50; the result is always within 1..50 (also the `th_get_user_threads` entry of src/toolSchemas.ts) |
| Schemas.ParseCredentials | src/index.ts:65-68 | accepts exactly a non-empty token and a non-empty user id; otherwise reports exactly the empty ones, in order |
| Threads.PublishRun | src/index.ts:174-178 | exactly one POST to `/{userId}/threads_publish` with params exactly `{creation_id}`; the body is returned; a thrown request fails with the transport error unchanged |
| Threads.CreateThenPublish | src/index.ts:127-133 | the container POST comes first; a thrown request or a non-string id ends the call after that one request; a string id is published with a second request and nothing else, exactly as `PublishRun` does it, and its result is returned |
| Threads.PostThreadRun | src/index.ts:101-134 | TEXT with empty or absent text fails with no request; otherwise the container is created and published; success means exactly two POSTs, the container then the publish of its string id; a non-string id means failure with no publish |
| Threads.ReplyToThreadRun | src/index.ts:190-192 | an empty reply fails with no request; a non-empty reply is exactly the create-then-publish of a container whose params are exactly `media_type: TEXT`, `text` and `reply_to_id`, as `postThread` would do it |
| Threads.ChildStepAnswered | src/index.ts:151-152 | one loop iteration on an answered request: logged, one answer consumed, and the id kept when it is a string |
| Threads.ChildStepFailed | src/index.ts:151 | one loop iteration on a request that throws ends the loop |
| Threads.ChildrenAnswered | src/index.ts:142-153 | when every child request is answered, the loop makes one request per item in item order and collects the string ids of the answers in order |
| Threads.ChildrenAbort | src/index.ts:142-153 | when the k-th child request throws, exactly k + 1 child requests have been made |
| Threads.AbortedStays | src/index.ts:142-153 | once a child request has thrown, the remaining items change nothing |
| Threads.CarouselAnswered | src/index.ts:140-172 | with every child answered: N child POSTs in order, then a failure with no further request when no string id came back, otherwise the aggregate whose `children` is the collected ids and its publish |
| Threads.CarouselAborted | src/index.ts:140-172 | a child request that throws fails the carousel with no aggregate and no publish request |
| Threads.ChildrenRecoverable | src/index.ts:159-163 | the aggregate's `children` string gives back the collected comma-free ids, in order |
| Threads.GetRepliesRun | src/index.ts:182-188 | exactly one GET to `/{mediaId}/replies` with the reply fields, the limit (25 when absent) and the cursor; the page is returned unchanged; a thrown request fails with the transport error unchanged |
| Threads.GetUserThreadsRun | src/index.ts:194-200 | exactly one GET with the thread fields and the limit; returns `data`, or `[]` when it is absent; a thrown request fails with the transport error unchanged |
| Threads.GetUserInsightsRun | src/index.ts:204-210 | exactly one GET with the fixed metrics and the daily period; returns `data`, or `[]` when it is absent; a thrown request fails with the transport error unchanged |
| Threads.GetPublishingLimitRun | src/index.ts:212-218 | exactly one GET with the quota fields; returns `data` as it is; a thrown request fails with the transport error unchanged |
| Threads.ThreadsManager.Init | src/index.ts:85 | stores the user id and the client |
| Threads.ThreadsManager.New | src/index.ts:78-86 | a manager exists exactly when the credentials schema accepts; it holds a new client with an empty log |
| Threads.ThreadsManager.FromEnv | src/index.ts:88-97 | a missing or empty token or user id is a configuration error, before any client exists |
| Threads.ThreadsManager.PostThread | src/index.ts:101-134 | builds the params in place and agrees with `PostThreadRun` |
| Threads.ThreadsManager.PostCarousel | src/index.ts:136-172 | the loop that pushes ids agrees with `CarouselRun`, whose traces the carousel lemmas give |
| Threads.ThreadsManager.PublishThread | src/index.ts:174-178 | agrees with `PublishRun` |
| Threads.ThreadsManager.GetReplies | src/index.ts:182-188 | agrees with `GetRepliesRun` |
| Threads.ThreadsManager.ReplyToThread | src/index.ts:190-192 | calls `PostThread` and agrees with `ReplyToThreadRun` |
| Threads.ThreadsManager.GetUserThreads | src/index.ts:194-200 | agrees with `GetUserThreadsRun` |
| Threads.ThreadsManager.GetUserInsights | src/index.ts:204-210 | agrees with `GetUserInsightsRun` |
| Threads.ThreadsManager.GetPublishingLimit | src/index.ts:212-218 | agrees with `GetPublishingLimitRun` |
| Legacy.PublishRun | src/manager.ts:70-76 | exactly one POST to `{userId}/threads_publish` with params exactly `{creation_id}`; the body is returned; a thrown request fails with the transport error unchanged |
| Legacy.PostThreadRun | src/manager.ts:36-68 | TEXT with falsy text fails with no request; otherwise the container POST goes to `me/threads` with the container params; a thrown request or a falsy id fails after that one request; a truthy id, of any type, is then published exactly as `PublishRun` does it, and its result is returned |
| Legacy.NumericIdIsPublished | src/manager.ts:62-67 | for any arguments that pass the text check and any script, a non-zero numeric id is sent on as the `creation_id` (success exactly when the publish is answered), while the canonical manager fails on the same answer after one request |
| Legacy.StringIdVariantsAgree | src/manager.ts:62-67 | for a non-empty string id both variants have the same outcome, the same answers consumed, and the same request kinds and params in the same order |
| Legacy.EmptyIdVariantsDiffer | src/manager.ts:62-64 | for any arguments that pass the text check and any container answer whose `id` is `""`: the call fails with the container error after that one request, while the canonical manager publishes `creation_id = ""` with a second request and succeeds iff that request is answered |
| Legacy.GetUserThreadsRun | src/manager.ts:78-88 | exactly one GET to `{userId}/threads` with the limit (25 when absent); returns `data` unchanged; a thrown request fails with the transport error unchanged |
| Legacy.GetUserInsightsRun | src/manager.ts:90-100 | exactly one GET with the fixed metrics; returns `data` unchanged; a thrown request fails with the transport error unchanged |
| Legacy.GetPublishingLimitRun | src/manager.ts:102-111 | exactly one GET with the quota fields; returns `data` unchanged; a thrown request fails with the transport error unchanged |
| Legacy.ReadVariantsAgree | src/manager.ts:87 | with `data` present and not null, the read operations of both variants return the same value |
| Legacy.LegacyManager.constructor | src/manager.ts:9-13 | stores the client, the user id and the token |
| Legacy.LegacyManager.FromEnv | src/manager.ts:15-24 | a missing or empty user id or token is a configuration error, before any client exists |
| Legacy.LegacyManager.Request | src/manager.ts:26-34 | every request goes through the one client |
| Legacy.LegacyManager.PostThread | src/manager.ts:36-68 | agrees with `Legacy.PostThreadRun` |
| Legacy.LegacyManager.Publish | src/manager.ts:67 | publishes whatever id the container returned; agrees with `Legacy.PublishRun` |
| Legacy.LegacyManager.PublishThread | src/manager.ts:70-76 | agrees with `Legacy.PublishRun` |
| Legacy.LegacyManager.GetUserThreads | src/manager.ts:78-88 | agrees with `Legacy.GetUserThreadsRun` |
| Legacy.LegacyManager.GetUserInsights | src/manager.ts:90-100 | agrees with `Legacy.GetUserInsightsRun` |
| Legacy.LegacyManager.GetPublishingLimit | src/manager.ts:102-111 | agrees with `Legacy.GetPublishingLimitRun` |
| Registry.Lookup | src/toolRegistry.ts:8-44 | a name finds the tool whose handler key it is; a name that finds nothing is not a handler key |
| Registry.HandlerNamesRoundTrip | src/toolRegistry.ts:8-44 | every tool has a handler key and is found again by it, so no two tools share a key |
| Registry.SchemaOrderDistinct | dist/index.js:179-221 | the schema table lists every tool exactly once |
| Registry.DefinitionsMatchHandlers | src/toolRegistry.ts:46-48 | the definitions name exactly the handler keys, each once |
| Registry.ToolTitlesDistinct | src/index.ts:274-310 | no two tools share a `threads_*` name |
| Registry.Dispatch | src/toolRegistry.ts:9-43 | each handler succeeds exactly when its own schema accepts and then makes one call: `th_post_thread` forwards text, kind and URL and exactly the four options; photo and video always pass IMAGE and VIDEO, the `url` and only `alt_text`; carousel, replies, reply and user threads forward their parsed arguments; insights and publishing limit always succeed (the `threads_*` handlers of src/index.ts dispatch the same way) |
| Registry.ArgumentFreeTools | src/toolRegistry.ts:42-43 | the insights and publishing-limit handlers ignore their arguments |
| Registry.ExecuteRun | src/toolRegistry.ts:9-43 | arguments a schema rejects fail with a schema error and no request; accepted ones make the dispatched manager call |
| Registry.RepliesExample | src/toolRegistry.ts:30-33 | `{media_id: "123", limit: 10}` makes one GET to `/123/replies` with limit 10 and no cursor |
| Registry.ImageWithoutText | src/toolRegistry.ts:9-17 | an IMAGE post with a URL and no text passes, and its container carries the URL under `image_url` and no `video_url` |
| Registry.Execute | src/toolRegistry.ts:8-44 | the handler run against a manager agrees with `ExecuteRun` |
| Registry.DeclaredTablesAgree | src/toolSchemas.ts:3-25 | the four-key schema table and its description table have the same keys |
| Registry.HandlersWithoutSchema | src/toolRegistry.ts:18-37 | five handler keys have no schema in the four-key table |

## Left out

- The HTTP transport: base URL, API version, token signing, query-string versus body encoding and JSON parsing. A request is a logged `(method, endpoint, params)` triple and an answer is a parsed object or a failure.
- Answers past the end of the script behave as a failed request.
- `async`/`await`: every step is awaited in order, so the model is sequential.
- Response bodies that are not objects: a `null` or `undefined` body makes reading `id` throw a TypeError, while a number, string or boolean body has an undefined `id`, so the container check fails ("Failed to create Threads media container." in src/index.ts, "Failed to create threads container" in src/manager.ts); bodies are always objects here.
- NaN and the infinities: numbers are reals.
- The schema library's URL check, error formatting and issue order beyond the list of rejected top-level fields; `.describe` texts and JSON-schema generation (`buildRegistry`, `buildToolDefinitions`).
- Schemas.ValidatePostThread: a rejection is stated only to name at least one field, not which; the same holds for ValidatePostMedia, ValidatePostCarousel, ValidateGetReplies and ValidateReply, because issue lists are not part of the modelled behaviour.
- Threads.CarouselRun: has no contract of its own; its traces are stated by CarouselAnswered and CarouselAborted, which cover every script in which the child requests are answered or one of them throws.
- Registry.ExecuteRun: the `th_*` handlers are bound to the nine-operation manager of src/index.ts, whose container endpoint is `/{userId}/threads`, whose id check is `typeof id === "string"` and whose replies endpoint is `/{mediaId}/replies`. The source types them against the four-operation manager of src/manager.ts, which posts to `me/threads`, only checks that the id is truthy, and lacks `postCarousel`, `getReplies` and `replyToThread` (the bundled build's `getReplies` goes to `{mediaId}/replies`). The same holds for Registry.Execute.
- The `z.object({})` schemas of the insights and publishing-limit tools: their handlers never parse their arguments, which `Registry.ArgumentFreeTools` states.
- The descriptions of the `threads_*` registry in src/index.ts; only the `th_*` description table is modelled.
- Default arguments: the default media kind of `postThread` is passed explicitly by every caller in the model; the default limit of 25 is `LimitOrDefault`.
- `process.env` and `graphConfig`: two optional strings passed to `FromEnv`.
- The bundled build in `dist/`: it is built from another revision of src/manager.ts, src/toolSchemas.ts and src/toolRegistry.ts. Its manager adds `postCarousel`, `getReplies` and `replyToThread`, using `me/threads` and truthy-id checks, and its tables have nine keys. It is used only for the nine-key `th_*` schema and description tables. Its carousel publishes the aggregate without checking the id; the model follows `src/index.ts`, which checks it.
- `src/ai-sdk.ts`: a reshaping into another library's tool format, which is not part of this model.
- Response payload shapes (threads, insights, quota objects) are opaque values.
- The `th_post_thread` description in the four-key table ("Publish a new Thread.") differs from the bundled nine-key table; `Registry.Description` uses the nine-key one.

## Findings

| source | as written | input that shows it | evidently intended | confidence | as-written member | corrected member |
|---|---|---|---|---|---|---|
| src/toolRegistry.ts:18-37 | the photo, video, carousel, replies and reply handlers parse with `toolSchemas.th_post_photo` and the others, but the schema table in src/toolSchemas.ts:3-18 declares only four keys, so these five have no schema and the definitions built from that table list four tools, not nine | calling `th_post_photo` with `{url: "https://x/y.png"}` | a nine-key schema and description table, as in the bundled build, so that every handler has its schema and the definitions name exactly the handler keys | high; not executed | Registry.HandlersWithoutSchema | Registry.DefinitionsMatchHandlers |
