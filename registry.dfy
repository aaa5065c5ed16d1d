/** The tool registry: nine named tools, each of which parses its arguments with
    its own schema and then makes exactly one manager call. The same table is
    exposed under `th_*` names and under `threads_*` names. */
module Registry {
  import opened Core
  import opened Graph
  import opened Containers
  import opened Schemas
  import opened Threads

  datatype ToolName =
    | PostThread | PostPhoto | PostVideo | PostCarousel | GetReplies | Reply
    | GetUserThreads | GetUserInsights | GetPublishingLimit

  /** The tools in the order their schemas are declared. */
  const SchemaOrder: seq<ToolName> :=
    [PostThread, GetUserThreads, PostPhoto, PostVideo, PostCarousel, GetReplies, Reply,
     GetUserInsights, GetPublishingLimit]

  /** The handler key of a tool in the `th_*` registry. */
  function HandlerName(t: ToolName): string {
    match t
    case PostThread => "th_post_thread"
    case PostPhoto => "th_post_photo"
    case PostVideo => "th_post_video"
    case PostCarousel => "th_post_carousel"
    case GetReplies => "th_get_replies"
    case Reply => "th_reply"
    case GetUserThreads => "th_get_user_threads"
    case GetUserInsights => "th_get_user_insights"
    case GetPublishingLimit => "th_get_publishing_limit"
  }

  /** The name of a tool in the `threads_*` registry. */
  function ToolTitle(t: ToolName): string {
    match t
    case PostThread => "threads_post"
    case PostPhoto => "threads_post_photo"
    case PostVideo => "threads_post_video"
    case PostCarousel => "threads_post_carousel"
    case GetReplies => "threads_get_replies"
    case Reply => "threads_reply"
    case GetUserThreads => "threads_get_user_threads"
    case GetUserInsights => "threads_get_insights"
    case GetPublishingLimit => "threads_get_publishing_limit"
  }

  /** The description table of the `th_*` registry. */
  function Description(t: ToolName): string {
    match t
    case PostThread => "Publish a new Thread (text, media, or link)."
    case PostPhoto => "Publish a Photo Thread."
    case PostVideo => "Publish a Video Thread."
    case PostCarousel => "Publish a Carousel Thread."
    case GetReplies => "Get replies to a specific thread."
    case Reply => "Reply to a thread or comment."
    case GetUserThreads => "Get a list of threads published by the user."
    case GetUserInsights => "Get insights for the Threads user account."
    case GetPublishingLimit => "Check your current Threads publishing rate limits and quota usage."
  }

  /** The handler table's key set. */
  const HandlerNames: set<string> :=
    {"th_post_thread", "th_post_photo", "th_post_video", "th_post_carousel", "th_get_replies",
     "th_reply", "th_get_user_threads", "th_get_user_insights", "th_get_publishing_limit"}

  datatype Definition = Definition(name: string, description: string)

  /** The tool catalogue, one entry per declared schema, in declaration order. */
  function Definitions(): (defs: seq<Definition>)
    ensures |defs| == |SchemaOrder|
    ensures forall i :: 0 <= i < |defs| ==>
              defs[i] == Definition(HandlerName(SchemaOrder[i]), Description(SchemaOrder[i]))
  {
    seq(|SchemaOrder|, i requires 0 <= i < |SchemaOrder| =>
      Definition(HandlerName(SchemaOrder[i]), Description(SchemaOrder[i])))
  }

  /** Finding the handler of a `th_*` name. */
  function Lookup(name: string): (r: Option<ToolName>)
    ensures r.Some? ==> HandlerName(r.value) == name
    ensures r.None? ==> name !in HandlerNames
  {
    if name == "th_post_thread" then Some(PostThread)
    else if name == "th_post_photo" then Some(PostPhoto)
    else if name == "th_post_video" then Some(PostVideo)
    else if name == "th_post_carousel" then Some(PostCarousel)
    else if name == "th_get_replies" then Some(GetReplies)
    else if name == "th_reply" then Some(Reply)
    else if name == "th_get_user_threads" then Some(GetUserThreads)
    else if name == "th_get_user_insights" then Some(GetUserInsights)
    else if name == "th_get_publishing_limit" then Some(GetPublishingLimit)
    else None
  }

  /** Every tool has a handler key, every key finds its tool back, and so no two tools
      share a key. */
  lemma HandlerNamesRoundTrip(t: ToolName)
    ensures HandlerName(t) in HandlerNames
    ensures Lookup(HandlerName(t)) == Some(t)
  {
  }

  /** The catalogue lists the tools in declaration order, each once. */
  lemma SchemaOrderDistinct()
    ensures forall i, j :: 0 <= i < j < |SchemaOrder| ==> SchemaOrder[i] != SchemaOrder[j]
    ensures forall t :: t in SchemaOrder
  {
    forall t ensures t in SchemaOrder {
      match t
      case PostThread => assert SchemaOrder[0] == t;
      case GetUserThreads => assert SchemaOrder[1] == t;
      case PostPhoto => assert SchemaOrder[2] == t;
      case PostVideo => assert SchemaOrder[3] == t;
      case PostCarousel => assert SchemaOrder[4] == t;
      case GetReplies => assert SchemaOrder[5] == t;
      case Reply => assert SchemaOrder[6] == t;
      case GetUserInsights => assert SchemaOrder[7] == t;
      case GetPublishingLimit => assert SchemaOrder[8] == t;
    }
  }

  /** The catalogue names exactly the handler keys, each once. */
  lemma DefinitionsMatchHandlers()
    ensures (set i | 0 <= i < |Definitions()| :: Definitions()[i].name) == HandlerNames
    ensures forall i, j :: 0 <= i < j < |Definitions()| ==> Definitions()[i].name != Definitions()[j].name
  {
    var defs := Definitions();
    SchemaOrderDistinct();
    forall i, j | 0 <= i < j < |defs| ensures defs[i].name != defs[j].name {
      HandlerNamesRoundTrip(SchemaOrder[i]);
      HandlerNamesRoundTrip(SchemaOrder[j]);
    }
    var names := set i | 0 <= i < |defs| :: defs[i].name;
    forall i | 0 <= i < |defs| ensures defs[i].name in HandlerNames {
      HandlerNamesRoundTrip(SchemaOrder[i]);
    }
    forall name | name in HandlerNames ensures name in names {
      var t := Lookup(name).value;
      assert t in SchemaOrder;
      var i :| 0 <= i < |SchemaOrder| && SchemaOrder[i] == t;
      assert defs[i].name == name;
    }
  }

  /** The `threads_*` names are distinct as well. */
  lemma ToolTitlesDistinct(t: ToolName, u: ToolName)
    ensures ToolTitle(t) == ToolTitle(u) ==> t == u
  {
  }

  // ---------------------------------------------------------------------------
  // Dispatch
  // ---------------------------------------------------------------------------

  /** The manager call a handler makes, with the arguments it passes. */
  datatype Call =
    | PostThreadCall(text: Option<string>, kind: MediaType, url: Option<string>, options: Record)
    | PostCarouselCall(items: seq<CarouselItem>, caption: Option<string>)
    | GetRepliesCall(mediaId: string, limit: Option<real>, cursor: Option<string>)
    | ReplyCall(replyTo: string, replyText: string)
    | GetUserThreadsCall(count: Option<real>)
    | GetUserInsightsCall
    | GetPublishingLimitCall

  predicate WellFormed(c: Call) {
    c.PostThreadCall? ==> c.options.Keys <= OptionKeys
  }

  /** `{reply_control, quote_post_id, link_attachment, alt_text}` from the parsed arguments;
      an absent option is passed as an undefined entry. */
  function PostOptions(p: PostThreadArgs): Record {
    map["reply_control" := OptionalReply(p.replyControl),
        "quote_post_id" := OptionalStr(p.quotePostId),
        "link_attachment" := OptionalStr(p.linkAttachment),
        "alt_text" := OptionalStr(p.altText)]
  }

  /** The handler body up to the manager call: parse with the tool's own schema, then
      choose the call and its arguments. */
  function Dispatch(t: ToolName, args: Record, isUrl: string -> bool): (r: Result<Call>)
    ensures r.Success? ==> WellFormed(r.value)
    ensures r.Failure? ==> r.error.SchemaError? && r.error.issues != []
    ensures t == PostThread ==>
      && (r.Success? <==> ValidatePostThread(args, isUrl).Success?)
      && (r.Success? ==> var p := ValidatePostThread(args, isUrl).value;
            && r.value.PostThreadCall?
            && r.value == PostThreadCall(p.text, p.mediaType, p.mediaUrl, r.value.options)
            && r.value.options.Keys == {"reply_control", "quote_post_id", "link_attachment", "alt_text"}
            && r.value.options["reply_control"] == Field(args, "reply_control")
            && r.value.options["quote_post_id"] == Field(args, "quote_post_id")
            && r.value.options["link_attachment"] == Field(args, "link_attachment")
            && r.value.options["alt_text"] == Field(args, "alt_text"))
    ensures t in {PostPhoto, PostVideo} ==>
      && (r.Success? <==> ValidatePostMedia(args, isUrl).Success?)
      && (r.Success? ==> var p := ValidatePostMedia(args, isUrl).value;
            r.value == PostThreadCall(p.text, if t == PostPhoto then IMAGE else VIDEO, Some(p.url),
                                      map["alt_text" := Field(args, "alt_text")]))
    ensures t == PostCarousel ==>
      && (r.Success? <==> ValidatePostCarousel(args, isUrl).Success?)
      && (r.Success? ==> var p := ValidatePostCarousel(args, isUrl).value; r.value == PostCarouselCall(p.items, p.text))
    ensures t == GetReplies ==>
      && (r.Success? <==> ValidateGetReplies(args).Success?)
      && (r.Success? ==> var p := ValidateGetReplies(args).value;
            r.value == GetRepliesCall(p.mediaId, Some(p.limit as real), p.cursor))
    ensures t == Reply ==>
      && (r.Success? <==> ValidateReply(args).Success?)
      && (r.Success? ==> var p := ValidateReply(args).value; r.value == ReplyCall(p.mediaId, p.text))
    ensures t == GetUserThreads ==>
      && (r.Success? <==> ValidateGetUserThreads(args).Success?)
      && (r.Success? ==> r.value == GetUserThreadsCall(Some(ValidateGetUserThreads(args).value as real)))
    ensures t == GetUserInsights ==> r == Success(GetUserInsightsCall)
    ensures t == GetPublishingLimit ==> r == Success(GetPublishingLimitCall)
  {
    match t
    case PostThread =>
      var parsed := ValidatePostThread(args, isUrl);
      if parsed.Failure? then Failure(parsed.error)
      else
        var p := parsed.value;
        Success(PostThreadCall(p.text, p.mediaType, p.mediaUrl, PostOptions(p)))
    case PostPhoto =>
      var parsed := ValidatePostMedia(args, isUrl);
      if parsed.Failure? then Failure(parsed.error)
      else Success(PostThreadCall(parsed.value.text, IMAGE, Some(parsed.value.url),
                                  map["alt_text" := OptionalStr(parsed.value.altText)]))
    case PostVideo =>
      var parsed := ValidatePostMedia(args, isUrl);
      if parsed.Failure? then Failure(parsed.error)
      else Success(PostThreadCall(parsed.value.text, VIDEO, Some(parsed.value.url),
                                  map["alt_text" := OptionalStr(parsed.value.altText)]))
    case PostCarousel =>
      var parsed := ValidatePostCarousel(args, isUrl);
      if parsed.Failure? then Failure(parsed.error)
      else Success(PostCarouselCall(parsed.value.items, parsed.value.text))
    case GetReplies =>
      var parsed := ValidateGetReplies(args);
      if parsed.Failure? then Failure(parsed.error)
      else Success(GetRepliesCall(parsed.value.mediaId, Some(parsed.value.limit as real), parsed.value.cursor))
    case Reply =>
      var parsed := ValidateReply(args);
      if parsed.Failure? then Failure(parsed.error)
      else Success(ReplyCall(parsed.value.mediaId, parsed.value.text))
    case GetUserThreads =>
      var parsed := ValidateGetUserThreads(args);
      if parsed.Failure? then Failure(parsed.error)
      else Success(GetUserThreadsCall(Some(parsed.value as real)))
    case GetUserInsights => Success(GetUserInsightsCall)
    case GetPublishingLimit => Success(GetPublishingLimitCall)
  }

  /** The insights and publishing-limit handlers ignore their arguments. */
  lemma ArgumentFreeTools(t: ToolName, args: Record, other: Record, isUrl: string -> bool)
    requires t in {GetUserInsights, GetPublishingLimit}
    ensures Dispatch(t, args, isUrl) == Dispatch(t, other, isUrl)
  {
  }

  /** The manager call itself. */
  function CallRun(userId: string, c: Call, o: Oracle): (r: (Result<Value>, Oracle))
    requires WellFormed(c)
  {
    match c
    case PostThreadCall(text, kind, url, options) => PostThreadRun(userId, text, kind, url, options, o)
    case PostCarouselCall(items, caption) => CarouselRun(userId, items, caption, o)
    case GetRepliesCall(mediaId, limit, cursor) => GetRepliesRun(mediaId, limit, cursor, o)
    case ReplyCall(replyTo, replyText) => ReplyToThreadRun(userId, replyTo, replyText, o)
    case GetUserThreadsCall(count) => GetUserThreadsRun(userId, count, o)
    case GetUserInsightsCall => GetUserInsightsRun(userId, o)
    case GetPublishingLimitCall => GetPublishingLimitRun(userId, o)
  }

  /** A handler: arguments the schema rejects never reach the manager, so no request is made. */
  function ExecuteRun(userId: string, t: ToolName, args: Record, isUrl: string -> bool, o: Oracle)
    : (r: (Result<Value>, Oracle))
    ensures Dispatch(t, args, isUrl).Failure? ==> r == (Failure(Dispatch(t, args, isUrl).error), o)
    ensures Dispatch(t, args, isUrl).Failure? ==> r.0.error.SchemaError?
    ensures Dispatch(t, args, isUrl).Success? ==> r == CallRun(userId, Dispatch(t, args, isUrl).value, o)
  {
    var call := Dispatch(t, args, isUrl);
    if call.Failure? then (Failure(call.error), o) else CallRun(userId, call.value, o)
  }

  /** Parsing `{media_id: "123", limit: 10}` for the replies tool sends one GET to
      `/123/replies` with the reply fields, limit 10 and an undefined cursor. */
  lemma RepliesExample(userId: string, isUrl: string -> bool, o: Oracle)
    ensures var args := map["media_id" := Str("123"), "limit" := Num(10.0)];
            ExecuteRun(userId, GetReplies, args, isUrl, o).1.log
              == o.log + [Request(GET, "/123/replies",
                                  map["fields" := Str(ReplyFields), "limit" := Num(10.0), "after" := Undefined])]
  {
    var args := map["media_id" := Str("123"), "limit" := Num(10.0)];
    assert IsInteger(10.0);
    var parsed := ValidateGetReplies(args);
    assert parsed.Success? && parsed.value.limit == 10 && parsed.value.cursor == None;
    assert RepliesEndpoint("123") == "/123/replies";
  }

  /** An IMAGE post with a URL and no text passes the schema, and its container carries
      the URL under `image_url` and no `video_url`. */
  lemma ImageWithoutText(userId: string, url: string, isUrl: string -> bool, o: Oracle)
    requires isUrl(url) && url != ""
    ensures var args := map["media_type" := Str("IMAGE"), "media_url" := Str(url)];
            var r := ExecuteRun(userId, PostThread, args, isUrl, o);
            && Dispatch(PostThread, args, isUrl).Success?
            && |r.1.log| > |o.log|
            && r.1.log[|o.log|].params["image_url"] == Str(url)
            && "video_url" !in r.1.log[|o.log|].params
  {
  }

  /** The registry bound to one manager: run the named tool's handler. */
  method Execute(m: ThreadsManager, t: ToolName, args: Record, isUrl: string -> bool) returns (r: Result<Value>)
    modifies m.graph
    ensures (r, m.graph.State()) == ExecuteRun(m.userId, t, args, isUrl, old(m.graph.State()))
  {
    var call := Dispatch(t, args, isUrl);
    if call.Failure? {
      return Failure(call.error);
    }
    match call.value {
      case PostThreadCall(text, kind, url, options) => r := m.PostThread(text, kind, url, options);
      case PostCarouselCall(items, caption) => r := m.PostCarousel(items, caption);
      case GetRepliesCall(mediaId, limit, cursor) => r := m.GetReplies(mediaId, limit, cursor);
      case ReplyCall(replyTo, replyText) => r := m.ReplyToThread(replyTo, replyText);
      case GetUserThreadsCall(count) => r := m.GetUserThreads(count);
      case GetUserInsightsCall => r := m.GetUserInsights();
      case GetPublishingLimitCall => r := m.GetPublishingLimit();
    }
  }

  // ---------------------------------------------------------------------------
  // The four-key schema table of the older variant
  // ---------------------------------------------------------------------------

  /** The schema keys the four-key table declares, and its description keys. */
  const DeclaredSchemaNames: set<string> :=
    {"th_post_thread", "th_get_user_threads", "th_get_user_insights", "th_get_publishing_limit"}
  const DeclaredDescriptionNames: set<string> :=
    {"th_post_thread", "th_get_user_threads", "th_get_user_insights", "th_get_publishing_limit"}

  /** The four-key table is consistent in itself: descriptions and schemas share keys. */
  lemma DeclaredTablesAgree()
    ensures DeclaredDescriptionNames == DeclaredSchemaNames
  {
  }

  /** As written, five handler keys have no declared schema, so their handlers parse
      with a schema that does not exist. */
  lemma HandlersWithoutSchema()
    ensures HandlerNames - DeclaredSchemaNames
         == {"th_post_photo", "th_post_video", "th_post_carousel", "th_get_replies", "th_reply"}
    ensures HandlerNames != DeclaredSchemaNames
  {
  }
}
