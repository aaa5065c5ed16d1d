/** The argument schemas of the tools: each parses a raw argument object into the
    typed, defaulted arguments of one manager call, or reports the fields it
    rejects. Unknown keys are ignored. A string's URL format is decided by the
    `isUrl` parameter, which stands for the schema library's URL check. */
module Schemas {
  import opened Core
  import opened Containers

  const DefaultLimit: int := 25

  /** The typed output of the post-thread schema. */
  datatype PostThreadArgs = PostThreadArgs(
    text: Option<string>,
    mediaType: MediaType,
    mediaUrl: Option<string>,
    replyControl: Option<ReplyControl>,
    quotePostId: Option<string>,
    linkAttachment: Option<string>,
    altText: Option<string>)

  /** The typed output of the photo and of the video schema (they have the same shape). */
  datatype PostMediaArgs = PostMediaArgs(url: string, text: Option<string>, altText: Option<string>)

  datatype PostCarouselArgs = PostCarouselArgs(items: seq<CarouselItem>, text: Option<string>)

  datatype GetRepliesArgs = GetRepliesArgs(mediaId: string, limit: int, cursor: Option<string>)

  datatype ReplyArgs = ReplyArgs(mediaId: string, text: string)

  datatype Credentials = Credentials(accessToken: string, userId: string)

  predicate IsInteger(n: real) {
    n.Floor as real == n
  }

  /** The string a parsed optional reply control stands for: its wire name, or undefined. */
  function OptionalReply(c: Option<ReplyControl>): Value {
    match c
    case None => Undefined
    case Some(rc) => Str(ReplyControlName(rc))
  }

  // ---------------------------------------------------------------------------
  // Field parsers: each reports its own key as the one issue when it rejects.
  // ---------------------------------------------------------------------------

  /** `z.string()` */
  function RequiredString(args: Record, key: string): (r: Result<string>)
    ensures r.Success? <==> Field(args, key).Str?
    ensures r.Success? ==> Field(args, key) == Str(r.value)
    ensures r.Failure? ==> r.error == SchemaError([key])
  {
    if Field(args, key).Str? then Success(Field(args, key).s) else Failure(SchemaError([key]))
  }

  /** `z.string().optional()` */
  function OptionalString(args: Record, key: string): (r: Result<Option<string>>)
    ensures r.Success? <==> Field(args, key).Undefined? || Field(args, key).Str?
    ensures r.Success? ==> OptionalStr(r.value) == Field(args, key)
    ensures r.Failure? ==> r.error == SchemaError([key])
  {
    match Field(args, key)
    case Undefined => Success(None)
    case Str(s) => Success(Some(s))
    case _ => Failure(SchemaError([key]))
  }

  /** `z.string().url()` */
  function RequiredUrl(args: Record, key: string, isUrl: string -> bool): (r: Result<string>)
    ensures r.Success? <==> Field(args, key).Str? && isUrl(Field(args, key).s)
    ensures r.Success? ==> Field(args, key) == Str(r.value)
    ensures r.Failure? ==> r.error == SchemaError([key])
  {
    var v := Field(args, key);
    if v.Str? && isUrl(v.s) then Success(v.s) else Failure(SchemaError([key]))
  }

  /** `z.string().url().optional()` */
  function OptionalUrl(args: Record, key: string, isUrl: string -> bool): (r: Result<Option<string>>)
    ensures r.Success? <==> Field(args, key).Undefined? || (Field(args, key).Str? && isUrl(Field(args, key).s))
    ensures r.Success? ==> OptionalStr(r.value) == Field(args, key)
    ensures r.Failure? ==> r.error == SchemaError([key])
  {
    match Field(args, key)
    case Undefined => Success(None)
    case Str(s) => if isUrl(s) then Success(Some(s)) else Failure(SchemaError([key]))
    case _ => Failure(SchemaError([key]))
  }

  /** `z.enum(["TEXT", "IMAGE", "VIDEO"]).default("TEXT")` */
  function MediaTypeDefaultText(args: Record, key: string): (r: Result<MediaType>)
    ensures r.Success? <==> Field(args, key) in {Undefined, Str("TEXT"), Str("IMAGE"), Str("VIDEO")}
    ensures r.Success? ==> Field(args, key) == Str(MediaTypeName(r.value))
                           || (Field(args, key) == Undefined && r.value == TEXT)
    ensures r.Failure? ==> r.error == SchemaError([key])
  {
    match Field(args, key)
    case Undefined => Success(TEXT)
    case Str(s) =>
      if s == "TEXT" then Success(TEXT)
      else if s == "IMAGE" then Success(IMAGE)
      else if s == "VIDEO" then Success(VIDEO)
      else Failure(SchemaError([key]))
    case _ => Failure(SchemaError([key]))
  }

  /** `z.enum(["everyone", "accounts_you_follow", "mentioned_only"]).optional()` */
  function OptionalReplyControl(args: Record, key: string): (r: Result<Option<ReplyControl>>)
    ensures r.Success? <==>
      Field(args, key) in {Undefined, Str("everyone"), Str("accounts_you_follow"), Str("mentioned_only")}
    ensures r.Success? ==> OptionalReply(r.value) == Field(args, key)
    ensures r.Failure? ==> r.error == SchemaError([key])
  {
    match Field(args, key)
    case Undefined => Success(None)
    case Str(s) =>
      if s == "everyone" then Success(Some(Everyone))
      else if s == "accounts_you_follow" then Success(Some(AccountsYouFollow))
      else if s == "mentioned_only" then Success(Some(MentionedOnly))
      else Failure(SchemaError([key]))
    case _ => Failure(SchemaError([key]))
  }

  /** `z.number().int().min(lo).max(hi).optional().default(25)`; without bounds when `bounded` is false. */
  function LimitDefault25(args: Record, key: string, bounded: bool, lo: int, hi: int): (r: Result<int>)
    ensures r.Success? <==>
      Field(args, key).Undefined?
      || (Field(args, key).Num? && IsInteger(Field(args, key).n)
          && (bounded ==> lo as real <= Field(args, key).n <= hi as real))
    ensures r.Success? ==> (Field(args, key).Undefined? && r.value == DefaultLimit)
                           || Field(args, key) == Num(r.value as real)
    ensures r.Failure? ==> r.error == SchemaError([key])
  {
    match Field(args, key)
    case Undefined => Success(DefaultLimit)
    case Num(n) =>
      if IsInteger(n) && (bounded ==> lo as real <= n <= hi as real) then Success(n.Floor)
      else Failure(SchemaError([key]))
    case _ => Failure(SchemaError([key]))
  }

  /** The issues of one field parser: none when it accepted. */
  function IssuesOf<T>(r: Result<T>): seq<string> {
    if r.Success? then [] else if r.error.SchemaError? then r.error.issues else []
  }

  // ---------------------------------------------------------------------------
  // Object schemas
  // ---------------------------------------------------------------------------

  /** The post-thread schema (`th_post_thread`, `threads_post`). */
  function ValidatePostThread(args: Record, isUrl: string -> bool): (r: Result<PostThreadArgs>)
    ensures r.Success? <==>
      && (Field(args, "text").Undefined? || Field(args, "text").Str?)
      && Field(args, "media_type") in {Undefined, Str("TEXT"), Str("IMAGE"), Str("VIDEO")}
      && (Field(args, "media_url").Undefined? || (Field(args, "media_url").Str? && isUrl(Field(args, "media_url").s)))
      && Field(args, "reply_control") in {Undefined, Str("everyone"), Str("accounts_you_follow"), Str("mentioned_only")}
      && (Field(args, "quote_post_id").Undefined? || Field(args, "quote_post_id").Str?)
      && (Field(args, "link_attachment").Undefined?
          || (Field(args, "link_attachment").Str? && isUrl(Field(args, "link_attachment").s)))
      && (Field(args, "alt_text").Undefined? || Field(args, "alt_text").Str?)
    ensures r.Success? ==>
      && OptionalStr(r.value.text) == Field(args, "text")
      && (if Field(args, "media_type") == Undefined then r.value.mediaType == TEXT
          else Field(args, "media_type") == Str(MediaTypeName(r.value.mediaType)))
      && OptionalStr(r.value.mediaUrl) == Field(args, "media_url")
      && OptionalReply(r.value.replyControl) == Field(args, "reply_control")
      && OptionalStr(r.value.quotePostId) == Field(args, "quote_post_id")
      && OptionalStr(r.value.linkAttachment) == Field(args, "link_attachment")
      && OptionalStr(r.value.altText) == Field(args, "alt_text")
    ensures r.Failure? ==> r.error.SchemaError? && r.error.issues != []
  {
    var text := OptionalString(args, "text");
    var mediaType := MediaTypeDefaultText(args, "media_type");
    var mediaUrl := OptionalUrl(args, "media_url", isUrl);
    var replyControl := OptionalReplyControl(args, "reply_control");
    var quotePostId := OptionalString(args, "quote_post_id");
    var linkAttachment := OptionalUrl(args, "link_attachment", isUrl);
    var altText := OptionalString(args, "alt_text");
    var issues := IssuesOf(text) + IssuesOf(mediaType) + IssuesOf(mediaUrl) + IssuesOf(replyControl)
                  + IssuesOf(quotePostId) + IssuesOf(linkAttachment) + IssuesOf(altText);
    if issues != [] then Failure(SchemaError(issues))
    else Success(PostThreadArgs(text.value, mediaType.value, mediaUrl.value, replyControl.value,
                                quotePostId.value, linkAttachment.value, altText.value))
  }

  /** The photo schema and the video schema: `{url, text?, alt_text?}`. */
  function ValidatePostMedia(args: Record, isUrl: string -> bool): (r: Result<PostMediaArgs>)
    ensures r.Success? <==>
      && Field(args, "url").Str? && isUrl(Field(args, "url").s)
      && (Field(args, "text").Undefined? || Field(args, "text").Str?)
      && (Field(args, "alt_text").Undefined? || Field(args, "alt_text").Str?)
    ensures r.Success? ==>
      && Field(args, "url") == Str(r.value.url)
      && OptionalStr(r.value.text) == Field(args, "text")
      && OptionalStr(r.value.altText) == Field(args, "alt_text")
    ensures r.Failure? ==> r.error.SchemaError? && r.error.issues != []
  {
    var url := RequiredUrl(args, "url", isUrl);
    var text := OptionalString(args, "text");
    var altText := OptionalString(args, "alt_text");
    var issues := IssuesOf(url) + IssuesOf(text) + IssuesOf(altText);
    if issues != [] then Failure(SchemaError(issues))
    else Success(PostMediaArgs(url.value, text.value, altText.value))
  }

  /** One carousel entry: an object with a URL, a kind IMAGE or VIDEO, and an optional alt text. */
  predicate ValidItem(v: Value, isUrl: string -> bool) {
    && v.Obj?
    && Field(v.fields, "url").Str? && isUrl(Field(v.fields, "url").s)
    && Field(v.fields, "media_type") in {Str("IMAGE"), Str("VIDEO")}
    && (Field(v.fields, "alt_text").Undefined? || Field(v.fields, "alt_text").Str?)
  }

  /** The typed item stands for exactly the fields of the raw entry. */
  predicate Describes(item: CarouselItem, v: Value)
    requires v.Obj?
  {
    && Field(v.fields, "url") == Str(item.url)
    && Field(v.fields, "media_type") == Str(MediaTypeName(item.mediaType))
    && OptionalStr(item.altText) == Field(v.fields, "alt_text")
  }

  function ItemOf(v: Value, isUrl: string -> bool): (item: CarouselItem)
    requires ValidItem(v, isUrl)
    ensures Describes(item, v) && item.mediaType != TEXT
  {
    var kind := if Field(v.fields, "media_type") == Str("IMAGE") then IMAGE else VIDEO;
    var alt := if Field(v.fields, "alt_text").Str? then Some(Field(v.fields, "alt_text").s) else None;
    CarouselItem(Field(v.fields, "url").s, kind, alt)
  }

  /** `z.array(item).min(2).max(10)` */
  function CarouselItems(args: Record, key: string, isUrl: string -> bool): (r: Result<seq<CarouselItem>>)
    ensures r.Success? <==>
      && Field(args, key).Arr?
      && 2 <= |Field(args, key).elems| <= 10
      && forall i :: 0 <= i < |Field(args, key).elems| ==> ValidItem(Field(args, key).elems[i], isUrl)
    ensures r.Success? ==>
      && |r.value| == |Field(args, key).elems|
      && forall i :: 0 <= i < |r.value| ==>
           r.value[i].mediaType != TEXT && isUrl(r.value[i].url) && Describes(r.value[i], Field(args, key).elems[i])
    ensures r.Failure? ==> r.error == SchemaError([key])
  {
    var v := Field(args, key);
    if v.Arr? && 2 <= |v.elems| <= 10 && forall i :: 0 <= i < |v.elems| ==> ValidItem(v.elems[i], isUrl) then
      Success(seq(|v.elems|, i requires 0 <= i < |v.elems| => ItemOf(v.elems[i], isUrl)))
    else Failure(SchemaError([key]))
  }

  /** The carousel schema: `{items, text?}`. */
  function ValidatePostCarousel(args: Record, isUrl: string -> bool): (r: Result<PostCarouselArgs>)
    ensures r.Success? <==> CarouselItems(args, "items", isUrl).Success?
                            && (Field(args, "text").Undefined? || Field(args, "text").Str?)
    ensures r.Success? ==>
      && 2 <= |r.value.items| <= 10
      && r.value.items == CarouselItems(args, "items", isUrl).value
      && OptionalStr(r.value.text) == Field(args, "text")
    ensures r.Failure? ==> r.error.SchemaError? && r.error.issues != []
  {
    var items := CarouselItems(args, "items", isUrl);
    var text := OptionalString(args, "text");
    var issues := IssuesOf(items) + IssuesOf(text);
    if issues != [] then Failure(SchemaError(issues))
    else Success(PostCarouselArgs(items.value, text.value))
  }

  /** The get-replies schema: `{media_id, limit = 25 (any integer), cursor?}`. */
  function ValidateGetReplies(args: Record): (r: Result<GetRepliesArgs>)
    ensures r.Success? <==>
      && Field(args, "media_id").Str?
      && (Field(args, "limit").Undefined? || (Field(args, "limit").Num? && IsInteger(Field(args, "limit").n)))
      && (Field(args, "cursor").Undefined? || Field(args, "cursor").Str?)
    ensures r.Success? ==>
      && Field(args, "media_id") == Str(r.value.mediaId)
      && (if Field(args, "limit") == Undefined then r.value.limit == 25
          else Field(args, "limit") == Num(r.value.limit as real))
      && OptionalStr(r.value.cursor) == Field(args, "cursor")
    ensures r.Failure? ==> r.error.SchemaError? && r.error.issues != []
  {
    var mediaId := RequiredString(args, "media_id");
    var limit := LimitDefault25(args, "limit", false, 0, 0);
    var cursor := OptionalString(args, "cursor");
    var issues := IssuesOf(mediaId) + IssuesOf(limit) + IssuesOf(cursor);
    if issues != [] then Failure(SchemaError(issues))
    else Success(GetRepliesArgs(mediaId.value, limit.value, cursor.value))
  }

  /** The reply schema: `{media_id, text}`, both required. */
  function ValidateReply(args: Record): (r: Result<ReplyArgs>)
    ensures r.Success? <==> Field(args, "media_id").Str? && Field(args, "text").Str?
    ensures r.Success? ==> Field(args, "media_id") == Str(r.value.mediaId) && Field(args, "text") == Str(r.value.text)
    ensures r.Failure? ==> r.error.SchemaError? && r.error.issues != []
  {
    var mediaId := RequiredString(args, "media_id");
    var text := RequiredString(args, "text");
    var issues := IssuesOf(mediaId) + IssuesOf(text);
    if issues != [] then Failure(SchemaError(issues))
    else Success(ReplyArgs(mediaId.value, text.value))
  }

  /** The user-threads schema: `{limit}` with 1 <= limit <= 50, default 25. */
  function ValidateGetUserThreads(args: Record): (r: Result<int>)
    ensures r.Success? <==>
      Field(args, "limit").Undefined?
      || (Field(args, "limit").Num? && IsInteger(Field(args, "limit").n) && 1.0 <= Field(args, "limit").n <= 50.0)
    ensures r.Success? ==> 1 <= r.value <= 50
    ensures r.Success? ==> if Field(args, "limit") == Undefined then r.value == 25
                           else Field(args, "limit") == Num(r.value as real)
    ensures r.Failure? ==> r.error == SchemaError(["limit"])
  {
    LimitDefault25(args, "limit", true, 1, 50)
  }

  /** The credentials schema: both strings of length at least one. */
  function ParseCredentials(accessToken: string, userId: string): (r: Result<Credentials>)
    ensures r.Success? <==> accessToken != "" && userId != ""
    ensures r.Success? ==> r.value == Credentials(accessToken, userId)
    ensures r.Failure? ==> r.error == SchemaError((if accessToken == "" then ["accessToken"] else [])
                                                  + (if userId == "" then ["userId"] else []))
  {
    var issues := (if accessToken == "" then ["accessToken"] else []) + (if userId == "" then ["userId"] else []);
    if issues != [] then Failure(SchemaError(issues)) else Success(Credentials(accessToken, userId))
  }
}
