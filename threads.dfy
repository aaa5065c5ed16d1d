/** The canonical nine-operation `ThreadsManager`: the container-then-publish
    workflow for single and carousel posts, and the read operations.

    Each operation is specified by a `...Run` function over the client's state as
    a value (`Graph.Oracle`): the result and the state after the call. The class
    below performs the same steps against a `Graph.Client` and is proved to agree
    with its `...Run` function. */
module Threads {
  import opened Core
  import opened Text
  import opened Graph
  import opened Containers
  import opened Schemas

  const TextRequired := "Text is required for TEXT media type."
  const ContainerFailed := "Failed to create Threads media container."
  const ItemsFailed := "Failed to create carousel item containers."
  const CarouselFailed := "Failed to create carousel container."
  const EnvMissing := "THREADS_ACCESS_TOKEN and THREADS_USER_ID are required."

  const ReplyFields := "id,text,username,timestamp,like_count,reply_count"
  const ThreadFields := "id,text,media_type,media_url,permalink,timestamp,like_count,reply_count"
  const InsightMetrics := "views,likes,replies,reposts,quotes"
  const QuotaFields := "quota_usage,config,reply_quota_usage,reply_config"

  function ThreadsEndpoint(userId: string): string { "/" + userId + "/threads" }
  function PublishEndpoint(userId: string): string { "/" + userId + "/threads_publish" }
  function RepliesEndpoint(mediaId: string): string { "/" + mediaId + "/replies" }
  function InsightsEndpoint(userId: string): string { "/" + userId + "/threads_insights" }
  function QuotaEndpoint(userId: string): string { "/" + userId + "/threads_publishing_limit" }

  function PublishRequest(userId: string, creationId: string): Request {
    Request(POST, PublishEndpoint(userId), map["creation_id" := Str(creationId)])
  }

  function ChildRequest(userId: string, item: CarouselItem): Request {
    Request(POST, ThreadsEndpoint(userId), ChildParams(item))
  }

  /** The child-container requests of a carousel, one per item, in input order. */
  function ChildRequests(userId: string, items: seq<CarouselItem>): (rs: seq<Request>)
    ensures |rs| == |items|
    ensures forall i :: 0 <= i < |items| ==> rs[i] == ChildRequest(userId, items[i])
  {
    seq(|items|, i requires 0 <= i < |items| => ChildRequest(userId, items[i]))
  }

  /** The id a container response carries (undefined after a failure). */
  function IdOf(answer: Response): Value {
    if answer.Ok? then Field(answer.body, "id") else Undefined
  }

  /** A numeric argument whose omission means 25. */
  function LimitOrDefault(limit: Option<real>): real {
    match limit
    case None => 25.0
    case Some(n) => n
  }

  /** `response.data ?? []` */
  function DataOrEmpty(body: Record): (v: Value)
    ensures !Field(body, "data").Undefined? && !Field(body, "data").Null? ==> v == Field(body, "data")
    ensures Field(body, "data").Undefined? || Field(body, "data").Null? ==> v == Arr([])
  {
    var d := Field(body, "data");
    if d.Undefined? || d.Null? then Arr([]) else d
  }

  /** A body returned to the caller unchanged, or the client's failure. */
  function AsValue(r: Result<Record>): (v: Result<Value>)
    ensures v.Success? <==> r.Success?
    ensures v.Success? ==> v.value == Obj(r.value)
    ensures v.Failure? ==> v.error == r.error
  {
    match r
    case Success(body) => Success(Obj(body))
    case Failure(e) => Failure(e)
  }

  // ---------------------------------------------------------------------------
  // Publishing
  // ---------------------------------------------------------------------------

  /** `publishThread(creationId)`: exactly one POST of exactly `{creation_id}`. */
  function PublishRun(userId: string, creationId: string, o: Oracle): (r: (Result<Value>, Oracle))
    ensures r.1 == Oracle(Rest(o.script), o.log + [PublishRequest(userId, creationId)])
    ensures r.0.Success? <==> Next(o.script).Ok?
    ensures r.0.Failure? ==> r.0.error == TransportError
    ensures r.0.Success? ==> r.0.value == Obj(Next(o.script).body)
  {
    var (res, o1) := Perform(o, PublishRequest(userId, creationId));
    (AsValue(res), o1)
  }

  /** Create a container with `params`, demand a string id, then publish that id.
      This is the tail shared by `postThread` and `postCarousel`. */
  function CreateThenPublish(userId: string, params: Record, failure: string, o: Oracle): (r: (Result<Value>, Oracle))
    ensures var container := Request(POST, ThreadsEndpoint(userId), params);
      && |r.1.log| > |o.log|
      && r.1.log[..|o.log| + 1] == o.log + [container]
      && (r.0.Success? <==> Next(o.script).Ok? && IdOf(Next(o.script)).Str? && Next(Rest(o.script)).Ok?)
      && (r.0.Success? ==> r.0.value == Obj(Next(Rest(o.script)).body))
      && (Next(o.script).Ok? && IdOf(Next(o.script)).Str? ==>
            r.1 == Oracle(Rest(Rest(o.script)), o.log + [container, PublishRequest(userId, IdOf(Next(o.script)).s)]))
      && (Next(o.script).Ok? && IdOf(Next(o.script)).Str? ==>
            r == PublishRun(userId, IdOf(Next(o.script)).s, Oracle(Rest(o.script), o.log + [container])))
      && (Next(o.script).Failed? ==> r == (Failure(TransportError), Oracle(Rest(o.script), o.log + [container])))
      && (Next(o.script).Ok? && !IdOf(Next(o.script)).Str? ==>
            r == (Failure(UpstreamError(failure)), Oracle(Rest(o.script), o.log + [container])))
  {
    var (res, o1) := Perform(o, Request(POST, ThreadsEndpoint(userId), params));
    if res.Failure? then (Failure(TransportError), o1)
    else
      var creationId := Field(res.value, "id");
      if !creationId.Str? then (Failure(UpstreamError(failure)), o1)
      else PublishRun(userId, creationId.s, o1)
  }

  /** The check `postThread` makes before any request. */
  predicate TextMissing(text: Option<string>, kind: MediaType) {
    kind == TEXT && !Truthy(OptionalStr(text))
  }

  /** `postThread(text, mediaType, mediaUrl, options)`. */
  function PostThreadRun(userId: string, text: Option<string>, kind: MediaType, url: Option<string>,
                         options: Record, o: Oracle): (r: (Result<Value>, Oracle))
    requires options.Keys <= OptionKeys
    ensures TextMissing(text, kind) ==> r == (Failure(ArgumentError(TextRequired)), o)
    ensures !TextMissing(text, kind) ==>
      r == CreateThenPublish(userId, ContainerParams(kind, text, url, options), ContainerFailed, o)
    ensures r.0.Success? ==> IdOf(Next(o.script)).Str?
    ensures r.0.Success? ==>
      r.1.log == o.log + [Request(POST, ThreadsEndpoint(userId), ContainerParams(kind, text, url, options)),
                          PublishRequest(userId, IdOf(Next(o.script)).s)]
    ensures !IdOf(Next(o.script)).Str? ==> r.0.Failure? && |r.1.log| <= |o.log| + 1
  {
    if TextMissing(text, kind) then (Failure(ArgumentError(TextRequired)), o)
    else CreateThenPublish(userId, ContainerParams(kind, text, url, options), ContainerFailed, o)
  }

  /** `replyToThread(mediaId, text)`: a TEXT post whose only option is `reply_to_id`. */
  function ReplyToThreadRun(userId: string, mediaId: string, text: string, o: Oracle): (r: (Result<Value>, Oracle))
    ensures text == "" ==> r == (Failure(ArgumentError(TextRequired)), o)
    ensures text != "" ==>
      r == CreateThenPublish(userId, map["media_type" := Str("TEXT"), "text" := Str(text), "reply_to_id" := Str(mediaId)],
                             ContainerFailed, o)
    ensures r.0.Success? ==> IdOf(Next(o.script)).Str?
    ensures r.0.Success? ==>
      r.1.log == o.log + [Request(POST, ThreadsEndpoint(userId),
                                  map["media_type" := Str("TEXT"), "text" := Str(text), "reply_to_id" := Str(mediaId)]),
                          PublishRequest(userId, IdOf(Next(o.script)).s)]
  {
    var options := map["reply_to_id" := Str(mediaId)];
    var p := ContainerParams(TEXT, Some(text), None, options);
    assert p.Keys == {"media_type", "text", "reply_to_id"};
    assert p == map["media_type" := Str("TEXT"), "text" := Str(text), "reply_to_id" := Str(mediaId)];
    PostThreadRun(userId, Some(text), TEXT, None, options, o)
  }

  // ---------------------------------------------------------------------------
  // Carousel
  // ---------------------------------------------------------------------------

  /** Progress of the child-container loop: the string ids collected so far, or
      the state in which a request threw. */
  datatype Collect = Collecting(ids: seq<string>, o: Oracle) | Aborted(o: Oracle)

  /** One iteration: POST the item's container and keep its id if it is a string. */
  function ChildStep(userId: string, acc: Collect, item: CarouselItem): Collect {
    match acc
    case Aborted(_) => acc
    case Collecting(ids, o) =>
      var (res, o1) := Perform(o, ChildRequest(userId, item));
      if res.Failure? then Aborted(o1)
      else
        var id := Field(res.value, "id");
        Collecting(if id.Str? then ids + [id.s] else ids, o1)
  }

  /** The loop over all items, in input order. */
  function ChildrenRun(userId: string, items: seq<CarouselItem>, start: Collect): Collect
    decreases |items|
  {
    if items == [] then start
    else ChildStep(userId, ChildrenRun(userId, items[..|items| - 1], start), items[|items| - 1])
  }

  /** The id an answer contributes to the carousel: its id when that is a string. */
  function Kept(answer: Response): seq<string> {
    if IdOf(answer).Str? then [IdOf(answer).s] else []
  }

  /** The string ids among some answers, in order; answers without one are skipped. */
  function StringIds(answers: seq<Response>): seq<string> {
    if answers == [] then [] else StringIds(answers[..|answers| - 1]) + Kept(answers[|answers| - 1])
  }

  lemma StringIdsSnoc(answers: seq<Response>, n: nat)
    requires n < |answers|
    ensures StringIds(answers[..n + 1]) == StringIds(answers[..n]) + Kept(answers[n])
  {
    assert answers[..n + 1][..n] == answers[..n];
  }

  lemma ChildRequestsSnoc(userId: string, items: seq<CarouselItem>)
    requires items != []
    ensures ChildRequests(userId, items[..|items| - 1]) + [ChildRequest(userId, items[|items| - 1])]
         == ChildRequests(userId, items)
  {
  }

  /** `postCarousel(items, text)`. */
  function CarouselRun(userId: string, items: seq<CarouselItem>, text: Option<string>, o: Oracle): (r: (Result<Value>, Oracle))
  {
    match ChildrenRun(userId, items, Collecting([], o))
    case Aborted(o1) => (Failure(TransportError), o1)
    case Collecting(ids, o1) =>
      if |ids| == 0 then (Failure(UpstreamError(ItemsFailed)), o1)
      else CreateThenPublish(userId, AggregateParams(ids, text), CarouselFailed, o1)
  }

  /** One answered child request: logged, one answer consumed, its id kept if it is a string. */
  lemma ChildStepAnswered(userId: string, ids: seq<string>, o: Oracle, item: CarouselItem)
    requires Next(o.script).Ok?
    ensures ChildStep(userId, Collecting(ids, o), item)
         == Collecting(ids + Kept(Next(o.script)), Oracle(Rest(o.script), o.log + [ChildRequest(userId, item)]))
  {
  }

  /** When every child request is answered, the loop makes exactly one request per
      item, in input order, and collects the string ids of the answers in order. */
  lemma {:induction false} ChildrenAnswered(userId: string, items: seq<CarouselItem>, ids0: seq<string>, o: Oracle)
    requires |items| <= |o.script|
    requires forall i :: 0 <= i < |items| ==> o.script[i].Ok?
    ensures ChildrenRun(userId, items, Collecting(ids0, o))
         == Collecting(ids0 + StringIds(o.script[..|items|]),
                       Oracle(o.script[|items|..], o.log + ChildRequests(userId, items)))
    decreases |items|
  {
    if items == [] {
      assert o.script[..0] == [] && o.script[0..] == o.script;
    } else {
      var n := |items| - 1;
      var start := Collecting(ids0, o);
      var ids := ids0 + StringIds(o.script[..n]);
      var before := Oracle(o.script[n..], o.log + ChildRequests(userId, items[..n]));
      calc {
        ChildrenRun(userId, items, start);
        ChildStep(userId, ChildrenRun(userId, items[..n], start), items[n]);
        { ChildrenAnswered(userId, items[..n], ids0, o); }
        ChildStep(userId, Collecting(ids, before), items[n]);
        { assert Next(before.script) == o.script[n];
          assert Rest(before.script) == o.script[n + 1..];
          ChildStepAnswered(userId, ids, before, items[n]); }
        Collecting(ids + Kept(o.script[n]), Oracle(o.script[n + 1..], before.log + [ChildRequest(userId, items[n])]));
        { ChildRequestsSnoc(userId, items);
          assert before.log + [ChildRequest(userId, items[n])]
              == o.log + (ChildRequests(userId, items[..n]) + [ChildRequest(userId, items[n])]);
          StringIdsSnoc(o.script, n);
          assert ids + Kept(o.script[n]) == ids0 + (StringIds(o.script[..n]) + Kept(o.script[n])); }
        Collecting(ids0 + StringIds(o.script[..|items|]),
                   Oracle(o.script[|items|..], o.log + ChildRequests(userId, items)));
      }
    }
  }

  /** A child request that throws ends the collection. */
  lemma ChildStepFailed(userId: string, ids: seq<string>, o: Oracle, item: CarouselItem)
    requires Next(o.script).Failed?
    ensures ChildStep(userId, Collecting(ids, o), item)
         == Aborted(Oracle(Rest(o.script), o.log + [ChildRequest(userId, item)]))
  {
  }

  /** When the k-th child request throws, the loop stops there: k + 1 requests, no more. */
  lemma {:induction false} ChildrenAbort(userId: string, items: seq<CarouselItem>, ids0: seq<string>, o: Oracle, k: nat)
    requires k < |items| && k <= |o.script|
    requires forall i :: 0 <= i < k ==> o.script[i].Ok?
    requires k == |o.script| || o.script[k].Failed?
    ensures ChildrenRun(userId, items, Collecting(ids0, o))
         == Aborted(Oracle(Rest(o.script[k..]), o.log + ChildRequests(userId, items[..k + 1])))
    decreases |items|
  {
    var n := |items| - 1;
    var start := Collecting(ids0, o);
    var after := Aborted(Oracle(Rest(o.script[k..]), o.log + ChildRequests(userId, items[..k + 1])));
    if k == n {
      var before := Oracle(o.script[k..], o.log + ChildRequests(userId, items[..k]));
      calc {
        ChildrenRun(userId, items, start);
        ChildStep(userId, ChildrenRun(userId, items[..k], start), items[k]);
        { ChildrenAnswered(userId, items[..k], ids0, o); }
        ChildStep(userId, Collecting(ids0 + StringIds(o.script[..k]), before), items[k]);
        { assert Next(before.script) == Failed;
          ChildStepFailed(userId, ids0 + StringIds(o.script[..k]), before, items[k]); }
        Aborted(Oracle(Rest(o.script[k..]), before.log + [ChildRequest(userId, items[k])]));
        { ChildRequestsSnoc(userId, items);
          assert items[..k + 1] == items;
          assert before.log + [ChildRequest(userId, items[k])]
              == o.log + (ChildRequests(userId, items[..k]) + [ChildRequest(userId, items[k])]); }
        after;
      }
    } else {
      calc {
        ChildrenRun(userId, items, start);
        ChildStep(userId, ChildrenRun(userId, items[..n], start), items[n]);
        { ChildrenAbort(userId, items[..n], ids0, o, k);
          assert items[..n][..k + 1] == items[..k + 1]; }
        ChildStep(userId, after, items[n]);
        after;
      }
    }
  }

  /** Once a child request has thrown, later items change nothing. */
  lemma {:induction false} AbortedStays(userId: string, items: seq<CarouselItem>, k: nat, start: Collect)
    requires k <= |items|
    requires ChildrenRun(userId, items[..k], start).Aborted?
    ensures ChildrenRun(userId, items, start) == ChildrenRun(userId, items[..k], start)
    decreases |items| - k
  {
    if k < |items| {
      var n := |items| - 1;
      assert items[..n][..k] == items[..k];
      AbortedStays(userId, items[..n], k, start);
    } else {
      assert items[..k] == items;
    }
  }

  /** The carousel trace when every child request is answered: one POST per item in
      input order, then — unless no answer carried a string id — the aggregate container
      whose `children` is those ids joined by commas in input order, and its publish. */
  lemma CarouselAnswered(userId: string, items: seq<CarouselItem>, text: Option<string>, o: Oracle)
    requires |items| <= |o.script|
    requires forall i :: 0 <= i < |items| ==> o.script[i].Ok?
    ensures var ids := StringIds(o.script[..|items|]);
            var after := Oracle(o.script[|items|..], o.log + ChildRequests(userId, items));
            CarouselRun(userId, items, text, o)
              == if ids == [] then (Failure(UpstreamError(ItemsFailed)), after)
                 else CreateThenPublish(userId, AggregateParams(ids, text), CarouselFailed, after)
  {
    ChildrenAnswered(userId, items, [], o);
    assert [] + StringIds(o.script[..|items|]) == StringIds(o.script[..|items|]);
  }

  /** The carousel trace when the k-th child request throws: k + 1 child POSTs and nothing after. */
  lemma CarouselAborted(userId: string, items: seq<CarouselItem>, text: Option<string>, o: Oracle, k: nat)
    requires k < |items| && k <= |o.script|
    requires forall i :: 0 <= i < k ==> o.script[i].Ok?
    requires k == |o.script| || o.script[k].Failed?
    ensures CarouselRun(userId, items, text, o)
         == (Failure(TransportError), Oracle(Rest(o.script[k..]), o.log + ChildRequests(userId, items[..k + 1])))
  {
    ChildrenAbort(userId, items, [], o, k);
  }

  /** The `children` string determines the collected ids: ids without a comma are
      recovered, in order, by splitting it at the commas. */
  lemma ChildrenRecoverable(ids: seq<string>, text: Option<string>)
    requires ids != []
    requires forall k :: 0 <= k < |ids| ==> NoSeparator(ids[k], ',')
    ensures Field(AggregateParams(ids, text), "children").Str?
    ensures Split(Field(AggregateParams(ids, text), "children").s, ',') == ids
  {
    SplitJoin(ids, ',');
  }

  // ---------------------------------------------------------------------------
  // Reading
  // ---------------------------------------------------------------------------

  /** `getReplies(mediaId, limit = 25, cursor)`: one GET; the page is returned unmodified. */
  function GetRepliesRun(mediaId: string, limit: Option<real>, cursor: Option<string>, o: Oracle): (r: (Result<Value>, Oracle))
    ensures r.1 == Oracle(Rest(o.script), o.log + [Request(GET, RepliesEndpoint(mediaId),
              map["fields" := Str(ReplyFields), "limit" := Num(LimitOrDefault(limit)), "after" := OptionalStr(cursor)])])
    ensures r.0.Success? <==> Next(o.script).Ok?
    ensures r.0.Failure? ==> r.0.error == TransportError
    ensures r.0.Success? ==> r.0.value == Obj(Next(o.script).body)
  {
    var params := map["fields" := Str(ReplyFields), "limit" := Num(LimitOrDefault(limit)), "after" := OptionalStr(cursor)];
    var (res, o1) := Perform(o, Request(GET, RepliesEndpoint(mediaId), params));
    (AsValue(res), o1)
  }

  /** `getUserThreads(limit = 25)`: one GET; returns `data`, or `[]` when it is absent. */
  function GetUserThreadsRun(userId: string, limit: Option<real>, o: Oracle): (r: (Result<Value>, Oracle))
    ensures r.1 == Oracle(Rest(o.script), o.log + [Request(GET, ThreadsEndpoint(userId),
              map["fields" := Str(ThreadFields), "limit" := Num(LimitOrDefault(limit))])])
    ensures r.0.Success? <==> Next(o.script).Ok?
    ensures r.0.Failure? ==> r.0.error == TransportError
    ensures r.0.Success? ==> r.0.value == DataOrEmpty(Next(o.script).body)
    ensures r.0.Success? && Field(Next(o.script).body, "data").Arr? ==> r.0.value == Field(Next(o.script).body, "data")
  {
    var params := map["fields" := Str(ThreadFields), "limit" := Num(LimitOrDefault(limit))];
    var (res, o1) := Perform(o, Request(GET, ThreadsEndpoint(userId), params));
    (if res.Success? then Success(DataOrEmpty(res.value)) else Failure(res.error), o1)
  }

  /** `getUserInsights()`: one GET with the fixed metric list and daily period; `data ?? []`. */
  function GetUserInsightsRun(userId: string, o: Oracle): (r: (Result<Value>, Oracle))
    ensures r.1 == Oracle(Rest(o.script), o.log + [Request(GET, InsightsEndpoint(userId),
              map["metric" := Str(InsightMetrics), "period" := Str("day")])])
    ensures r.0.Success? <==> Next(o.script).Ok?
    ensures r.0.Failure? ==> r.0.error == TransportError
    ensures r.0.Success? ==> r.0.value == DataOrEmpty(Next(o.script).body)
  {
    var params := map["metric" := Str(InsightMetrics), "period" := Str("day")];
    var (res, o1) := Perform(o, Request(GET, InsightsEndpoint(userId), params));
    (if res.Success? then Success(DataOrEmpty(res.value)) else Failure(res.error), o1)
  }

  /** `getPublishingLimit()`: one GET with the fixed field projection; returns `data` as it is. */
  function GetPublishingLimitRun(userId: string, o: Oracle): (r: (Result<Value>, Oracle))
    ensures r.1 == Oracle(Rest(o.script), o.log + [Request(GET, QuotaEndpoint(userId),
              map["fields" := Str(QuotaFields)])])
    ensures r.0.Success? <==> Next(o.script).Ok?
    ensures r.0.Failure? ==> r.0.error == TransportError
    ensures r.0.Success? ==> r.0.value == Field(Next(o.script).body, "data")
  {
    var (res, o1) := Perform(o, Request(GET, QuotaEndpoint(userId), map["fields" := Str(QuotaFields)]));
    (if res.Success? then Success(Field(res.value, "data")) else Failure(res.error), o1)
  }

  // ---------------------------------------------------------------------------
  // The manager
  // ---------------------------------------------------------------------------

  class ThreadsManager {
    const graph: Client
    const userId: string

    /** The part of the constructor after its argument check. */
    constructor Init(userId: string, graph: Client)
      ensures this.userId == userId && this.graph == graph
    {
      this.userId := userId;
      this.graph := graph;
    }

    /** `new ThreadsManager({accessToken, userId})`: the credentials schema rejects an
        empty token or user id; otherwise a client is created for the token. */
    static method New(accessToken: string, userId: string, script: seq<Response>) returns (r: Result<ThreadsManager>)
      ensures r.Success? <==> ParseCredentials(accessToken, userId).Success?
      ensures r.Failure? ==> r.error == ParseCredentials(accessToken, userId).error
      ensures r.Success? ==> fresh(r.value) && fresh(r.value.graph) && r.value.userId == userId
                             && r.value.graph.State() == Oracle(script, [])
    {
      var parsed := ParseCredentials(accessToken, userId);
      if parsed.Failure? {
        return Failure(parsed.error);
      }
      var client := new Client(script);
      var m := new ThreadsManager.Init(parsed.value.userId, client);
      r := Success(m);
    }

    /** `fromEnv()`: a missing or empty token or user id is a configuration error. */
    static method FromEnv(accessToken: Option<string>, userId: Option<string>, script: seq<Response>)
      returns (r: Result<ThreadsManager>)
      ensures r.Success? <==> Truthy(OptionalStr(accessToken)) && Truthy(OptionalStr(userId))
      ensures r.Failure? ==> r.error == ConfigError(EnvMissing)
      ensures r.Success? ==> fresh(r.value) && fresh(r.value.graph) && r.value.userId == userId.value
                             && r.value.graph.State() == Oracle(script, [])
    {
      if !Truthy(OptionalStr(accessToken)) || !Truthy(OptionalStr(userId)) {
        return Failure(ConfigError(EnvMissing));
      }
      r := New(accessToken.value, userId.value, script);
    }

    method PostThread(text: Option<string>, mediaType: MediaType, mediaUrl: Option<string>, options: Record)
      returns (r: Result<Value>)
      requires options.Keys <= OptionKeys
      modifies graph
      ensures (r, graph.State()) == PostThreadRun(userId, text, mediaType, mediaUrl, options, old(graph.State()))
    {
      if mediaType == TEXT && !Truthy(OptionalStr(text)) {
        return Failure(ArgumentError(TextRequired));
      }
      var params := map["media_type" := Str(MediaTypeName(mediaType)), "text" := OptionalStr(text)] + options;
      if Truthy(OptionalStr(mediaUrl)) {
        params := params[(if mediaType == IMAGE then "image_url" else "video_url") := Str(mediaUrl.value)];
      }
      var container := graph.Send(POST, ThreadsEndpoint(userId), params);
      if container.Failure? {
        return Failure(container.error);
      }
      var creationId := Field(container.value, "id");
      if !creationId.Str? {
        return Failure(UpstreamError(ContainerFailed));
      }
      r := PublishThread(creationId.s);
    }

    method PostCarousel(items: seq<CarouselItem>, text: Option<string>) returns (r: Result<Value>)
      modifies graph
      ensures (r, graph.State()) == CarouselRun(userId, items, text, old(graph.State()))
    {
      var childrenIds: seq<string> := [];
      var i := 0;
      while i < |items|
        invariant 0 <= i <= |items|
        invariant ChildrenRun(userId, items[..i], Collecting([], old(graph.State())))
               == Collecting(childrenIds, graph.State())
      {
        var item := items[i];
        var itemParams := map["media_type" := Str(MediaTypeName(item.mediaType)), "is_carousel_item" := Bool(true)];
        if item.mediaType == IMAGE { itemParams := itemParams["image_url" := Str(item.url)]; }
        if item.mediaType == VIDEO { itemParams := itemParams["video_url" := Str(item.url)]; }
        if Truthy(OptionalStr(item.altText)) { itemParams := itemParams["alt_text" := Str(item.altText.value)]; }
        assert items[..i + 1][..i] == items[..i];
        var container := graph.Send(POST, ThreadsEndpoint(userId), itemParams);
        if container.Failure? {
          AbortedStays(userId, items, i + 1, Collecting([], old(graph.State())));
          return Failure(container.error);
        }
        var id := Field(container.value, "id");
        if id.Str? { childrenIds := childrenIds + [id.s]; }
        i := i + 1;
      }
      assert items[..i] == items;
      if |childrenIds| == 0 {
        return Failure(UpstreamError(ItemsFailed));
      }
      var carouselParams := map["media_type" := Str("CAROUSEL"), "children" := Str(Join(childrenIds, ','))];
      if Truthy(OptionalStr(text)) { carouselParams := carouselParams["text" := Str(text.value)]; }
      var container := graph.Send(POST, ThreadsEndpoint(userId), carouselParams);
      if container.Failure? {
        return Failure(container.error);
      }
      var creationId := Field(container.value, "id");
      if !creationId.Str? {
        return Failure(UpstreamError(CarouselFailed));
      }
      r := PublishThread(creationId.s);
    }

    method PublishThread(creationId: string) returns (r: Result<Value>)
      modifies graph
      ensures (r, graph.State()) == PublishRun(userId, creationId, old(graph.State()))
    {
      var published := graph.Send(POST, PublishEndpoint(userId), map["creation_id" := Str(creationId)]);
      r := AsValue(published);
    }

    method GetReplies(mediaId: string, limit: Option<real>, cursor: Option<string>) returns (r: Result<Value>)
      modifies graph
      ensures (r, graph.State()) == GetRepliesRun(mediaId, limit, cursor, old(graph.State()))
    {
      var page := graph.Send(GET, RepliesEndpoint(mediaId),
        map["fields" := Str(ReplyFields), "limit" := Num(LimitOrDefault(limit)), "after" := OptionalStr(cursor)]);
      r := AsValue(page);
    }

    method ReplyToThread(mediaId: string, text: string) returns (r: Result<Value>)
      modifies graph
      ensures (r, graph.State()) == ReplyToThreadRun(userId, mediaId, text, old(graph.State()))
    {
      r := PostThread(Some(text), TEXT, None, map["reply_to_id" := Str(mediaId)]);
    }

    method GetUserThreads(limit: Option<real>) returns (r: Result<Value>)
      modifies graph
      ensures (r, graph.State()) == GetUserThreadsRun(userId, limit, old(graph.State()))
    {
      var response := graph.Send(GET, ThreadsEndpoint(userId),
        map["fields" := Str(ThreadFields), "limit" := Num(LimitOrDefault(limit))]);
      if response.Failure? {
        return Failure(response.error);
      }
      r := Success(DataOrEmpty(response.value));
    }

    method GetUserInsights() returns (r: Result<Value>)
      modifies graph
      ensures (r, graph.State()) == GetUserInsightsRun(userId, old(graph.State()))
    {
      var response := graph.Send(GET, InsightsEndpoint(userId),
        map["metric" := Str(InsightMetrics), "period" := Str("day")]);
      if response.Failure? {
        return Failure(response.error);
      }
      r := Success(DataOrEmpty(response.value));
    }

    method GetPublishingLimit() returns (r: Result<Value>)
      modifies graph
      ensures (r, graph.State()) == GetPublishingLimitRun(userId, old(graph.State()))
    {
      var response := graph.Send(GET, QuotaEndpoint(userId), map["fields" := Str(QuotaFields)]);
      if response.Failure? {
        return Failure(response.error);
      }
      r := Success(Field(response.value, "data"));
    }
  }
}
