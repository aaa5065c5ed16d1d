/** The older four-operation `ThreadsManager` of `src/manager.ts`. It differs from
    the canonical one in three checks: a container id only has to be truthy (not a
    string), the container is created at `me/threads`, and the read operations
    return `data` without a fallback. Every request goes through `request`. */
module Legacy {
  import opened Core
  import opened Graph
  import opened Containers
  import Threads

  const TextRequired := "Text is required for TEXT media type"
  const ContainerFailed := "Failed to create threads container"
  const ConfigMissing := "THREADS_USER_ID or THREADS_ACCESS_TOKEN is not configured"

  /** The field projections are those of the canonical manager. */
  const ThreadFields := Threads.ThreadFields
  const InsightMetrics := Threads.InsightMetrics
  const QuotaFields := Threads.QuotaFields

  /** The options this variant's `postThread` declares (no `reply_to_id`). */
  const LegacyOptionKeys: set<string> := {"reply_control", "quote_post_id", "link_attachment", "alt_text"}

  const ContainerEndpoint := "me/threads"
  function PublishEndpoint(userId: string): string { userId + "/threads_publish" }
  function ThreadsEndpoint(userId: string): string { userId + "/threads" }
  function InsightsEndpoint(userId: string): string { userId + "/threads_insights" }
  function QuotaEndpoint(userId: string): string { userId + "/threads_publishing_limit" }

  function PublishRequest(userId: string, creationId: Value): Request {
    Request(POST, PublishEndpoint(userId), map["creation_id" := creationId])
  }

  /** `publishThread(creationId)`: one POST of `{creation_id}`; returns the body. */
  function PublishRun(userId: string, creationId: Value, o: Oracle): (r: (Result<Value>, Oracle))
    ensures r.1 == Oracle(Rest(o.script), o.log + [PublishRequest(userId, creationId)])
    ensures r.0.Success? <==> Next(o.script).Ok?
    ensures r.0.Failure? ==> r.0.error == TransportError
    ensures r.0.Success? ==> r.0.value == Obj(Next(o.script).body)
  {
    var (res, o1) := Perform(o, PublishRequest(userId, creationId));
    (if res.Success? then Success(Obj(res.value)) else Failure(res.error), o1)
  }

  /** `postThread(text, mediaType, mediaUrl, options)` of this variant. */
  function PostThreadRun(userId: string, text: Option<string>, kind: MediaType, url: Option<string>,
                         options: Record, o: Oracle): (r: (Result<Value>, Oracle))
    requires options.Keys <= LegacyOptionKeys
    ensures kind == TEXT && !Truthy(OptionalStr(text)) ==> r == (Failure(ArgumentError(TextRequired)), o)
    ensures !(kind == TEXT && !Truthy(OptionalStr(text))) ==>
      && |r.1.log| > |o.log|
      && r.1.log[|o.log|] == Request(POST, ContainerEndpoint, ContainerParams(kind, text, url, options))
    ensures var container := Request(POST, ContainerEndpoint, ContainerParams(kind, text, url, options));
      && (!(kind == TEXT && !Truthy(OptionalStr(text))) && Next(o.script).Failed? ==>
            r == (Failure(TransportError), Oracle(Rest(o.script), o.log + [container])))
      && (!(kind == TEXT && !Truthy(OptionalStr(text))) && Next(o.script).Ok? && !Truthy(Field(Next(o.script).body, "id")) ==>
            r == (Failure(UpstreamError(ContainerFailed)), Oracle(Rest(o.script), o.log + [container])))
      && (!(kind == TEXT && !Truthy(OptionalStr(text))) && Next(o.script).Ok? && Truthy(Field(Next(o.script).body, "id")) ==>
            r == PublishRun(userId, Field(Next(o.script).body, "id"), Oracle(Rest(o.script), o.log + [container])))
    ensures var id := if Next(o.script).Ok? then Field(Next(o.script).body, "id") else Undefined;
      && (!Truthy(id) ==> r.0.Failure? && |r.1.log| <= |o.log| + 1)
      && (r.0.Success? ==> Truthy(id) && r.1.log == o.log + [
            Request(POST, ContainerEndpoint, ContainerParams(kind, text, url, options)),
            PublishRequest(userId, id)])
  {
    if kind == TEXT && !Truthy(OptionalStr(text)) then (Failure(ArgumentError(TextRequired)), o)
    else
      var (res, o1) := Perform(o, Request(POST, ContainerEndpoint, ContainerParams(kind, text, url, options)));
      if res.Failure? then (Failure(res.error), o1)
      else
        var id := Field(res.value, "id");
        if !Truthy(id) then (Failure(UpstreamError(ContainerFailed)), o1)
        else PublishRun(userId, id, o1)
  }

  /** Any non-zero numeric id passes this variant's check and is sent on as the `creation_id`,
      whatever the script; the canonical manager rejects the same answer before publishing. */
  lemma NumericIdIsPublished(userId: string, text: Option<string>, kind: MediaType, url: Option<string>,
                             options: Record, o: Oracle, n: real)
    requires options.Keys <= LegacyOptionKeys
    requires !(kind == TEXT && !Truthy(OptionalStr(text)))
    requires Next(o.script).Ok? && Field(Next(o.script).body, "id") == Num(n) && n != 0.0
    ensures var r := PostThreadRun(userId, text, kind, url, options, o);
            && r.1.log == o.log + [Request(POST, ContainerEndpoint, ContainerParams(kind, text, url, options)),
                                   PublishRequest(userId, Num(n))]
            && (r.0.Success? <==> Next(Rest(o.script)).Ok?)
    ensures Threads.PostThreadRun(userId, text, kind, url, options, o)
         == (Failure(UpstreamError(Threads.ContainerFailed)),
             Oracle(Rest(o.script), o.log + [Request(POST, Threads.ThreadsEndpoint(userId),
                                                     ContainerParams(kind, text, url, options))]))
  {
  }

  /** On a container answer whose id is a non-empty string the two variants agree: the same
      outcome, and the same sequence of request kinds and params; only the endpoints differ. */
  lemma StringIdVariantsAgree(userId: string, text: Option<string>, kind: MediaType, url: Option<string>,
                              options: Record, o: Oracle)
    requires options.Keys <= LegacyOptionKeys
    requires Next(o.script).Ok? && Field(Next(o.script).body, "id").Str? && Field(Next(o.script).body, "id").s != ""
    ensures var legacy := PostThreadRun(userId, text, kind, url, options, o);
            var current := Threads.PostThreadRun(userId, text, kind, url, options, o);
            && (legacy.0.Success? <==> current.0.Success?)
            && (legacy.0.Success? ==> legacy.0.value == current.0.value)
            && legacy.1.script == current.1.script
            && |legacy.1.log| == |current.1.log|
            && forall i :: 0 <= i < |legacy.1.log| ==>
                 legacy.1.log[i].verb == current.1.log[i].verb && legacy.1.log[i].params == current.1.log[i].params
  {
  }

  /** A container id that is the empty string is where the variants part: it is a string,
      so the canonical manager publishes it, but it is falsy, so this one fails first. */
  lemma EmptyIdVariantsDiffer(userId: string, text: Option<string>, kind: MediaType, url: Option<string>,
                              options: Record, o: Oracle)
    requires options.Keys <= LegacyOptionKeys
    requires !(kind == TEXT && !Truthy(OptionalStr(text)))
    requires Next(o.script).Ok? && Field(Next(o.script).body, "id") == Str("")
    ensures PostThreadRun(userId, text, kind, url, options, o)
         == (Failure(UpstreamError(ContainerFailed)),
             Oracle(Rest(o.script), o.log + [Request(POST, ContainerEndpoint, ContainerParams(kind, text, url, options))]))
    ensures var current := Threads.PostThreadRun(userId, text, kind, url, options, o);
            && current.1.log == o.log + [Request(POST, Threads.ThreadsEndpoint(userId), ContainerParams(kind, text, url, options)),
                                         Threads.PublishRequest(userId, "")]
            && (current.0.Success? <==> Next(Rest(o.script)).Ok?)
  {
  }

  /** When the body's `data` is present and not null, the older read operations return
      what the canonical ones return; only the endpoint differs. */
  lemma ReadVariantsAgree(userId: string, limit: Option<real>, o: Oracle)
    requires Next(o.script).Ok?
    requires !Field(Next(o.script).body, "data").Undefined? && !Field(Next(o.script).body, "data").Null?
    ensures GetUserThreadsRun(userId, limit, o).0 == Threads.GetUserThreadsRun(userId, limit, o).0
    ensures GetUserInsightsRun(userId, o).0 == Threads.GetUserInsightsRun(userId, o).0
    ensures GetPublishingLimitRun(userId, o).0 == Threads.GetPublishingLimitRun(userId, o).0
  {
  }

  /** `getUserThreads(limit = 25)`: one GET; returns `data` unchanged. */
  function GetUserThreadsRun(userId: string, limit: Option<real>, o: Oracle): (r: (Result<Value>, Oracle))
    ensures r.1 == Oracle(Rest(o.script), o.log + [Request(GET, ThreadsEndpoint(userId),
              map["fields" := Str(ThreadFields), "limit" := Num(Threads.LimitOrDefault(limit))])])
    ensures r.0.Success? <==> Next(o.script).Ok?
    ensures r.0.Failure? ==> r.0.error == TransportError
    ensures r.0.Success? ==> r.0.value == Field(Next(o.script).body, "data")
  {
    var limitValue := Threads.LimitOrDefault(limit);
    var (res, o1) := Perform(o, Request(GET, ThreadsEndpoint(userId),
                                        map["fields" := Str(ThreadFields), "limit" := Num(limitValue)]));
    (if res.Success? then Success(Field(res.value, "data")) else Failure(res.error), o1)
  }

  /** `getUserInsights()`: one GET with the fixed metrics and daily period; returns `data`. */
  function GetUserInsightsRun(userId: string, o: Oracle): (r: (Result<Value>, Oracle))
    ensures r.1 == Oracle(Rest(o.script), o.log + [Request(GET, InsightsEndpoint(userId),
              map["metric" := Str(InsightMetrics), "period" := Str("day")])])
    ensures r.0.Success? <==> Next(o.script).Ok?
    ensures r.0.Failure? ==> r.0.error == TransportError
    ensures r.0.Success? ==> r.0.value == Field(Next(o.script).body, "data")
  {
    var (res, o1) := Perform(o, Request(GET, InsightsEndpoint(userId),
                                        map["metric" := Str(InsightMetrics), "period" := Str("day")]));
    (if res.Success? then Success(Field(res.value, "data")) else Failure(res.error), o1)
  }

  /** `getPublishingLimit()`: one GET with the fixed field projection; returns `data`. */
  function GetPublishingLimitRun(userId: string, o: Oracle): (r: (Result<Value>, Oracle))
    ensures r.1 == Oracle(Rest(o.script), o.log + [Request(GET, QuotaEndpoint(userId),
              map["fields" := Str(QuotaFields)])])
    ensures r.0.Success? <==> Next(o.script).Ok?
    ensures r.0.Failure? ==> r.0.error == TransportError
    ensures r.0.Success? ==> r.0.value == Field(Next(o.script).body, "data")
  {
    var (res, o1) := Perform(o, Request(GET, QuotaEndpoint(userId), map["fields" := Str(QuotaFields)]));
    (if res.Success? then Success(Field(res.value, "data")) else Failure(res.error), o1)
  }

  class LegacyManager {
    const client: Client
    const userId: string
    const accessToken: string

    constructor (client: Client, userId: string, accessToken: string)
      ensures this.client == client && this.userId == userId && this.accessToken == accessToken
    {
      this.client := client;
      this.userId := userId;
      this.accessToken := accessToken;
    }

    /** `fromEnv()`: a missing or empty user id or token fails before any client is built. */
    static method FromEnv(userId: Option<string>, accessToken: Option<string>, script: seq<Response>)
      returns (r: Result<LegacyManager>)
      ensures r.Success? <==> Truthy(OptionalStr(userId)) && Truthy(OptionalStr(accessToken))
      ensures r.Failure? ==> r.error == ConfigError(ConfigMissing)
      ensures r.Success? ==> fresh(r.value) && fresh(r.value.client)
                             && r.value.client.State() == Oracle(script, [])
                             && r.value.userId == userId.value && r.value.accessToken == accessToken.value
    {
      if !Truthy(OptionalStr(userId)) || !Truthy(OptionalStr(accessToken)) {
        return Failure(ConfigError(ConfigMissing));
      }
      var client := new Client(script);
      var m := new LegacyManager(client, userId.value, accessToken.value);
      r := Success(m);
    }

    /** `request(endpoint, method, params)`: the one place a request is sent. */
    method Request(endpoint: string, verb: Method, params: Record) returns (r: Result<Record>)
      modifies client
      ensures (r, client.State()) == Perform(old(client.State()), Graph.Request(verb, endpoint, params))
    {
      r := client.Send(verb, endpoint, params);
    }

    method PostThread(text: Option<string>, mediaType: MediaType, mediaUrl: Option<string>, options: Record)
      returns (r: Result<Value>)
      requires options.Keys <= LegacyOptionKeys
      modifies client
      ensures (r, client.State()) == PostThreadRun(userId, text, mediaType, mediaUrl, options, old(client.State()))
    {
      if mediaType == TEXT && !Truthy(OptionalStr(text)) {
        return Failure(ArgumentError(TextRequired));
      }
      var creationParams := map["media_type" := Str(MediaTypeName(mediaType)), "text" := OptionalStr(text)] + options;
      if Truthy(OptionalStr(mediaUrl)) {
        creationParams := creationParams[(if mediaType == IMAGE then "image_url" else "video_url") := Str(mediaUrl.value)];
      }
      var container := Request(ContainerEndpoint, POST, creationParams);
      if container.Failure? {
        return Failure(container.error);
      }
      var id := Field(container.value, "id");
      if !Truthy(id) {
        return Failure(UpstreamError(ContainerFailed));
      }
      r := Publish(id);
    }

    /** `publishThread(creationId)` as called from the workflow, with whatever id came back. */
    method Publish(creationId: Value) returns (r: Result<Value>)
      modifies client
      ensures (r, client.State()) == PublishRun(userId, creationId, old(client.State()))
    {
      var published := Request(PublishEndpoint(userId), POST, map["creation_id" := creationId]);
      r := if published.Success? then Success(Obj(published.value)) else Failure(published.error);
    }

    /** The public `publishThread(creationId: string)`. */
    method PublishThread(creationId: string) returns (r: Result<Value>)
      modifies client
      ensures (r, client.State()) == PublishRun(userId, Str(creationId), old(client.State()))
    {
      r := Publish(Str(creationId));
    }

    method GetUserThreads(limit: Option<real>) returns (r: Result<Value>)
      modifies client
      ensures (r, client.State()) == GetUserThreadsRun(userId, limit, old(client.State()))
    {
      var response := Request(ThreadsEndpoint(userId), GET,
        map["fields" := Str(ThreadFields), "limit" := Num(Threads.LimitOrDefault(limit))]);
      r := if response.Success? then Success(Field(response.value, "data")) else Failure(response.error);
    }

    method GetUserInsights() returns (r: Result<Value>)
      modifies client
      ensures (r, client.State()) == GetUserInsightsRun(userId, old(client.State()))
    {
      var response := Request(InsightsEndpoint(userId), GET,
        map["metric" := Str(InsightMetrics), "period" := Str("day")]);
      r := if response.Success? then Success(Field(response.value, "data")) else Failure(response.error);
    }

    method GetPublishingLimit() returns (r: Result<Value>)
      modifies client
      ensures (r, client.State()) == GetPublishingLimitRun(userId, old(client.State()))
    {
      var response := Request(QuotaEndpoint(userId), GET, map["fields" := Str(QuotaFields)]);
      r := if response.Success? then Success(Field(response.value, "data")) else Failure(response.error);
    }
  }
}
