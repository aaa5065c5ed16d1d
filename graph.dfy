/** The Graph API client, replaced by a scripted oracle: a queue of responses
    consumed one per request, and a log to which every request is appended.
    Transport details (base URL, API version, access-token signing, JSON
    parsing) are not part of this model. */
module Graph {
  import opened Core

  datatype Method = GET | POST

  /** One call of the client: the HTTP method, the endpoint path and the params
      (the query string for GET, the body for POST). */
  datatype Request = Request(verb: Method, endpoint: string, params: Record)

  /** A scripted answer: a parsed JSON object, or a failure the client throws. */
  datatype Response = Ok(body: Record) | Failed

  /** The client's state as a value: the answers still to come and the requests made. */
  datatype Oracle = Oracle(script: seq<Response>, log: seq<Request>)

  /** The next answer; once the script is used up every request fails. */
  function Next(script: seq<Response>): Response {
    if script == [] then Failed else script[0]
  }

  function Rest(script: seq<Response>): seq<Response> {
    if script == [] then [] else script[1..]
  }

  /** One request against the oracle: it is logged, one answer is consumed, and a
      failed answer surfaces as a transport error. */
  function Perform(o: Oracle, req: Request): (r: (Result<Record>, Oracle))
    ensures r.1.log == o.log + [req]
    ensures r.1.script == Rest(o.script)
    ensures r.0.Success? <==> Next(o.script).Ok?
    ensures r.0.Success? ==> r.0.value == Next(o.script).body
    ensures r.0.Failure? ==> r.0.error == TransportError
  {
    var answer := Next(o.script);
    var o' := Oracle(Rest(o.script), o.log + [req]);
    match answer
    case Ok(body) => (Success(body), o')
    case Failed => (Failure(TransportError), o')
  }

  class Client {
    var script: seq<Response>
    var log: seq<Request>

    constructor (script: seq<Response>)
      ensures this.script == script && log == []
    {
      this.script := script;
      log := [];
    }

    function State(): Oracle
      reads this
    {
      Oracle(script, log)
    }

    /** `request({method, endpoint, params})`, `get(endpoint, params)`, `post(endpoint, params)`. */
    method Send(verb: Method, endpoint: string, params: Record) returns (r: Result<Record>)
      modifies this
      ensures (r, State()) == Perform(old(State()), Request(verb, endpoint, params))
    {
      var answer := Next(script);
      script := Rest(script);
      log := log + [Request(verb, endpoint, params)];
      match answer {
        case Ok(body) => r := Success(body);
        case Failed => r := Failure(TransportError);
      }
    }
  }
}
