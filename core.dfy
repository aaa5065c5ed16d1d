/** Values exchanged with the Threads Graph API, the failures the binding raises,
    and the two closed string enumerations the binding uses. */
module Core {

  datatype Option<+T> = None | Some(value: T)

  /** The four kinds of failure the binding surfaces to its caller. */
  datatype Error =
    | ConfigError(message: string)   // a credential is missing before any client exists
    | SchemaError(issues: seq<string>) // an argument schema rejected its input; the failing fields in shape order
    | ArgumentError(message: string) // the manager's own check on its arguments
    | UpstreamError(message: string) // a successful response lacks the id the workflow needs
    | TransportError                 // the graph client threw (network failure, non-2xx status)

  datatype Result<+T> = Success(value: T) | Failure(error: Error)

  /** A JavaScript value as the binding sees it. Numbers are reals: NaN and the
      infinities are not modelled. */
  datatype Value =
    | Undefined
    | Null
    | Bool(b: bool)
    | Num(n: real)
    | Str(s: string)
    | Arr(elems: seq<Value>)
    | Obj(fields: map<string, Value>)

  /** A plain JavaScript object: request params, tool arguments, response bodies. */
  type Record = map<string, Value>

  /** JavaScript truthiness (`if (v)`, `!v`). */
  predicate Truthy(v: Value) {
    match v
    case Undefined => false
    case Null => false
    case Bool(b) => b
    case Num(n) => n != 0.0
    case Str(s) => s != ""
    case Arr(_) => true
    case Obj(_) => true
  }

  /** Property access `rec.key`: an absent key reads as undefined. */
  function Field(rec: Record, key: string): Value {
    if key in rec then rec[key] else Undefined
  }

  /** An optional string argument as a JavaScript value. */
  function OptionalStr(s: Option<string>): Value {
    match s
    case None => Undefined
    case Some(t) => Str(t)
  }

  /** The `"TEXT" | "IMAGE" | "VIDEO"` media kind. */
  datatype MediaType = TEXT | IMAGE | VIDEO

  function MediaTypeName(t: MediaType): string {
    match t
    case TEXT => "TEXT"
    case IMAGE => "IMAGE"
    case VIDEO => "VIDEO"
  }

  /** The `"everyone" | "accounts_you_follow" | "mentioned_only"` reply control. */
  datatype ReplyControl = Everyone | AccountsYouFollow | MentionedOnly

  function ReplyControlName(c: ReplyControl): string {
    match c
    case Everyone => "everyone"
    case AccountsYouFollow => "accounts_you_follow"
    case MentionedOnly => "mentioned_only"
  }
}
