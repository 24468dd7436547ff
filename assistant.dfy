/**
 * The values exchanged with the conversational-AI service and stored per user:
 * JSON-like values, the message request and response, and the errors that the
 * middleware captures or throws.
 */
module Assistant {
  import opened Wrappers

  /** A JavaScript value as far as the middleware looks at it. */
  datatype JsValue =
    | Undefined
    | Null
    | Bool(b: bool)
    | Num(n: real)
    | Str(s: string)
    | Arr(items: seq<JsValue>)
    | Obj(props: map<string, JsValue>)

  /** JavaScript truthiness (`if (v)`); NaN is not modelled. */
  predicate Truthy(v: JsValue) {
    match v
    case Undefined => false
    case Null => false
    case Bool(b) => b
    case Num(n) => n != 0.0
    case Str(s) => s != ""
    case Arr(_) => true
    case Obj(_) => true
  }

  /** One recognised intent of a response, with the service's confidence score. */
  datatype Intent = Intent(intent: string, confidence: real)

  /** The result body of a message call: `output`, `context` and the optional `intents`. */
  datatype Response = Response(output: JsValue, context: JsValue, intents: Option<seq<Intent>>)

  /**
   * The parameters of a message call. `input` holds the text of `input.text`;
   * `None` means the field is omitted.
   */
  datatype Payload = Payload(
    assistantId: string,
    sessionId: Option<string>,
    input: Option<string>,
    context: Option<JsValue>)

  /** The rejection of a call of the assistant client: its `code` and `message`, as text. */
  datatype RemoteError = RemoteError(code: string, message: string)

  /** The reply of one remote call: its result, or its rejection. */
  type Reply<T> = Result<T, RemoteError>

  /** What ends up in `watsonError`, or is thrown to a direct caller. */
  datatype Error =
    | Thrown(message: string)           // an `Error` the middleware itself creates
    | FromRemote(cause: RemoteError)    // a rejected message call, passed on unchanged
    | FromStore(reason: string)         // a rejected storage write, passed on unchanged
    | FromHook(reason: string)          // a rejected `before`/`after` hook, passed on unchanged
}
