/** What crosses the boundary between the request pipeline and the HTTP
    client: responses, the client's error objects (with `convertAxiosError`),
    the exceptions the pipeline throws, and the debug export sink
    (`stepExport`), all from platform/dist/axios.js. */
module Http {
  import opened JsValues

  /** The parts of an axios response the pipeline reads or changes. */
  datatype Response = Response(status: int, headers: Props, data: Value, request: Option<Value>)

  /** Result of `JSON.stringify(v)`: a string, `undefined`, or a thrown exception. */
  datatype StringifyOutcome = Json(text: string) | NoJson | Throws

  /** Template-literal rendering of an error message (`undefined` when absent). */
  function MessageText(message: Option<string>): string
  {
    match message
    case Some(m) => m
    case None => "undefined"
  }

  /** The transport's error object; `convertAxiosError` annotates it in place. */
  class AxiosError {
    var name: string
    var message: Option<string>
    var response: Option<Response>

    constructor (name: string, message: Option<string>, response: Option<Response>)
      ensures this.name == name && this.message == message && this.response == response
    {
      this.name := name;
      this.message := message;
      this.response := response;
    }

    /** `convertAxiosError`: detach the request, combine name and message,
        and replace the message with the serialised response body. */
    method Convert(stringify: Value -> StringifyOutcome)
      requires response.Some?
      modifies this
      ensures Converted(this, old(name), old(message), old(response.value), stringify)
    {
      response := Some(response.value.(request := None));
      name := name + " - " + MessageText(message);
      match stringify(response.value.data) {
        case Json(text) => message := Some(text);
        case NoJson => message := None;
        case Throws =>
      }
    }
  }

  /** `err` is what `convertAxiosError` makes of an error with this name,
      message and response: the request is gone, the name carries the old
      message, and the message is the JSON of the response body (`undefined`
      when the body has no JSON form; the old message when serialising throws). */
  predicate Converted(err: AxiosError, name: string, message: Option<string>, response: Response,
                      stringify: Value -> StringifyOutcome)
    reads err
  {
    && err.response == Some(response.(request := None))
    && err.name == name + " - " + MessageText(message)
    && err.message == match stringify(response.data)
                      case Json(text) => Some(text)
                      case NoJson => None
                      case Throws => message
  }

  /** Everything the pipeline can throw. */
  datatype Exception =
    | ConfigurationError(text: string)
    | NonexistentDataPropertyError
    | TypeError(text: string)
    | SyntaxError
    | URIError
    | Rejection(err: AxiosError)

  /** What the caller passes as `step`: none at all, an object with an `export`
      method, or a plain object without one. */
  datatype Step = NoStep | ExportingStep | PlainStep

  /** A debug artifact: a request configuration, a response body or a response. */
  datatype Payload<C> = ConfigPayload(config: C) | BodyPayload(body: Value) | ResponsePayload(response: Response)

  /** One observable effect of `stepExport`. */
  datatype Effect<C> =
    | Exported(key: string, payload: Payload<C>)
    | Assigned(key: string, payload: Payload<C>)
    | Logged(key: string, payload: Payload<C>)

  /** `stepExport`: the step's `export` method when it has one (and nothing
      else); otherwise a property assignment on the step followed by a log
      line; with no step, only the log line. */
  function StepExport<C>(step: Step, payload: Payload<C>, key: string): (r: seq<Effect<C>>)
    ensures step.ExportingStep? <==> r == [Exported(key, payload)]
    ensures step.PlainStep? <==> r == [Assigned(key, payload), Logged(key, payload)]
    ensures step.NoStep? <==> r == [Logged(key, payload)]
  {
    match step
    case ExportingStep => [Exported(key, payload)]
    case PlainStep => [Assigned(key, payload), Logged(key, payload)]
    case NoStep => [Logged(key, payload)]
  }

  /** Where a debug artifact ends up: every effect carries the key and the
      payload given; the step receives it (through `export` or as a
      property) exactly when there is a step, and at most once; the console
      sees it exactly when the step has no `export` method. */
  lemma ExportDelivery<C>(step: Step, payload: Payload<C>, key: string)
    ensures var r := StepExport(step, payload, key);
            && (forall i :: 0 <= i < |r| ==> r[i].key == key && r[i].payload == payload)
            && ((exists i :: 0 <= i < |r| && !r[i].Logged?) <==> !step.NoStep?)
            && (forall i, j :: 0 <= i < j < |r| ==> r[i].Logged? || r[j].Logged?)
            && ((exists i :: 0 <= i < |r| && r[i].Logged?) <==> !step.ExportingStep?)
  {
    var r := StepExport(step, payload, key);
    if step.PlainStep? {
      assert !r[0].Logged? && r[1].Logged?;
    } else if step.ExportingStep? {
      assert !r[0].Logged?;
    } else {
      assert r[0].Logged?;
    }
  }
}
