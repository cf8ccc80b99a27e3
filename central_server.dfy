/**
 * The router ("central server"): a static registry from operation name to
 * backend service, `GET /services`, `GET /health`, and `POST /process`,
 * which validates `{"operation": ..., "text": ...}`, forwards `{"text": ...}`
 * to the registered backend, maps the backend's reply or fault to its own
 * reply, and emits exactly one log record per request.
 */
module CentralServer {
  import opened Wrappers
  import opened Messages
  import Text
  import LowercaseService
  import ReverseService

  /** The registry's keys, a closed set of operations. */
  datatype Operation = Uppercase | Lowercase | Reverse | WordCount

  /** What the registry records for each operation. */
  datatype ServiceInfo = ServiceInfo(url: string, description: string)

  /** The registry's keys in declaration order, each once (they are the keys of a dict). */
  function Registered(): (ops: seq<Operation>)
    ensures forall i, j :: 0 <= i < j < |ops| ==> ops[i] != ops[j]
  {
    [Uppercase, Lowercase, Reverse, WordCount]
  }

  /** Every operation is registered. */
  lemma RegistryComplete()
    ensures forall op :: op in Registered()
  {
    var ops := Registered();
    forall op: Operation ensures op in ops {
      match op
      case Uppercase => assert ops[0] == op;
      case Lowercase => assert ops[1] == op;
      case Reverse => assert ops[2] == op;
      case WordCount => assert ops[3] == op;
    }
  }

  /** The key under which an operation is registered (and requested). */
  function Name(op: Operation): (n: string)
    ensures n != [] && forall k :: 0 <= k < |n| ==> 'a' <= n[k] <= 'z'
  {
    match op
    case Uppercase => "uppercase"
    case Lowercase => "lowercase"
    case Reverse => "reverse"
    case WordCount => "wordcount"
  }

  /** The registry entry of an operation. */
  function Info(op: Operation): (info: ServiceInfo)
    ensures info.url != [] && info.description != []
  {
    match op
    case Uppercase => ServiceInfo("http://uppercase_service:5000/process", "Convert text to UPPERCASE")
    case Lowercase => ServiceInfo("http://lowercase_service:5000/process", "Convert text to lowercase")
    case Reverse => ServiceInfo("http://reverse_service:5000/process", "Reverse text")
    case WordCount => ServiceInfo("http://wordcount_service:5000/process", "Count number of words")
  }

  /** `operation in SERVICES`, returning the registered operation when there is one (case-sensitive). */
  function ParseOperation(name: string): (r: Option<Operation>)
    ensures r.Some? ==> Name(r.value) == name
    ensures r.None? ==> forall op :: Name(op) != name
  {
    if name == "uppercase" then Some(Uppercase)
    else if name == "lowercase" then Some(Lowercase)
    else if name == "reverse" then Some(Reverse)
    else if name == "wordcount" then Some(WordCount)
    else None
  }

  /** Every operation is found again under its own name. */
  lemma ParseNames()
    ensures forall op :: ParseOperation(Name(op)) == Some(op)
  {
  }

  /** Each operation has its own name and its own backend URL. */
  lemma RegistryDistinct()
    ensures forall a: Operation, b: Operation :: a != b ==> Name(a) != Name(b) && Info(a).url != Info(b).url
  {
  }

  /** `list(SERVICES.keys())`: the registered names, in registry order. */
  function AvailableOperations(): (names: seq<string>)
    ensures names == ["uppercase", "lowercase", "reverse", "wordcount"]
    ensures forall name :: name in names <==> ParseOperation(name).Some?
  {
    var ops := Registered();
    seq(|ops|, k requires 0 <= k < |ops| => Name(ops[k]))
  }

  /** `GET /health` of the router: a fixed reply; it has no failure path. */
  function Health(): (r: Reply)
    ensures r.status == 200
    ensures r.body == map["status" := Str("healthy"), "service" := Str("central_server")]
  {
    Reply(200, map["status" := Str("healthy"), "service" := Str("central_server")])
  }

  /** `GET /services`: `{"services": {name: description}}` for exactly the registered operations. */
  function ListServices(): (r: Reply)
    ensures r.status == 200 && r.body.Keys == {"services"} && r.body["services"].Object?
    ensures forall name :: name in r.body["services"].fields <==> ParseOperation(name).Some?
    ensures forall op :: Name(op) in r.body["services"].fields && r.body["services"].fields[Name(op)] == Str(Info(op).description)
  {
    var services := map name | name in AvailableOperations() :: Str(Info(ParseOperation(name).value).description);
    ParseNames();
    Reply(200, map["services" := Object(services)])
  }

  /** The outcome field of a log record. */
  datatype LogStatus = Success | Error

  /** One log record; the timestamp is not modelled. */
  datatype LogEntry = LogEntry(
    operation: Option<string>,
    textLength: nat,
    status: LogStatus,
    resultPreview: Option<string>)

  /** How many code points of a result a log record keeps. */
  const PreviewLength: nat := 50

  /** `str(result)[:50] if result else None`. */
  function Preview(result: Option<Json>): (p: Option<string>)
    ensures p.Some? <==> result.Some? && Truthy(result.value)
    ensures p.Some? ==> |p.value| <= PreviewLength
    ensures p.Some? ==> p.value <= Show(result.value)
    ensures p.Some? && |Show(result.value)| <= PreviewLength ==> p.value == Show(result.value)
    ensures p.Some? && |Show(result.value)| > PreviewLength ==> |p.value| == PreviewLength
  {
    if result.None? || !Truthy(result.value) then None
    else
      var s := Show(result.value);
      Some(if |s| <= PreviewLength then s else s[..PreviewLength])
  }

  /** `log_request(operation, text, result, status)`: the record it emits. */
  function LogRequest(operation: Option<string>, text: Option<string>, result: Option<Json>, status: LogStatus): (e: LogEntry)
    ensures e.operation == operation && e.status == status
    ensures e.textLength == 0 <==> text.None? || text.value == []
    ensures text.Some? ==> e.textLength == |text.value|
    ensures e.resultPreview == Preview(result)
  {
    LogEntry(operation, if text.None? || text.value == [] then 0 else |text.value|, status, Preview(result))
  }

  /** The request the router sends to a backend: `POST url` with a JSON body. */
  datatype Forward = Forward(url: string, payload: RequestBody)

  /** What the backend call comes to: a decoded JSON object reply, or one of three faults. */
  datatype BackendOutcome =
    | Ok(reply: Reply)          // any status code, with its JSON object body
    | ConnectionFailed          // requests.exceptions.ConnectionError
    | TimedOut                  // requests.exceptions.Timeout
    | Failed(message: string)   // any other exception, with str(e)

  /**
   * The `try` block of `process`: relays a backend reply unchanged (body and
   * status), maps the three faults to 503, 504 and 500, and logs once.
   */
  function Relay(operation: string, text: string, outcome: BackendOutcome): (x: (Reply, LogEntry))
    ensures outcome.Ok? ==> x.0 == outcome.reply
    ensures outcome.Ok? && outcome.reply.status == 200 ==>
      x.1.resultPreview == Preview(Lookup(outcome.reply.body, "result"))
    ensures outcome.Ok? && outcome.reply.status != 200 ==>
      x.1.resultPreview == Preview(Lookup(outcome.reply.body, "error"))
    ensures outcome.ConnectionFailed? ==> x.0 == ErrorReply(503, "Service '" + operation + "' is unavailable")
    ensures outcome.TimedOut? ==> x.0 == ErrorReply(504, "Service '" + operation + "' timed out")
    ensures outcome.Failed? ==> x.0 == ErrorReply(500, "Internal server error: " + outcome.message)
    ensures !outcome.Ok? ==> x.1.resultPreview == Preview(Some(x.0.body["error"]))
    ensures x.1.status == Success <==> outcome.Ok? && outcome.reply.status == 200
    ensures x.1.operation == Some(operation) && x.1.textLength == |text|
  {
    match outcome
    case Ok(reply) =>
      if reply.status == 200 then
        (reply, LogRequest(Some(operation), Some(text), Lookup(reply.body, "result"), Success))
      else
        (reply, LogRequest(Some(operation), Some(text), Lookup(reply.body, "error"), Error))
    case ConnectionFailed =>
      var message := "Service '" + operation + "' is unavailable";
      (ErrorReply(503, message), LogRequest(Some(operation), Some(text), Some(Str(message)), Error))
    case TimedOut =>
      var message := "Service '" + operation + "' timed out";
      (ErrorReply(504, message), LogRequest(Some(operation), Some(text), Some(Str(message)), Error))
    case Failed(description) =>
      var message := "Internal server error: " + description;
      (ErrorReply(500, message), LogRequest(Some(operation), Some(text), Some(Str(message)), Error))
  }

  /**
   * The requests the router forwards, stated independently of its guard
   * chain: a non-empty body, a non-empty registered operation, and a text
   * with at least one non-whitespace code point.
   */
  predicate Forwardable(body: Option<RequestBody>) {
    && body.Some?
    && Field(body.value, "operation").Some?
    && ParseOperation(Field(body.value, "operation").value).Some?
    && Field(body.value, "text").Some?
    && !Text.AllSpace(Field(body.value, "text").value)
  }

  /** The number of code points of the request's text, 0 when it is absent. */
  function RequestTextLength(body: Option<RequestBody>): nat {
    if body.Some? && Field(body.value, "text").Some? then |Field(body.value, "text").value| else 0
  }

  /** `list(SERVICES.keys())` as the JSON array of the unknown-operation reply. */
  function OperationList(): (j: Json)
    ensures j.Array? && |j.items| == |AvailableOperations()|
    ensures forall k :: 0 <= k < |j.items| ==> j.items[k] == Str(AvailableOperations()[k])
  {
    var names := AvailableOperations();
    Array(seq(|names|, k requires 0 <= k < |names| => Str(names[k])))
  }

  /** What the four guards of `process` decide: a 400 reply with its log record, or the request to forward. */
  datatype Validation =
    | Rejected(response: Reply, log: LogEntry)
    | Accepted(operation: Operation, text: string)

  /**
   * The guard chain of `POST /process`, in the source's order: no body, no
   * operation, unknown operation, blank text. Only a request that passes
   * all four is accepted.
   */
  function Validate(body: Option<RequestBody>): (v: Validation)
    // no data
    ensures body.None? || body.value == map[] ==>
      v == Rejected(ErrorReply(400, "No data provided"), LogEntry(None, 0, Error, Some("No data provided")))
    // no operation: wins over every text check
    ensures (body.Some? && body.value != map[]
             && (Field(body.value, "operation").None? || Field(body.value, "operation").value == [])) ==>
      && v.Rejected?
      && v.response == ErrorReply(400, "No operation specified")
      && v.log.operation.None?
      && v.log.resultPreview == Some("No operation specified")
    // unknown operation
    ensures (body.Some? && Field(body.value, "operation").Some? && Field(body.value, "operation").value != []
             && ParseOperation(Field(body.value, "operation").value).None?) ==>
      && v.Rejected?
      && v.response == Reply(400, map[
           "error" := Str("Invalid operation: " + Field(body.value, "operation").value),
           "available_operations" := OperationList()])
      && v.log.operation == Field(body.value, "operation")
      && v.log.resultPreview == Some("Invalid operation")
    // blank text
    ensures (body.Some? && Field(body.value, "operation").Some?
             && ParseOperation(Field(body.value, "operation").value).Some?
             && Text.Blank(Field(body.value, "text"))) ==>
      && v.Rejected?
      && v.response == ErrorReply(400, "Input text cannot be empty")
      && v.log.operation == Field(body.value, "operation")
      && v.log.resultPreview == Some("Empty input")
    // acceptance is exactly the independent description
    ensures v.Accepted? <==> Forwardable(body)
    ensures v.Accepted? ==>
      && Some(Name(v.operation)) == Field(body.value, "operation")
      && Some(v.text) == Field(body.value, "text")
    ensures v.Rejected? ==>
      && v.response.status == 400
      && v.log.status == Error
      && v.log.textLength == RequestTextLength(body)
      && v.log.resultPreview.Some?
      && |v.log.resultPreview.value| <= PreviewLength
  {
    if body.None? || body.value == map[] then
      Rejected(ErrorReply(400, "No data provided"), LogRequest(None, None, Some(Str("No data provided")), Error))
    else
      var operation := Field(body.value, "operation");
      var text := Field(body.value, "text");
      if operation.None? || operation.value == [] then
        Rejected(ErrorReply(400, "No operation specified"),
                 LogRequest(None, text, Some(Str("No operation specified")), Error))
      else if ParseOperation(operation.value).None? then
        var reply := Reply(400, map[
          "error" := Str("Invalid operation: " + operation.value),
          "available_operations" := OperationList()]);
        Rejected(reply, LogRequest(operation, text, Some(Str("Invalid operation")), Error))
      else if Text.Blank(text) then
        Rejected(ErrorReply(400, "Input text cannot be empty"),
                 LogRequest(operation, text, Some(Str("Empty input")), Error))
      else
        Accepted(ParseOperation(operation.value).value, text.value)
  }

  /** What one `POST /process` comes to: the reply, its one log record, and the backend request if one was made. */
  datatype Exchange = Exchange(response: Reply, log: LogEntry, forwarded: Option<Forward>)

  /**
   * `POST /process`: a rejected request is answered with its 400 reply and
   * never forwarded; an accepted one is forwarded as exactly `{"text": text}`
   * to the registered URL, and the backend outcome is mapped by `Relay`.
   * Either way exactly one log record is produced.
   */
  function Process(body: Option<RequestBody>, backend: Forward -> BackendOutcome): (x: Exchange)
    ensures x.forwarded.Some? <==> Forwardable(body)
    ensures Validate(body).Rejected? ==> x.response == Validate(body).response && x.log == Validate(body).log
    ensures Forwardable(body) ==>
      var operation := Field(body.value, "operation").value;
      var text := Field(body.value, "text").value;
      var request := Forward(Info(ParseOperation(operation).value).url, map["text" := Some(text)]);
      && x.forwarded == Some(request)
      && x.response == Relay(operation, text, backend(request)).0
      && x.log == Relay(operation, text, backend(request)).1
    ensures x.log.textLength == RequestTextLength(body)
    ensures x.log.status == Success ==> x.forwarded.Some? && x.response.status == 200
  {
    match Validate(body)
    case Rejected(response, log) => Exchange(response, log, None)
    case Accepted(op, text) =>
      var request := Forward(Info(op).url, map["text" := Some(text)]);
      var (response, log) := Relay(Name(op), text, backend(request));
      Exchange(response, log, Some(request))
  }

  /** A rejected request never reaches a backend: its reply and log do not depend on the backend. */
  lemma RejectionIgnoresBackend(body: Option<RequestBody>, one: Forward -> BackendOutcome, other: Forward -> BackendOutcome)
    requires !Forwardable(body)
    ensures Process(body, one) == Process(body, other)
    ensures Process(body, one).forwarded.None?
  {
  }

  /** The text the router forwards always passes a transform service's own two-stage validation. */
  lemma ForwardedPayloadIsAccepted(body: Option<RequestBody>, backend: Forward -> BackendOutcome)
    requires Forwardable(body)
    ensures Process(body, backend).forwarded.Some?
    ensures LowercaseService.Process(Some(Process(body, backend).forwarded.value.payload)).status == 200
    ensures ReverseService.Process(Some(Process(body, backend).forwarded.value.payload)).status == 200
  {
    var payload := Process(body, backend).forwarded.value.payload;
    assert payload == map["text" := Field(body.value, "text")];
  }

  /** The request `{"operation": op, "text": text}`. */
  function Request(op: Operation, text: string): RequestBody {
    map["operation" := Some(Name(op)), "text" := Some(text)]
  }

  /**
   * A well-formed request for a registered operation with a non-blank text
   * is forwarded as `{"text": text}` to that operation's URL, and its reply
   * and log are the mapped backend outcome.
   */
  lemma RegisteredRequestIsForwarded(op: Operation, text: string, backend: Forward -> BackendOutcome)
    requires !Text.AllSpace(text)
    ensures Process(Some(Request(op, text)), backend).forwarded == Some(Forward(Info(op).url, map["text" := Some(text)]))
    ensures Process(Some(Request(op, text)), backend).response
         == Relay(Name(op), text, backend(Forward(Info(op).url, map["text" := Some(text)]))).0
    ensures Process(Some(Request(op, text)), backend).log
         == Relay(Name(op), text, backend(Forward(Info(op).url, map["text" := Some(text)]))).1
  {
    var body := Request(op, text);
    assert Field(body, "operation") == Some(Name(op));
    assert Field(body, "text") == Some(text);
    ParseNames();
  }

  /**
   * End to end through the reverse service: a non-blank text comes back
   * reversed with 200, and the one log record is a success previewing it.
   */
  lemma ReverseEndToEnd(text: string, backend: Forward -> BackendOutcome)
    requires !Text.AllSpace(text)
    requires backend(Forward(Info(Reverse).url, map["text" := Some(text)]))
          == Ok(ReverseService.Process(Some(map["text" := Some(text)])))
    ensures Process(Some(Request(Reverse, text)), backend).response
         == Reply(200, map["result" := Str(ReverseService.Reverse(text))])
    ensures Process(Some(Request(Reverse, text)), backend).log
         == LogEntry(Some(Name(Reverse)), |text|, Success, Preview(Some(Str(ReverseService.Reverse(text)))))
  {
    ReverseService.AcceptsNonBlank(text);
    var reply := Reply(200, map["result" := Str(ReverseService.Reverse(text))]);
    assert Lookup(reply.body, "result") == Some(Str(ReverseService.Reverse(text)));
    RegisteredRequestIsForwarded(Reverse, text, backend);
  }

  /**
   * End to end through the lowercase service: a non-blank text comes back
   * lower-cased with 200, and the one log record is a success previewing it.
   */
  lemma LowercaseEndToEnd(text: string, backend: Forward -> BackendOutcome)
    requires !Text.AllSpace(text)
    requires backend(Forward(Info(Lowercase).url, map["text" := Some(text)]))
          == Ok(LowercaseService.Process(Some(map["text" := Some(text)])))
    ensures Process(Some(Request(Lowercase, text)), backend).response
         == Reply(200, map["result" := Str(LowercaseService.Lower(text))])
    ensures Process(Some(Request(Lowercase, text)), backend).log
         == LogEntry(Some(Name(Lowercase)), |text|, Success, Preview(Some(Str(LowercaseService.Lower(text)))))
  {
    LowercaseService.AcceptsNonBlank(text);
    var reply := Reply(200, map["result" := Str(LowercaseService.Lower(text))]);
    assert Lookup(reply.body, "result") == Some(Str(LowercaseService.Lower(text)));
    RegisteredRequestIsForwarded(Lowercase, text, backend);
  }

  /** An unreachable backend gives 503 with a message naming the requested operation. */
  lemma UnreachableBackendNamesOperation(op: Operation, text: string, backend: Forward -> BackendOutcome)
    requires !Text.AllSpace(text)
    requires backend(Forward(Info(op).url, map["text" := Some(text)])) == ConnectionFailed
    ensures Process(Some(Request(op, text)), backend).response
         == ErrorReply(503, "Service '" + Name(op) + "' is unavailable")
  {
    RegisteredRequestIsForwarded(op, text, backend);
  }
}
