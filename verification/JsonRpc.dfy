/** JSON-RPC 2.0 messages as the library sees them. Text is kept decoded: `Text` says what a string
    on the wire parses to. */
module JsonRpc {
  import opened Futures

  datatype Result<+T> = Ok(value: T) | Err(error: Error)

  datatype Error =
    | TransportError(code: int)
    | SerializeError
    | DeserializeError
    | InvalidVersion
    | Shutdown
    | JsonRpcError(rpc: RpcError)
    | OtherError(code: int)
    | Unreachable  // the `unreachable!` panic

  datatype RpcError = MethodNotFound | InvalidRequest | AppError(code: int)

  // ----- values and parameters -----

  /** A serialisable value. `Poison` is one whose serialiser reports an error. */
  datatype Json = Null | Prim(n: int) | Arr(items: seq<Json>) | Obj(fields: map<string, Json>) | Poison {
    predicate Clean() {
      match this
      case Poison => false
      case Arr(items) => forall j :: j in items ==> j.Clean()
      case Obj(fields) => forall k :: k in fields ==> fields[k].Clean()
      case _ => true
    }
  }

  datatype Params = ParamArray(items: seq<Json>) | ParamMap(fields: map<string, Json>)

  /** Section 4.2 of the JSON-RPC 2.0 specification: parameters are an array, an object or absent. */
  function SerializeParameters(params: Json): Result<Option<Params>> {
    if !params.Clean() then Err(SerializeError) else
    match params
    case Null => Ok(None)
    case Arr(items) => Ok(Some(ParamArray(items)))
    case Obj(fields) => Ok(Some(ParamMap(fields)))
    case _ => Ok(Some(ParamArray([params])))
  }

  /** How already converted parameters serialise. */
  function ParamsValue(params: Option<Params>): Json {
    match params
    case None => Null
    case Some(ParamArray(items)) => Arr(items)
    case Some(ParamMap(fields)) => Obj(fields)
  }

  /** Parameters are converted by the handle and once more by the client; the second pass changes
      nothing and cannot fail. */
  lemma SerializeTwice(params: Json)
    ensures var once := SerializeParameters(params);
            once.Ok? ==> SerializeParameters(ParamsValue(once.value)) == once
  {
    if params.Prim? {
      assert forall j :: j in [params] ==> j.Clean();
      assert Arr([params]).Clean();
    }
  }

  /** Parameters that hold no poisoned value. */
  predicate CleanParams(params: Option<Params>) {
    match params
    case None => true
    case Some(ParamArray(items)) => forall j :: j in items ==> j.Clean()
    case Some(ParamMap(fields)) => forall k :: k in fields ==> fields[k].Clean()
  }

  // ----- messages -----

  datatype Id = NullId | Num(n: nat) | Str(s: string)

  datatype Output =
    | Success(v2: bool, result: Json, id: Id)
    | Failure(v2: bool, error: RpcError, id: Id)

  datatype MethodCall = MethodCall(name: string, params: Option<Params>, id: Id)
  datatype Notification = Notification(name: string, params: Option<Params>)
  datatype Call = Method(call: MethodCall) | Note(note: Notification) | Invalid(id: Id)
  datatype Request = Single(call: Call) | Batch(calls: seq<Call>)
  datatype Response = One(output: Output) | Many(outputs: seq<Output>)

  function FailureFor(id: Id, error: RpcError): Output {
    Failure(true, error, id)
  }

  // ----- the wire -----

  datatype Text = RequestText(request: Request) | ResponseText(response: Response) | Garbage

  datatype Incoming = Malformed | InRequest(request: Request) | InResponse(output: Output)

  /** What a client reads out of a string. A batch of responses is neither an output nor a request. */
  function Decode(text: Text): Incoming {
    match text
    case RequestText(request) => InRequest(request)
    case ResponseText(One(output)) => InResponse(output)
    case _ => Malformed
  }

  function MethodText(id: Id, name: string, params: Option<Params>): Result<Text> {
    match SerializeParameters(ParamsValue(params))
    case Ok(p) => Ok(RequestText(Single(Method(MethodCall(name, p, id)))))
    case Err(e) => Err(e)
  }

  function NoteText(name: string, params: Option<Params>): Result<Text> {
    match SerializeParameters(ParamsValue(params))
    case Ok(p) => Ok(RequestText(Single(Note(Notification(name, p)))))
    case Err(e) => Err(e)
  }

  /** The request of a call carries its id, its method name and its parameters as they are. */
  lemma MethodTextIs(id: Id, name: string, params: Option<Params>)
    ensures MethodText(id, name, params)
         == if CleanParams(params) then Ok(RequestText(Single(Method(MethodCall(name, params, id)))))
            else Err(SerializeError)
  {
  }

  /** So does a notification, which has no id. */
  lemma NoteTextIs(name: string, params: Option<Params>)
    ensures NoteText(name, params)
         == if CleanParams(params) then Ok(RequestText(Single(Note(Notification(name, params)))))
            else Err(SerializeError)
  {
  }

  predicate CleanOutput(output: Output) {
    output.Success? ==> output.result.Clean()
  }

  function ResponseToText(response: Response): Result<Text> {
    var outputs := match response case One(output) => [output] case Many(outputs) => outputs;
    if forall o :: o in outputs ==> CleanOutput(o) then Ok(ResponseText(response)) else Err(SerializeError)
  }

  predicate CleanResponse(response: Response) {
    match response
    case One(output) => CleanOutput(output)
    case Many(outputs) => forall o :: o in outputs ==> CleanOutput(o)
  }

  /** A response is sent as it is, a batch in one piece. */
  lemma ResponseTextIs(response: Response)
    ensures ResponseToText(response)
         == if CleanResponse(response) then Ok(ResponseText(response)) else Err(SerializeError)
  {
  }

  // ----- messages handed to the client -----

  type Token = nat  // names one one-shot completion channel

  datatype OutgoingMessage =
    | RpcCall(name: string, params: Option<Params>, completion: Token)
    | SendNotification(name: string, params: Option<Params>, completion: Token)
    | SendResponse(response: Response)
}
