/** The client multiplexer as a state machine: one poll of the `Client` future, and runs of it. */
module ClientModel {
  import opened Futures
  import opened JsonRpc
  import opened Ids
  import opened SelectWeak
  import opened ServerModel

  // ----- the transport -----

  datatype SendEv = Accept | Refuse | SendFail(code: int)
  datatype SinkEv = NotYetDone | SinkDone | SinkFail(code: int)

  /** The scripts of the transport: the stream, and the answers of the sink to `start_send`,
      `poll_complete` and `close`. A sink whose script is used up is not ready. */
  datatype Net = Net(rx: Script<Text>, sends: seq<SendEv>, flushes: seq<SinkEv>, closes: seq<SinkEv>)

  function NextSend(net: Net): SendEv {
    if net.sends == [] then Refuse else net.sends[0]
  }

  function NextSink(s: seq<SinkEv>): SinkEv {
    if s == [] then NotYetDone else s[0]
  }

  function Tail<T>(s: seq<T>): seq<T> {
    if s == [] then s else s[1..]
  }

  // ----- the state -----

  type CallResult = Result<Json>

  /** A request that got an id; `since` is the number of responses processed before that. */
  datatype CallRec = CallRec(call: OutgoingMessage, since: nat)

  datatype Outcome = Outcome(id: Id, completion: Token, result: CallResult)
  datatype NoteOutcome = NoteOutcome(completion: Token, result: Result<()>)
  datatype Delivery = ToCall(completion: Token, callResult: CallResult) | ToNote(completion: Token,
      noteResult: Result<()>)

  /** A text passed to `start_send`, and what the sink answered. */
  datatype Offer = Offer(text: Text, answer: SendEv)

  datatype Progress = Running | Resolved | Crashed(error: Error)

  datatype History = History(
    dequeued: seq<OutgoingMessage>,  // taken from the outgoing selector
    calls: seq<CallRec>,             // calls given an id, in order
    offers: seq<Offer>,              // passed to `start_send`, retries included
    sent: seq<Text>,                 // accepted by the sink
    lost: Option<Text>,              // given to the `start_send` that failed
    received: seq<Text>,             // taken from the transport stream
    heard: seq<Output>,              // version 2.0 responses processed
    outcomes: seq<Outcome>,          // completions of calls
    notes: seq<NoteOutcome>,         // completions of notifications
    delivered: seq<Delivery>,        // completions that found their receiver alive
    entered: Option<Error>,          // the error of `handle_messages` that started the shutdown
    progress: Progress)              // what the last poll returned

  datatype Client = Client(
    sel: Sel<OutgoingMessage>,
    nextId: nat,
    shuttingDown: bool,
    pending: map<Id, Token>,
    parked: Option<Text>,
    fatal: Option<Error>,
    server: Server,
    net: Net,
    h: History)

  datatype Res = Res(c: Client, error: Option<Error>)

  const EMPTY_HISTORY := History([], [], [], [], None, [], [], [], [], [], None, Running)

  function InitClient(net: Net, strong: Script<OutgoingMessage>, handlerChan: Chan<HandlerMsg>): Client {
    Client(Sel(Fused(strong, false), Fused([], false), false, false), Nth(0), false, map[], None, None,
           InitServer(handlerChan), net, EMPTY_HISTORY)
  }

  function ShouldShutDown(c: Client): bool {
    c.fatal.Some? || c.shuttingDown
  }

  // ----- completions -----

  function ResultOf(output: Output): CallResult {
    match output
    case Success(_, result, _) => Ok(result)
    case Failure(_, error, _) => Err(JsonRpcError(error))
  }

  function SendRpcResponse(w: World, c: Client, id: Id, completion: Token, result: CallResult): Client {
    c.(h := c.h.(outcomes := c.h.outcomes + [Outcome(id, completion, result)],
                 delivered := c.h.delivered + (if completion in w.dropped then [] else [ToCall(completion, result)])))
  }

  function CompleteNote(w: World, c: Client, completion: Token, result: Result<()>): Client {
    c.(h := c.h.(notes := c.h.notes + [NoteOutcome(completion, result)],
                 delivered := c.h.delivered + (if completion in w.dropped then [] else [ToNote(completion, result)])))
  }

  // ----- the way out -----

  function SendPayload(c: Client, text: Text): Res {
    if c.fatal.Some? then
      Res(c.(h := c.h.(lost := Some(text))), Some(TransportError(0)))
    else
      var offer := Offer(text, NextSend(c.net));
      var d := c.(net := c.net.(sends := Tail(c.net.sends)), h := c.h.(offers := c.h.offers + [offer]));
      match NextSend(c.net)
      case Accept => Res(d.(h := d.h.(sent := d.h.sent + [text])), None)
      case Refuse => Res(d.(parked := Some(text)), None)
      case SendFail(code) => Res(d.(h := d.h.(lost := Some(text))), Some(TransportError(code)))
  }

  function HandleClientPayload(w: World, c: Client, m: OutgoingMessage): Res {
    match m
    case RpcCall(name, params, completion) =>
      var id := Num(c.nextId);
      var d := c.(nextId := Bump(c.nextId), h := c.h.(calls := c.h.calls + [CallRec(m, |c.h.heard|)]));
      (match MethodText(id, name, params)
       case Ok(text) => SendPayload(d.(pending := d.pending[id := completion]), text)
       case Err(e) => Res(SendRpcResponse(w, d, id, completion, Err(e)), None))
    case SendNotification(name, params, completion) =>
      (match NoteText(name, params)
       case Ok(text) => SendPayload(CompleteNote(w, c, completion, Ok(())), text)
       case Err(e) => Res(CompleteNote(w, c, completion, Err(e)), None))
    case SendResponse(response) =>
      (match ResponseToText(response)
       case Ok(text) => SendPayload(c, text)
       case Err(e) => Res(c, Some(e)))
  }

  /** A message taken from the selector. */
  function Dequeue(c: Client): Client
    requires c.sel.Ev().Item?
  {
    c.(sel := c.sel.Step(), h := c.h.(dequeued := c.h.dequeued + [c.sel.Ev().item]))
  }

  /** Take messages from the selector while nothing is parked. */
  function PollOutgoing(w: World, c: Client): Res
    decreases c.sel.Budget()
  {
    if c.parked.Some? then Res(c, None) else
    match c.sel.Ev()
    case Pending => Res(c.(sel := c.sel.Step()), None)
    case Item(m) =>
      var r := HandleClientPayload(w, Dequeue(c), m);
      ItemCosts(c.sel);
      if r.error.Some? then r else PollOutgoing(w, r.c)
    case End => Res(c.(sel := c.sel.Step()), Some(Shutdown))
    case Fail(_) => Res(c.(sel := c.sel.Step()), Some(Unreachable))
  }

  // ----- the way in -----

  function HandleResponse(w: World, c: Client, output: Output): Res {
    if !output.v2 then Res(c, Some(InvalidVersion)) else
    var d := c.(h := c.h.(heard := c.h.heard + [output]));
    if output.id in c.pending then
      Res(SendRpcResponse(w, d.(pending := d.pending - {output.id}), output.id, d.pending[output.id],
          ResultOf(output)), None)
    else
      Res(d, None)
  }

  /** The server's messages arrive on the weak side of the selector. */
  function Enqueue(sel: Sel<OutgoingMessage>, responses: seq<Response>): Sel<OutgoingMessage> {
    sel.(weak := sel.weak.(script := sel.weak.script + AsItems(responses)))
  }

  function HandleRequest(w: World, c: Client, req: Request): Client {
    var r := ProcessRequest(w, c.server, req);
    c.(server := r.server, sel := Enqueue(c.sel, r.sent))
  }

  function HandleRxPayload(w: World, c: Client, text: Text): Res {
    match Decode(text)
    case Malformed => Res(c, Some(DeserializeError))
    case InRequest(req) => Res(HandleRequest(w, c, req), None)
    case InResponse(output) => HandleResponse(w, c, output)
  }

  function Receive(c: Client): Client
    requires Next(c.net.rx).Item?
  {
    c.(net := c.net.(rx := Rest(c.net.rx)), h := c.h.(received := c.h.received + [c.net.rx[0].item]))
  }

  /** Drain the transport stream until it is not ready. */
  function PollTransportRx(w: World, c: Client): Res
    decreases |c.net.rx|
  {
    match Next(c.net.rx)
    case Item(text) =>
      var r := HandleRxPayload(w, Receive(c), text);
      if r.error.Some? then r else PollTransportRx(w, r.c)
    case Pending => Res(c.(net := c.net.(rx := Rest(c.net.rx))), None)
    case End => Res(c.(net := c.net.(rx := Rest(c.net.rx))), Some(Shutdown))
    case Fail(code) => Res(c.(net := c.net.(rx := Rest(c.net.rx))), Some(TransportError(code)))
  }

  // ----- one poll -----

  function DriveServer(c: Client): Res {
    if c.shuttingDown then Res(c, None) else
    var r := PollServer(c.server);
    Res(c.(server := r.server, sel := Enqueue(c.sel, r.sent), shuttingDown := false), r.error)
  }

  function PollTransportTx(c: Client): Res {
    if c.fatal.Some? then Res(c, None) else
    var d := c.(net := c.net.(flushes := Tail(c.net.flushes)));
    match NextSink(c.net.flushes)
    case SinkFail(code) => Res(d, Some(TransportError(code)))
    case _ => Res(d, None)
  }

  function RetryParked(c: Client): Res {
    if c.parked.Some? then SendPayload(c.(parked := None), c.parked.value) else Res(c, None)
  }

  function HandleMessages(w: World, c: Client): Res {
    var r1 := RetryParked(c);
    if r1.error.Some? then r1 else
    var r2 := DriveServer(r1.c);
    if r2.error.Some? then r2 else
    var r3 := PollTransportRx(w, r2.c);
    if r3.error.Some? then r3 else
    var r4 := PollOutgoing(w, r3.c);
    if r4.error.Some? then r4 else
    PollTransportTx(r4.c)
  }

  function HandleShutdown(w: World, c: Client): Client {
    var d := PollTransportRx(w, c).c;
    var e := d.(net := d.net.(closes := Tail(d.net.closes)));
    if NextSink(d.net.closes).NotYetDone? then
      e.(h := e.h.(progress := Running))
    else
      e.(fatal := None, h := e.h.(progress := if e.fatal.Some? then Crashed(e.fatal.value) else Resolved))
  }

  /** Enter the shutdown because of `e`. */
  function Enter(c: Client, e: Error): Client {
    var d := c.(h := c.h.(entered := Some(e)));
    if e == Shutdown then d.(shuttingDown := true) else d.(fatal := Some(e))
  }

  function Poll(w: World, c: Client): Client {
    if ShouldShutDown(c) then HandleShutdown(w, c) else
    var r := HandleMessages(w, c);
    if r.error.None? then r.c.(h := r.c.h.(progress := Running))
    else HandleShutdown(w, Enter(r.c, r.error.value))
  }

  // ----- runs -----

  /** What the surroundings of a client may add between polls. */
  datatype Supply = Supply(
    rx: Script<Text>, strong: Script<OutgoingMessage>, handlerMsgs: Chan<HandlerMsg>,
    sends: seq<SendEv>, flushes: seq<SinkEv>, closes: seq<SinkEv>)

  function Feed(c: Client, f: Supply): Client {
    c.(net := Net(c.net.rx + f.rx, c.net.sends + f.sends, c.net.flushes + f.flushes, c.net.closes + f.closes),
       sel := c.sel.(strong := c.sel.strong.(script := c.sel.strong.script + f.strong)),
       server := c.server.(chan := if c.server.chan.None? then None else Some(c.server.chan.value + f.handlerMsgs)))
  }

  datatype Move = DoPoll | DoFeed(supply: Supply)

  /** A client that has resolved is not polled again. */
  function Step(w: World, c: Client, m: Move): Client {
    match m
    case DoPoll => if c.h.progress.Running? then Poll(w, c) else c
    case DoFeed(f) => Feed(c, f)
  }

  function Run(w: World, c: Client, moves: seq<Move>): Client {
    if moves == [] then c else Step(w, Run(w, c, moves[..|moves| - 1]), moves[|moves| - 1])
  }
}
