/** The server part as a state machine: the handler registry, the dispatch of requests, the drivers
    of requests in flight, and one poll of the server future. */
module ServerModel {
  import opened Futures
  import opened JsonRpc
  import opened Ids

  // ----- the parts the library does not control -----

  datatype Handler = MethodHandler(h: nat) | NotificationHandler(h: nat)

  /** A future: so many `NotReady` answers, then its result. */
  datatype Fut<+T> = Fut(delay: nat, result: Result<T>)

  /** How a send on the response channel goes: so many `NotReady` answers, then done or refused. */
  datatype SendPlan = SendPlan(delay: nat, open: bool)

  /** Everything user code and the executor decide. Handlers get the number of the request and the
      position in its batch, so two invocations may behave differently. `order(r)` lists, poll by
      poll, which members of batch `r` are polled and in which order. */
  datatype World = World(
    onMethod: (nat, MethodCall, nat, nat) -> Fut<Output>,
    onNote: (nat, Notification, nat, nat) -> Fut<()>,
    order: nat -> seq<seq<nat>>,
    send: nat -> SendPlan,
    dropped: set<Token>)

  // ----- the registry -----

  type Handlers = map<string, Handler>

  datatype HandlerMsg = AddHandler(name: string, handler: Handler, tx: nat) | RemoveHandler(name: string, tx: nat)

  datatype Answer = Added | AlreadyExists(handler: Handler) | Removed(handler: Handler) | NoHandler
  datatype Reply = Reply(tx: nat, answer: Answer)

  function Register(hs: Handlers, msg: HandlerMsg): Handlers {
    match msg
    case AddHandler(name, handler, _) => if name in hs then hs else hs[name := handler]
    case RemoveHandler(name, _) => hs - {name}
  }

  function AnswerTo(hs: Handlers, msg: HandlerMsg): Reply {
    match msg
    case AddHandler(name, handler, tx) => Reply(tx, if name in hs then AlreadyExists(handler) else Added)
    case RemoveHandler(name, tx) => Reply(tx, if name in hs then Removed(hs[name]) else NoHandler)
  }

  // ----- dispatch -----

  function HandleSingleCall(w: World, hs: Handlers, call: Call, request: nat, ix: nat): Fut<Option<Output>> {
    match call
    case Method(m) => HandleMethodCall(w, hs, m, request, ix)
    case Note(n) => HandleNotificationCall(w, hs, n, request, ix)
    case Invalid(id) => Fut(0, Ok(Some(FailureFor(id, InvalidRequest))))
  }

  function HandleMethodCall(w: World, hs: Handlers, m: MethodCall, request: nat, ix: nat): Fut<Option<Output>> {
    if m.name in hs && hs[m.name].MethodHandler? then
      var f := w.onMethod(hs[m.name].h, m, request, ix);
      Fut(f.delay, match f.result case Ok(o) => Ok(Some(o)) case Err(e) => Err(e))
    else
      Fut(0, Ok(Some(FailureFor(m.id, MethodNotFound))))
  }

  function HandleNotificationCall(w: World, hs: Handlers, n: Notification, request: nat, ix: nat): Fut<Option<Output>> {
    if n.name in hs && hs[n.name].NotificationHandler? then
      var f := w.onNote(hs[n.name].h, n, request, ix);
      Fut(f.delay, match f.result case Ok(_) => Ok(None) case Err(e) => Err(e))
    else
      Fut(0, Ok(None))
  }

  function Futs(w: World, hs: Handlers, req: Request, request: nat): seq<Fut<Option<Output>>> {
    match req
    case Single(call) => [HandleSingleCall(w, hs, call, request, 0)]
    case Batch(calls) => seq(|calls|, i requires 0 <= i < |calls| => HandleSingleCall(w, hs, calls[i], request, i))
  }

  // ----- the driver of one request -----

  datatype Child = Live(fut: Fut<Option<Output>>) | Gone

  datatype Phase =
    | AwaitOne(fut: Fut<Option<Output>>)
    | AwaitAll(children: seq<Child>, got: seq<Output>, order: seq<seq<nat>>)
    | Sending(response: Response, left: nat)
    | Stored(error: Error)  // an error from the eager poll, kept for the next poll of the server
    | Finished
    | Broken

  datatype Driver = Driver(request: nat, open: bool, sendDelay: nat, phase: Phase) {
    /** The future has returned `Ready` or `Err`; it must not be polled again. */
    predicate Spent() {
      phase.Finished? || phase.Broken?
    }
  }

  datatype Verdict = NotYet | Completed | Failed(error: Error)

  datatype Polled = Polled(driver: Driver, sent: Option<Response>, verdict: Verdict)

  function NewDriver(w: World, hs: Handlers, req: Request, request: nat): Driver {
    var futs := Futs(w, hs, req, request);
    var plan := w.send(request);
    Driver(request, plan.open, plan.delay,
           if req.Single? then AwaitOne(futs[0])
           else AwaitAll(seq(|futs|, i requires 0 <= i < |futs| => Live(futs[i])), [], w.order(request)))
  }

  datatype Round = Round(children: seq<Child>, got: seq<Output>, error: Option<Error>)

  /** Poll the members of a batch listed in `order`, collecting outputs in completion order. The
      first error ends the round. */
  function PollChildren(children: seq<Child>, got: seq<Output>, order: seq<nat>): Round
    decreases |order|
  {
    if order == [] then
      Round(children, got, None)
    else if order[0] >= |children| || children[order[0]].Gone? then
      PollChildren(children, got, order[1..])
    else
      var i, fut := order[0], children[order[0]].fut;
      if fut.delay > 0 then
        PollChildren(children[i := Live(fut.(delay := fut.delay - 1))], got, order[1..])
      else if fut.result.Err? then
        Round(children, got, Some(fut.result.error))
      else
        PollChildren(children[i := Gone], got + fut.result.value.ToSeq(), order[1..])
  }

  predicate AnyLive(children: seq<Child>) {
    exists i :: 0 <= i < |children| && children[i].Live?
  }

  function PollSend(d: Driver, response: Response, left: nat): Polled {
    if left > 0 then Polled(d.(phase := Sending(response, left - 1)), None, NotYet)
    else if d.open then Polled(d.(phase := Finished), Some(response), Completed)
    else Polled(d.(phase := Broken), None, Failed(Shutdown))
  }

  function PollDriver(d: Driver): Polled {
    match d.phase
    case AwaitOne(fut) =>
      if fut.delay > 0 then Polled(d.(phase := AwaitOne(fut.(delay := fut.delay - 1))), None, NotYet)
      else if fut.result.Err? then Polled(d.(phase := Broken), None, Failed(fut.result.error))
      else if fut.result.value.None? then Polled(d.(phase := Finished), None, Completed)
      else PollSend(d, One(fut.result.value.value), d.sendDelay)
    case AwaitAll(children, got, order) =>
      var round := PollChildren(children, got, if order == [] then [] else order[0]);
      if round.error.Some? then Polled(d.(phase := Broken), None, Failed(round.error.value))
      else if AnyLive(round.children) then
        Polled(d.(phase := AwaitAll(round.children, round.got, if order == [] then [] else order[1..])), None, NotYet)
      else if round.got == [] then Polled(d.(phase := Finished), None, Completed)
      else PollSend(d, Many(round.got), d.sendDelay)
    case Sending(response, left) => PollSend(d, response, left)
    case Stored(e) => Polled(d.(phase := Broken), None, Failed(e))
    case _ => Polled(d, None, NotYet)
  }

  // ----- the server -----

  datatype Entry = Entry(key: nat, driver: Driver)

  /** What has become of a request. */
  datatype Fate = Unsettled | Answered(sent: Option<Response>) | Dead(error: Error)

  datatype Dispatch = Dispatch(request: Request, handlers: Handlers, seen: nat)
  datatype Enqueued = Enqueued(request: nat, response: Response)

  /** The history of a server. Requests are numbered in the order they were handed in; `dispatched`
      keeps each with the registry it met and the number of registry messages consumed by then. */
  datatype Log = Log(
    consumed: seq<HandlerMsg>,
    replies: seq<Reply>,
    dispatched: seq<Dispatch>,
    fates: seq<Fate>,
    enqueued: seq<Enqueued>,
    pushes: nat,   // futures pushed into the table
    repolls: nat)  // polls of a future that had finished

  /** `pending` is the ordered table of futures, in key order. */
  datatype Server = Server(
    handlers: Handlers,
    chan: Option<Chan<HandlerMsg>>,
    pending: seq<Entry>,
    nextKey: nat,
    log: Log)

  function InitLog(): Log {
    Log([], [], [], [], [], 0, 0)
  }

  function InitServer(chan: Chan<HandlerMsg>): Server {
    Server(map[], Some(chan), [], Nth(0), InitLog())
  }

  function Consume(s: Server, msg: HandlerMsg): Server {
    s.(handlers := Register(s.handlers, msg),
       log := s.log.(consumed := s.log.consumed + [msg], replies := s.log.replies + [AnswerTo(s.handlers, msg)]))
  }

  /** Consume registry messages until the channel has no more for now, or is closed. */
  function DrainHandlerChan(s: Server): Server
    decreases if s.chan.Some? then |s.chan.value| else 0
  {
    if s.chan.None? then s else
    match Next(s.chan.value)
    case Item(msg) => DrainHandlerChan(Consume(s.(chan := Some(Rest(s.chan.value))), msg))
    case Pending => s.(chan := Some(Rest(s.chan.value)))
    case End => s.(chan := None)
  }

  /** Record one poll of the driver `d`. */
  function NotePoll(log: Log, d: Driver, p: Polled): Log {
    var log := if d.Spent() then log.(repolls := log.repolls + 1) else log;
    var log := log.(enqueued := log.enqueued + (if p.sent.Some? then [Enqueued(d.request, p.sent.value)] else []));
    if d.request >= |log.fates| then log else
    match p.verdict
    case NotYet => log
    case Completed => log.(fates := log.fates[d.request := Answered(p.sent)])
    case Failed(e) => log.(fates := log.fates[d.request := Dead(e)])
  }

  /** The table without the futures under the given keys. */
  function Without(es: seq<Entry>, keys: seq<nat>): seq<Entry> {
    if es == [] then [] else if es[0].key in keys then Without(es[1..], keys) else [es[0]] + Without(es[1..], keys)
  }

  datatype ServerPoll = ServerPoll(server: Server, sent: seq<Response>, error: Option<Error>)

  /** Poll the futures from position `i` on, in key order. An error stops the round and leaves the
      table as it is, finished futures included. */
  function PollFrom(s: Server, i: nat, ready: seq<nat>, sent: seq<Response>): ServerPoll
    decreases |s.pending| - i
  {
    if i >= |s.pending| then
      ServerPoll(s.(pending := Without(s.pending, ready)), sent, None)
    else
      var e := s.pending[i];
      var p := PollDriver(e.driver);
      var t := s.(pending := s.pending[i := Entry(e.key, p.driver)], log := NotePoll(s.log, e.driver, p));
      var sent' := sent + p.sent.ToSeq();
      if p.verdict.Failed? then ServerPoll(t, sent', Some(p.verdict.error))
      else PollFrom(t, i + 1, if p.verdict.Completed? then ready + [e.key] else ready, sent')
  }

  /** The server's messages as its response channel yields them. */
  function AsItems(responses: seq<Response>): Script<OutgoingMessage> {
    seq(|responses|, i requires 0 <= i < |responses| => Item(SendResponse(responses[i])))
  }

  function PollServer(s: Server): ServerPoll {
    PollFrom(DrainHandlerChan(s), 0, [], [])
  }

  /** Insert into the ordered table; a future already under the key is replaced. */
  function Put(es: seq<Entry>, e: Entry): seq<Entry> {
    if es == [] || e.key < es[0].key then [e] + es
    else if e.key == es[0].key then [e] + es[1..]
    else [es[0]] + Put(es[1..], e)
  }

  function PushFuture(s: Server, d: Driver): Server {
    s.(pending := Put(s.pending, Entry(s.nextKey, d)), nextKey := Bump(s.nextKey),
       log := s.log.(pushes := s.log.pushes + 1))
  }

  function Admit(s: Server, req: Request): Server {
    s.(log := s.log.(dispatched := s.log.dispatched + [Dispatch(req, s.handlers, |s.log.consumed|)],
                     fates := s.log.fates + [Unsettled]))
  }

  /** Take a request: build its driver, poll it once, keep it unless it is done. */
  function ProcessRequest(w: World, s: Server, req: Request): ServerPoll {
    var request := |s.log.dispatched|;
    var d := NewDriver(w, s.handlers, req, request);
    var p := PollDriver(d);
    var t := Admit(s, req);
    match p.verdict
    case NotYet => ServerPoll(PushFuture(t.(log := NotePoll(t.log, d, p)), p.driver), p.sent.ToSeq(), None)
    case Completed => ServerPoll(t.(log := NotePoll(t.log, d, p)), p.sent.ToSeq(), None)
    case Failed(e) => ServerPoll(PushFuture(t, d.(phase := Stored(e))), p.sent.ToSeq(), None)
  }
}
