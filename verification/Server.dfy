/** The server future as an object. Its methods do what the state machine of `ServerModel` does. */
module ServerMachine {
  import opened Futures
  import opened JsonRpc
  import opened Ids
  import opened SelectWeak
  import opened ServerModel
  import opened DriverProofs
  import opened ServerProofs
  import opened ServerProgress
  import Model = ServerModel

  /** The registry of handlers. */
  class HandlerMap {
    var handlers: Handlers

    constructor ()
      ensures handlers == map[]
    {
      handlers := map[];
    }

    /** Refuses a name that is taken. */
    method Add(name: string, handler: Handler) returns (answer: Answer)
      modifies this
      ensures old(name !in handlers) ==> answer == Added && handlers == old(handlers)[name := handler]
      ensures old(name in handlers) ==> answer == AlreadyExists(handler) && handlers == old(handlers)
    {
      if name in handlers {
        return AlreadyExists(handler);
      }
      handlers := handlers[name := handler];
      answer := Added;
    }

    method Remove(name: string) returns (answer: Answer)
      modifies this
      ensures old(name in handlers) ==> answer == Removed(old(handlers)[name])
      ensures old(name !in handlers) ==> answer == NoHandler
      ensures handlers == old(handlers) - {name}
    {
      if name in handlers {
        answer := Removed(handlers[name]);
        handlers := handlers - {name};
      } else {
        answer := NoHandler;
      }
    }
  }

  lemma AppendItems(a: seq<Response>, b: seq<Response>)
    ensures AsItems(a + b) == AsItems(a) + AsItems(b)
  {
  }

  lemma ProcessRequestKeeps(w: World, s: Model.Server, req: Request)
    ensures ServerOk(w, s) ==> ServerOk(w, Model.ProcessRequest(w, s, req).server)
    ensures Healthy(s.pending) ==> Healthy(Model.ProcessRequest(w, s, req).server.pending)
  {
    ProcessRequestHealthy(w, s, req);
    if ServerOk(w, s) {
      ProcessRequestOk(w, s, req);
    }
  }

  lemma AnsweredIfReady(w: World, s: Model.Server, req: Request)
    ensures var d := Dispatch(req, s.handlers, |s.log.consumed|);
            var r := Model.ProcessRequest(w, s, req);
            |s.log.fates| == |s.log.dispatched| && AllReady(w, d, |s.log.dispatched|) ==>
              && r.server.pending == s.pending
              && exists sent :: AnswerIs(w, d, |s.log.dispatched|, sent) && r.sent == sent.ToSeq()
                   && r.server.log.fates == s.log.fates + [Answered(sent)]
  {
    hide AllReady, AnswerIs;
    var d := Dispatch(req, s.handlers, |s.log.consumed|);
    if |s.log.fates| == |s.log.dispatched| && AllReady(w, d, |s.log.dispatched|) {
      AnsweredAtOnce(w, s, req);
    }
  }

  class Server {
    const handlerMap: HandlerMap
    const ids: IdGenerator
    var handlerChan: Option<Chan<HandlerMsg>>
    var pendingFutures: seq<Entry>
    var requests: nat  // numbers the requests; a driver carries the number of its request
    ghost var log: Log

    ghost predicate Valid()
      reads this
    {
      requests == |log.dispatched|
    }

    constructor (chan: Chan<HandlerMsg>)
      ensures Valid() && State() == InitServer(chan)
      ensures fresh(handlerMap) && fresh(ids)
    {
      handlerMap := new HandlerMap();
      ids := new IdGenerator();
      handlerChan := Some(chan);
      pendingFutures, requests := [], 0;
      log := InitLog();
    }

    ghost function State(): Model.Server
      reads this, handlerMap, ids
    {
      Model.Server(handlerMap.handlers, handlerChan, pendingFutures, ids.nextId, log)
    }

    /** Every driver in the table holds a sender of the one response channel `sink`. */
    method Poll(sink: Fuse<OutgoingMessage>) returns (error: Option<Error>)
      requires Valid()
      modifies this, handlerMap, sink
      ensures Valid()
      ensures State() == PollServer(old(State())).server
      ensures error == PollServer(old(State())).error
      ensures forall w :: old(ServerOk(w, State()) && Healthy(pendingFutures)) ==>
                ServerOk(w, State()) && (error.None? ==> Healthy(pendingFutures))
      ensures sink.State() == old(sink.State()).(script := old(sink.script) + AsItems(PollServer(old(State())).sent))
    {
      hide ServerOk, Healthy, PollDriver, NotePoll, Without, Model.DrainHandlerChan;
      forall w | ServerOk(w, State()) && Healthy(pendingFutures)
        ensures var r := PollServer(State()); ServerOk(w, r.server) && (r.error.None? ==> Healthy(r.server.pending))
      {
        PollServerOk(w, State());
      }
      DrainHandlerChan();
      ghost var start := State();
      ghost var sent: seq<Response> := [];
      var ready: seq<nat> := [];
      var i := 0;
      while i < |pendingFutures|
        invariant 0 <= i <= |pendingFutures| && Valid()
        invariant PollFrom(start, 0, [], []) == PollFrom(State(), i, ready, sent)
        invariant sink.State() == old(sink.State()).(script := old(sink.script) + AsItems(sent))
      {
        var key := pendingFutures[i].key;
        ghost var p := PollDriver(pendingFutures[i].driver);
        var verdict := PollFuture(i, sink);
        AppendItems(sent, p.sent.ToSeq());
        sent := sent + p.sent.ToSeq();
        match verdict {
          case Failed(err) => return Some(err);
          case Completed => ready := ready + [key];
          case NotYet =>
        }
        i := i + 1;
      }
      pendingFutures := Without(pendingFutures, ready);
      error := None;
    }

    /** Poll the future at position `i`; what it sends goes straight to its channel. */
    method PollFuture(i: nat, sink: Fuse<OutgoingMessage>) returns (verdict: Verdict)
      requires Valid() && i < |pendingFutures|
      modifies this, sink
      ensures Valid()
      ensures var e := old(pendingFutures)[i];
              var p := PollDriver(e.driver);
              && verdict == p.verdict
              && State() == old(State()).(pending := old(pendingFutures)[i := Entry(e.key, p.driver)],
                                          log := NotePoll(old(log), e.driver, p))
              && sink.State() == old(sink.State()).(script := old(sink.script) + AsItems(p.sent.ToSeq()))
      ensures var v := old(pendingFutures)[i].driver;
              !v.Spent() && FairNow(v) && verdict.NotYet? ==> Wait(pendingFutures[i].driver) < Wait(v)
    {
      hide Wait, FairNow;
      if !pendingFutures[i].driver.Spent() {
        PollCloser(pendingFutures[i].driver);
      }
      var e := pendingFutures[i];
      var p := PollDriver(e.driver);
      pendingFutures := pendingFutures[i := Entry(e.key, p.driver)];
      log := NotePoll(log, e.driver, p);
      if p.sent.Some? {
        sink.Push(SendResponse(p.sent.value));
      }
      verdict := p.verdict;
    }

    method DrainHandlerChan()
      requires Valid()
      modifies this, handlerMap
      ensures Valid()
      ensures State() == Model.DrainHandlerChan(old(State()))
    {
      if handlerChan.None? {
        return;
      }
      var chan := handlerChan.value;
      handlerChan := None;
      while chan != []
        invariant handlerChan == None && Valid()
        invariant Model.DrainHandlerChan(old(State())) == Model.DrainHandlerChan(State().(chan := Some(chan)))
      {
        var ev := chan[0];
        chan := chan[1..];
        match ev {
          case Pending =>
            handlerChan := Some(chan);
            return;
          case End =>
            return;
          case Item(msg) =>
            ghost var reply := AnswerTo(handlerMap.handlers, msg);
            var answer: Answer;
            match msg {
              case AddHandler(name, handler, _) => answer := handlerMap.Add(name, handler);
              case RemoveHandler(name, _) => answer := handlerMap.Remove(name);
            }
            log := log.(consumed := log.consumed + [msg], replies := log.replies + [Reply(msg.tx, answer)]);
            assert Reply(msg.tx, answer) == reply;
        }
      }
      handlerChan := Some(chan);
    }

    method PushFuture(d: Driver)
      requires Valid()
      modifies this, ids
      ensures Valid()
      ensures State() == Model.PushFuture(old(State()), d)
    {
      var key := ids.NextInt();
      pendingFutures := Put(pendingFutures, Entry(key, d));
      log := log.(pushes := log.pushes + 1);
    }

    method ProcessRequest(w: World, req: Request, sink: Fuse<OutgoingMessage>)
      requires Valid()
      modifies this, ids, sink
      ensures Valid()
      ensures State() == Model.ProcessRequest(w, old(State()), req).server
      ensures var d := Dispatch(req, old(handlerMap.handlers), |old(log).consumed|);
              |old(log).fates| == |old(log).dispatched| && AllReady(w, d, |old(log).dispatched|) ==>
                && pendingFutures == old(pendingFutures)
                && exists sent :: AnswerIs(w, d, |old(log).dispatched|, sent)
                     && log.fates == old(log).fates + [Answered(sent)]
                     && sink.script == old(sink.script) + AsItems(sent.ToSeq())
      ensures old(ServerOk(w, State())) ==> ServerOk(w, State())
      ensures old(Healthy(pendingFutures)) ==> Healthy(pendingFutures)
      ensures sink.State() == old(sink.State()).(script := old(sink.script) + AsItems(Model.ProcessRequest(w,
          old(State()), req).sent))
    {
      hide ServerOk, Healthy, NewDriver, PollDriver, Model.PushFuture;
      hide AllReady, AnswerIs;
      ProcessRequestKeeps(w, State(), req);
      AnsweredIfReady(w, State(), req);
      var d := NewDriver(w, handlerMap.handlers, req, requests);
      requests := requests + 1;
      log := Admit(old(State()), req).log;
      // Eagerly poll the new future, so that it is registered with the current task.
      var p := PollDriver(d);
      if p.sent.Some? {
        sink.Push(SendResponse(p.sent.value));
      }
      match p.verdict {
        case NotYet =>
          log := NotePoll(log, d, p);
          PushFuture(p.driver);
        case Failed(e) =>
          PushFuture(d.(phase := Stored(e)));
        case Completed =>
          log := NotePoll(log, d, p);
      }
    }
  }
}
