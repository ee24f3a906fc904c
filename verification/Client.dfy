/** The client future as an object. Each method does what the state machine of `ClientModel` does,
    so the theorems about its runs are about this object: it starts in a reached state, and polls
    lead from reached states to reached states. */
module ClientMachine {
  import opened Futures
  import opened JsonRpc
  import opened Ids
  import opened SelectWeak
  import opened ServerModel
  import opened ServerMachine
  import opened ClientModel
  import opened ClientLedger
  import opened ClientProofs
  import opened ClientTheorems
  import opened ClientCauses
  import Model = ClientModel

  class Client {
    const world: World
    const outgoing: SelectWithWeak<OutgoingMessage>
    const ids: IdGenerator
    const server: ServerMachine.Server
    var shuttingDown: bool
    var pendingRequests: map<Id, Token>
    var pendingPayload: Option<Text>
    var fatalError: Option<Error>
    var net: Net
    ghost var h: History

    constructor (world: World, net: Net, strong: Script<OutgoingMessage>, handlerChan: Chan<HandlerMsg>)
      ensures Valid() && this.world == world
      ensures State() == InitClient(net, strong, handlerChan)
      ensures Reached(world, State())
    {
      this.world, this.net := world, net;
      var clientSide := new Fuse(strong);
      var serverSide := new Fuse([]);
      outgoing := new SelectWithWeak(clientSide, serverSide);
      ids := new IdGenerator();
      server := new ServerMachine.Server(handlerChan);
      shuttingDown, pendingRequests, pendingPayload, fatalError := false, map[], None, None;
      h := EMPTY_HISTORY;
      InitReached(world, net, strong, handlerChan);
    }

    ghost const Repr: set<object> := {this, outgoing, outgoing.strong, outgoing.weak, ids, server,
        server.handlerMap, server.ids}

    ghost predicate Valid()
      reads Repr
    {
      outgoing.Valid() && server.Valid() && ids != server.ids
    }

    ghost function State(): Model.Client
      reads Repr
    {
      Model.Client(outgoing.State(), ids.nextId, shuttingDown, pendingRequests, pendingPayload, fatalError,
                   server.State(), net, h)
    }

    method Poll() returns (progress: Progress)
      requires Valid()
      modifies Repr
      ensures Valid() && State() == Model.Poll(world, old(State()))
      ensures old(Reached(world, State()) && h.progress == Running) ==> Reached(world, State())
      ensures progress == State().h.progress
    {
      hide Reached, Model.HandleMessages, Model.HandleShutdown;
      if Reached(world, State()) {
        StepReached(world, State(), DoPoll);
      }
      if !(fatalError.Some? || shuttingDown) {
        var error := HandleMessages();
        match error {
          case None =>
            h := h.(progress := Running);
            return Running;
          case Some(Shutdown) =>
            h := h.(entered := error);
            shuttingDown := true;
          case Some(e) =>
            h := h.(entered := error);
            fatalError := Some(e);
        }
      }
      progress := HandleShutdown();
    }

    method HandleMessages() returns (error: Option<Error>)
      requires Valid()
      modifies Repr
      ensures Valid() && Res(State(), error) == Model.HandleMessages(world, old(State()))
    {
      error := RetryParked();
      if error.Some? {
        return;
      }
      error := PollServer();
      if error.Some? {
        return;
      }
      error := PollTransportRx();
      if error.Some? {
        return;
      }
      error := PollOutgoingMessages();
      if error.Some? {
        return;
      }
      error := PollTransportTx();
    }

    /** Try to send the payload left over from an earlier poll. */
    method RetryParked() returns (error: Option<Error>)
      requires Valid()
      modifies this
      ensures Valid() && Res(State(), error) == Model.RetryParked(old(State()))
    {
      if pendingPayload.None? {
        return None;
      }
      var payload := pendingPayload.value;
      pendingPayload := None;
      error := SendPayload(payload);
    }

    method SendPayload(text: Text) returns (error: Option<Error>)
      requires Valid()
      modifies this
      ensures Valid() && Res(State(), error) == Model.SendPayload(old(State()), text)
      ensures old(fatalError).None? ==>
                match NextSend(old(net))
                case Accept => error == None && pendingPayload == old(pendingPayload) && h.sent == old(h).sent + [text]
                case Refuse => error == None && pendingPayload == Some(text) && h.sent == old(h).sent
                case SendFail(code) =>
                  error == Some(TransportError(code)) && pendingPayload == old(pendingPayload) && h.sent == old(h).sent
    {
      if fatalError.Some? {
        h := h.(lost := Some(text));
        return Some(TransportError(0));
      }
      var ev := NextSend(net);
      net := net.(sends := Tail(net.sends));
      h := h.(offers := h.offers + [Offer(text, ev)]);
      match ev {
        case Accept =>
          h := h.(sent := h.sent + [text]);
          error := None;
        case Refuse =>
          pendingPayload := Some(text);
          error := None;
        case SendFail(code) =>
          h := h.(lost := Some(text));
          error := Some(TransportError(code));
      }
    }

    method PollServer() returns (error: Option<Error>)
      requires Valid()
      modifies Repr
      ensures Valid() && Res(State(), error) == DriveServer(old(State()))
    {
      if shuttingDown {
        return None;
      }
      error := server.Poll(outgoing.weak);
    }

    method PollTransportRx() returns (error: Option<Error>)
      requires Valid()
      modifies Repr
      ensures Valid() && Res(State(), error) == Model.PollTransportRx(world, old(State()))
      ensures RxEnds(old(net).rx, error)
    {
      hide RxEnds;
      RxCause(world, State());
      while true
        invariant Valid() && Model.PollTransportRx(world, old(State())) == Model.PollTransportRx(world, State())
        decreases |net.rx|
      {
        var ev := Next(net.rx);
        ghost var before := State();
        net := net.(rx := Rest(net.rx));
        match ev {
          case Item(text) =>
            h := h.(received := h.received + [text]);
            assert State() == Receive(before);
            error := HandleTransportRxPayload(text);
            if error.Some? {
              return;
            }
          case End => return Some(Shutdown);
          case Fail(code) => return Some(TransportError(code));
          case Pending => return None;
        }
      }
    }

    method HandleTransportRxPayload(text: Text) returns (error: Option<Error>)
      requires Valid()
      modifies Repr
      ensures Valid() && Res(State(), error) == HandleRxPayload(world, old(State()), text)
    {
      match Decode(text) {
        case Malformed =>
          error := Some(DeserializeError);
        case InRequest(req) =>
          server.ProcessRequest(world, req, outgoing.weak);
          error := None;
        case InResponse(output) =>
          error := HandleResponse(output);
      }
    }

    method HandleResponse(output: Output) returns (error: Option<Error>)
      requires Valid()
      modifies this
      ensures Valid() && Res(State(), error) == Model.HandleResponse(world, old(State()), output)
      ensures error == if output.v2 then None else Some(InvalidVersion)
      ensures if output.v2 && output.id in old(pendingRequests) then
                && pendingRequests == old(pendingRequests) - {output.id}
                && exists result :: Tells(output, result)
                     && h.outcomes == old(h).outcomes + [Outcome(output.id, old(pendingRequests)[output.id], result)]
              else
                pendingRequests == old(pendingRequests) && h.outcomes == old(h).outcomes
    {
      ResultTells(output, ResultOf(output));
      if !output.v2 {
        return Some(InvalidVersion);
      }
      h := h.(heard := h.heard + [output]);
      if output.id in pendingRequests {
        var completion := pendingRequests[output.id];
        pendingRequests := pendingRequests - {output.id};
        h := SendRpcResponse(world, State(), output.id, completion, ResultOf(output)).h;
      }
      error := None;
    }

    method PollOutgoingMessages() returns (error: Option<Error>)
      requires Valid()
      modifies Repr
      ensures Valid() && Res(State(), error) == PollOutgoing(world, old(State()))
    {
      while pendingPayload.None?
        invariant Valid() && PollOutgoing(world, old(State())) == PollOutgoing(world, State())
        decreases outgoing.State().Budget()
      {
        ghost var before := State();
        if before.sel.Ev().Item? {
          ItemCosts(before.sel);
        }
        var ev := outgoing.Poll();
        match ev {
          case Pending => return None;
          case Item(m) =>
            h := h.(dequeued := h.dequeued + [m]);
            assert State() == Dequeue(before);
            error := HandleClientPayload(m);
            if error.Some? {
              return;
            }
          case End => return Some(Shutdown);
          case Fail(_) => return Some(Unreachable);
        }
      }
      error := None;
    }

    method HandleClientPayload(m: OutgoingMessage) returns (error: Option<Error>)
      requires Valid()
      modifies this, ids
      ensures Valid() && Res(State(), error) == Model.HandleClientPayload(world, old(State()), m)
      ensures var text := PayloadOf(m, old(ids.nextId));
              old(fatalError).None? ==>
                h.offers == old(h).offers + (if text.Ok? then [Offer(text.value, NextSend(old(net)))] else [])
    {
      hide PayloadOf;
      if fatalError.None? {
        PayloadOffered(world, State(), m);
      }
      match m {
        case RpcCall(name, params, completion) =>
          h := h.(calls := h.calls + [CallRec(m, |h.heard|)]);
          var n := ids.NextInt();
          var newId := Num(n);
          match MethodText(newId, name, params) {
            case Ok(payload) =>
              pendingRequests := pendingRequests[newId := completion];
              error := SendPayload(payload);
            case Err(e) =>
              h := SendRpcResponse(world, State(), newId, completion, Err(e)).h;
              error := None;
          }
        case SendNotification(name, params, completion) =>
          match NoteText(name, params) {
            case Ok(payload) =>
              h := CompleteNote(world, State(), completion, Ok(())).h;
              error := SendPayload(payload);
            case Err(e) =>
              h := CompleteNote(world, State(), completion, Err(e)).h;
              error := None;
          }
        case SendResponse(response) =>
          match ResponseToText(response) {
            case Ok(payload) => error := SendPayload(payload);
            case Err(e) => error := Some(e);
          }
      }
    }

    method PollTransportTx() returns (error: Option<Error>)
      requires Valid()
      modifies this
      ensures Valid() && Res(State(), error) == Model.PollTransportTx(old(State()))
      ensures old(fatalError).None? ==>
                match NextSink(old(net).flushes)
                case SinkFail(code) => error == Some(TransportError(code))
                case _ => error == None
    {
      error := None;
      if fatalError.None? {
        var ev := NextSink(net.flushes);
        net := net.(flushes := Tail(net.flushes));
        if ev.SinkFail? {
          error := Some(TransportError(ev.code));
        }
      }
    }

    method HandleShutdown() returns (progress: Progress)
      requires Valid()
      modifies Repr
      ensures Valid() && State() == Model.HandleShutdown(world, old(State()))
      ensures progress == State().h.progress
    {
      var _ := PollTransportRx();
      var ev := NextSink(net.closes);
      net := net.(closes := Tail(net.closes));
      if ev.NotYetDone? {
        progress := Running;
      } else {
        progress := if fatalError.Some? then Crashed(fatalError.value) else Resolved;
        fatalError := None;
      }
      h := h.(progress := progress);
    }
  }
}
