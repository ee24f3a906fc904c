/** A caller that drops its future goes unnoticed: nothing the client does depends on which
    completion receivers are still there. */
module ClientBlind {
  import opened Futures
  import opened JsonRpc
  import opened SelectWeak
  import opened ServerModel
  import opened ClientModel
  import opened ClientProofs

  /** The surroundings agree on everything but the dropped receivers. */
  ghost predicate SameButDropped(w: World, v: World) {
    w.onMethod == v.onMethod && w.onNote == v.onNote && w.order == v.order && w.send == v.send
  }

  /** The client without the record of what reached a receiver. */
  ghost function Blind(c: Client): Client {
    c.(h := c.h.(delivered := []))
  }

  ghost predicate Same(r: Res, q: Res) {
    Blind(r.c) == Blind(q.c) && r.error == q.error
  }

  lemma FutsSame(w: World, v: World, hs: Handlers, req: Request, request: nat)
    requires SameButDropped(w, v)
    ensures Futs(w, hs, req, request) == Futs(v, hs, req, request)
  {
    if req.Batch? {
      forall i | 0 <= i < |req.calls|
        ensures Futs(w, hs, req, request)[i] == Futs(v, hs, req, request)[i]
      {
        SingleSame(w, v, hs, req.calls[i], request, i);
      }
    } else {
      SingleSame(w, v, hs, req.call, request, 0);
    }
  }

  lemma SingleSame(w: World, v: World, hs: Handlers, call: Call, request: nat, ix: nat)
    requires SameButDropped(w, v)
    ensures HandleSingleCall(w, hs, call, request, ix) == HandleSingleCall(v, hs, call, request, ix)
  {
  }

  lemma RequestSame(w: World, v: World, s: Server, req: Request)
    requires SameButDropped(w, v)
    ensures ProcessRequest(w, s, req) == ProcessRequest(v, s, req)
  {
    FutsSame(w, v, s.handlers, req, |s.log.dispatched|);
    assert NewDriver(w, s.handlers, req, |s.log.dispatched|) == NewDriver(v, s.handlers, req, |s.log.dispatched|);
  }

  lemma RxPayloadSame(w: World, v: World, c: Client, d: Client, text: Text)
    requires SameButDropped(w, v) && Blind(c) == Blind(d)
    ensures Same(HandleRxPayload(w, c, text), HandleRxPayload(v, d, text))
  {
    if Decode(text).InRequest? {
      RequestSame(w, v, c.server, Decode(text).request);
    }
  }

  lemma {:induction false} RxSame(w: World, v: World, c: Client, d: Client)
    requires SameButDropped(w, v) && Blind(c) == Blind(d)
    ensures Same(PollTransportRx(w, c), PollTransportRx(v, d))
    decreases |c.net.rx|
  {
    if Next(c.net.rx).Item? {
      var text := c.net.rx[0].item;
      RxPayloadSame(w, v, Receive(c), Receive(d), text);
      var r, q := HandleRxPayload(w, Receive(c), text), HandleRxPayload(v, Receive(d), text);
      if r.error.None? {
        RxSame(w, v, r.c, q.c);
      }
    }
  }

  lemma SendPayloadTold(c: Client, told: seq<Delivery>, text: Text)
    ensures var r, q := SendPayload(c, text), SendPayload(c.(h := c.h.(delivered := told)), text);
            q.c == r.c.(h := r.c.h.(delivered := told)) && q.error == r.error
  {
    match NextSend(c.net)
    case Accept =>
    case Refuse =>
    case SendFail(_) =>
  }

  lemma SendPayloadSame(c: Client, d: Client, text: Text)
    requires Blind(c) == Blind(d)
    ensures Same(SendPayload(c, text), SendPayload(d, text))
  {
    hide SendPayload;
    SendPayloadTold(c, d.h.delivered, text);
    assert d == c.(h := c.h.(delivered := d.h.delivered));
  }

  lemma CompletionsSame(w: World, v: World, c: Client, d: Client, completion: Token)
    requires Blind(c) == Blind(d)
    ensures forall id, result ::
              Blind(SendRpcResponse(w, c, id, completion, result))
              == Blind(SendRpcResponse(v, d, id, completion, result))
    ensures forall result ::
              Blind(CompleteNote(w, c, completion, result)) == Blind(CompleteNote(v, d, completion, result))
  {
  }

  lemma CallSame(w: World, v: World, c: Client, d: Client, m: OutgoingMessage)
    requires Blind(c) == Blind(d) && m.RpcCall?
    ensures Same(HandleClientPayload(w, c, m), HandleClientPayload(v, d, m))
  {
    var c', d' := Numbered(c, m), Numbered(d, m);
    assert Blind(c') == Blind(d');
    match MethodText(Num(c.nextId), m.name, m.params)
    case Ok(text) =>
      SendPayloadSame(c'.(pending := c'.pending[Num(c.nextId) := m.completion]),
                      d'.(pending := d'.pending[Num(c.nextId) := m.completion]), text);
    case Err(e) => CompletionsSame(w, v, c', d', m.completion);
  }

  lemma NoteSame(w: World, v: World, c: Client, d: Client, m: OutgoingMessage)
    requires Blind(c) == Blind(d) && m.SendNotification?
    ensures Same(HandleClientPayload(w, c, m), HandleClientPayload(v, d, m))
  {
    CompletionsSame(w, v, c, d, m.completion);
    if NoteText(m.name, m.params).Ok? {
      SendPayloadSame(CompleteNote(w, c, m.completion, Ok(())), CompleteNote(v, d, m.completion, Ok(())),
          NoteText(m.name, m.params).value);
    }
  }

  lemma ClientPayloadSame(w: World, v: World, c: Client, d: Client, m: OutgoingMessage)
    requires Blind(c) == Blind(d)
    ensures Same(HandleClientPayload(w, c, m), HandleClientPayload(v, d, m))
  {
    match m
    case RpcCall(_, _, _) => CallSame(w, v, c, d, m);
    case SendNotification(_, _, _) => NoteSame(w, v, c, d, m);
    case SendResponse(response) =>
      if ResponseToText(response).Ok? {
        SendPayloadSame(c, d, ResponseToText(response).value);
      }
  }

  lemma {:induction false} OutgoingSame(w: World, v: World, c: Client, d: Client)
    requires Blind(c) == Blind(d)
    ensures Same(PollOutgoing(w, c), PollOutgoing(v, d))
    decreases c.sel.Budget()
  {
    if c.parked.None? && c.sel.Ev().Item? {
      ClientPayloadSame(w, v, Dequeue(c), Dequeue(d), c.sel.Ev().item);
      ItemCosts(c.sel);
      var r, q := HandleClientPayload(w, Dequeue(c), c.sel.Ev().item), HandleClientPayload(v, Dequeue(d),
          c.sel.Ev().item);
      if r.error.None? {
        OutgoingSame(w, v, r.c, q.c);
      }
    }
  }

  lemma RetrySame(c: Client, d: Client)
    requires Blind(c) == Blind(d)
    ensures Same(RetryParked(c), RetryParked(d))
  {
    if c.parked.Some? {
      SendPayloadSame(c.(parked := None), d.(parked := None), c.parked.value);
    }
  }

  lemma DriveSame(c: Client, d: Client)
    requires Blind(c) == Blind(d)
    ensures Same(DriveServer(c), DriveServer(d))
  {
  }

  lemma TxSame(c: Client, d: Client)
    requires Blind(c) == Blind(d)
    ensures Same(PollTransportTx(c), PollTransportTx(d))
  {
  }

  lemma HandleMessagesSame(w: World, v: World, c: Client, d: Client)
    requires SameButDropped(w, v) && Blind(c) == Blind(d)
    ensures Same(HandleMessages(w, c), HandleMessages(v, d))
  {
    var r1, q1 := RetryParked(c), RetryParked(d);
    RetrySame(c, d);
    if r1.error.None? {
      var r2, q2 := DriveServer(r1.c), DriveServer(q1.c);
      DriveSame(r1.c, q1.c);
      if r2.error.None? {
        RxSame(w, v, r2.c, q2.c);
        var r3, q3 := PollTransportRx(w, r2.c), PollTransportRx(v, q2.c);
        if r3.error.None? {
          OutgoingSame(w, v, r3.c, q3.c);
          var r4, q4 := PollOutgoing(w, r3.c), PollOutgoing(v, q3.c);
          if r4.error.None? {
            TxSame(r4.c, q4.c);
          }
        }
      }
    }
  }

  lemma HandleShutdownSame(w: World, v: World, c: Client, d: Client)
    requires SameButDropped(w, v) && Blind(c) == Blind(d)
    ensures Blind(HandleShutdown(w, c)) == Blind(HandleShutdown(v, d))
  {
    RxSame(w, v, c, d);
  }

  lemma PollSame(w: World, v: World, c: Client, d: Client)
    requires SameButDropped(w, v) && Blind(c) == Blind(d)
    ensures Blind(Poll(w, c)) == Blind(Poll(v, d))
  {
    if ShouldShutDown(c) {
      HandleShutdownSame(w, v, c, d);
    } else {
      HandleMessagesSame(w, v, c, d);
      var r, q := HandleMessages(w, c), HandleMessages(v, d);
      if r.error.Some? {
        HandleShutdownSame(w, v, Enter(r.c, r.error.value), Enter(q.c, r.error.value));
      }
    }
  }

  /** Two runs with the same inputs that differ only in which receivers were dropped agree on
      everything: payloads sent, pending ids, requests served, completions and every poll result. */
  lemma {:induction false} DroppedCallersUnobservable(w: World, v: World, c: Client, moves: seq<Move>)
    requires SameButDropped(w, v)
    ensures Blind(Run(w, c, moves)) == Blind(Run(v, c, moves))
  {
    if moves != [] {
      var n := |moves| - 1;
      DroppedCallersUnobservable(w, v, c, moves[..n]);
      PollSame(w, v, Run(w, c, moves[..n]), Run(v, c, moves[..n]));
    }
  }
}
