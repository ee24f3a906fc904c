/** What every poll of the client keeps. */
module ClientProofs {
  import opened Futures
  import opened JsonRpc
  import opened Ids
  import opened SelectWeak
  import opened ServerModel
  import opened DriverProofs
  import opened ServerProofs
  import opened ClientModel
  import opened ClientLedger

  // ----- what the dequeued messages must turn into -----

  function CallsIn(ms: seq<OutgoingMessage>): seq<OutgoingMessage> {
    if ms == [] then [] else
      var n := |ms| - 1;
      CallsIn(ms[..n]) + (if ms[n].RpcCall? then [ms[n]] else [])
  }

  /** The text of a message, if it serialises: its name and parameters, or its response, as they are;
      a call is given the number `id`. */
  function PayloadOf(m: OutgoingMessage, id: nat): Result<Text> {
    match m
    case RpcCall(name, params, _) =>
      if CleanParams(params) then Ok(RequestText(Single(Method(MethodCall(name, params, Num(id))))))
      else Err(SerializeError)
    case SendNotification(name, params, _) =>
      if CleanParams(params) then Ok(RequestText(Single(Note(Notification(name, params))))) else Err(SerializeError)
    case SendResponse(response) =>
      if CleanResponse(response) then Ok(ResponseText(response)) else Err(SerializeError)
  }

  /** The texts of the dequeued messages, in order. */
  function Payloads(ms: seq<OutgoingMessage>): seq<Text> {
    if ms == [] then [] else
      var n := |ms| - 1;
      var p := PayloadOf(ms[n], Nth(|CallsIn(ms[..n])|));
      Payloads(ms[..n]) + (if p.Ok? then [p.value] else [])
  }

  /** How the notifications among the dequeued messages are completed. */
  function NotesIn(ms: seq<OutgoingMessage>): seq<NoteOutcome> {
    if ms == [] then [] else
      var n := |ms| - 1;
      NotesIn(ms[..n]) + (if ms[n].SendNotification? then [NoteOutcome(ms[n].completion, NoteResult(ms[n]))] else [])
  }

  function NoteResult(m: OutgoingMessage): Result<()>
    requires m.SendNotification?
  {
    if CleanParams(m.params) then Ok(()) else Err(SerializeError)
  }

  lemma OneMore(ms: seq<OutgoingMessage>, m: OutgoingMessage)
    ensures CallsIn(ms + [m]) == CallsIn(ms) + (if m.RpcCall? then [m] else [])
    ensures var p := PayloadOf(m, Nth(|CallsIn(ms)|));
            Payloads(ms + [m]) == Payloads(ms) + (if p.Ok? then [p.value] else [])
    ensures NotesIn(ms + [m]) == NotesIn(ms) + (if m.SendNotification? then [NoteOutcome(m.completion,
        NoteResult(m))] else [])
  {
    assert (ms + [m])[..|ms|] == ms;
  }

  // ----- the invariant -----

  /** Nothing is lost on the way out, and nothing overtakes: what the sink accepted, then the parked
      payload, then the one a failing `start_send` took, are the texts of the dequeued messages. */
  ghost predicate OutputOk(c: Client) {
    && c.h.sent + c.parked.ToSeq() + c.h.lost.ToSeq() == Payloads(c.h.dequeued)
    && NumbersOk(c.h.calls, c.h.dequeued)
    && c.h.notes == NotesIn(c.h.dequeued)
  }

  ghost predicate NumbersOk(calls: seq<CallRec>, dequeued: seq<OutgoingMessage>) {
    && |calls| == |CallsIn(dequeued)|
    && forall i :: 0 <= i < |calls| ==> calls[i].call == CallsIn(dequeued)[i]
  }

  /** The texts the sink accepted, in order. */
  function Accepted(offers: seq<Offer>): seq<Text> {
    if offers == [] then [] else
      var last := offers[|offers| - 1];
      Accepted(offers[..|offers| - 1]) + (if last.answer.Accept? then [last.text] else [])
  }

  /** A text that was refused is the next one offered, and nothing is offered after a failure. */
  ghost predicate Retried(offers: seq<Offer>) {
    forall i :: 0 <= i < |offers| - 1 ==>
      offers[i].answer.Accept? || (offers[i].answer.Refuse? && offers[i + 1].text == offers[i].text)
  }

  /** What the answers of the sink make of the texts offered: those accepted are sent, the last one is
      parked if it was refused and lost if the sink failed. */
  ghost predicate SinkOk(sent: seq<Text>, offers: seq<Offer>, parked: Option<Text>, lost: Option<Text>) {
    && sent == Accepted(offers) && Retried(offers)
    && if offers == [] then parked == None && lost == None else
         var Offer(text, answer) := offers[|offers| - 1];
         && parked == (if answer.Refuse? then Some(text) else None)
         && lost == (if answer.SendFail? then Some(text) else None)
  }

  lemma RetriedGrows(offers: seq<Offer>, offer: Offer)
    requires Retried(offers)
    requires offers == [] || (var last := offers[|offers| - 1];
               last.answer.Accept? || (last.answer.Refuse? && last.text == offer.text))
    ensures Retried(offers + [offer])
    ensures Accepted(offers + [offer]) == Accepted(offers) + (if offer.answer.Accept? then [offer.text] else [])
  {
    var more := offers + [offer];
    assert more[..|offers|] == offers;
    forall i | 0 <= i < |more| - 1
      ensures more[i].answer.Accept? || (more[i].answer.Refuse? && more[i + 1].text == more[i].text)
    {
      assert more[i] == offers[i] && (i + 1 < |offers| ==> more[i + 1] == offers[i + 1]);
    }
  }

  /** One more text is offered: the parked one, if there is one. */
  lemma SinkGrows(c: Client, text: Text)
    requires SinkOk(c.h.sent, c.h.offers, c.parked, c.h.lost) && c.h.lost == None && c.fatal == None
    requires c.parked == None || c.parked == Some(text)
    ensures var d := SendPayload(c.(parked := None), text).c; SinkOk(d.h.sent, d.h.offers, d.parked, d.h.lost)
  {
    hide Retried, Accepted;
    RetriedGrows(c.h.offers, Offer(text, NextSend(c.net)));
    assert c.h.sent + [] == c.h.sent;
  }

  /** The completions of calls that found their receiver. */
  function CallsTold(ds: seq<Delivery>): seq<(Token, CallResult)> {
    if ds == [] then [] else
      var d := ds[|ds| - 1];
      CallsTold(ds[..|ds| - 1]) + (if d.ToCall? then [(d.completion, d.callResult)] else [])
  }

  function NotesTold(ds: seq<Delivery>): seq<(Token, Result<()>)> {
    if ds == [] then [] else
      var d := ds[|ds| - 1];
      NotesTold(ds[..|ds| - 1]) + (if d.ToNote? then [(d.completion, d.noteResult)] else [])
  }

  /** The outcomes of calls whose receiver was not dropped. */
  function CallsListening(w: World, os: seq<Outcome>): seq<(Token, CallResult)> {
    if os == [] then [] else
      var o := os[|os| - 1];
      CallsListening(w, os[..|os| - 1]) + (if o.completion in w.dropped then [] else [(o.completion, o.result)])
  }

  function NotesListening(w: World, os: seq<NoteOutcome>): seq<(Token, Result<()>)> {
    if os == [] then [] else
      var o := os[|os| - 1];
      NotesListening(w, os[..|os| - 1]) + (if o.completion in w.dropped then [] else [(o.completion, o.result)])
  }

  /** Exactly the receivers that were not dropped are told, in order, what their outcome is. */
  ghost predicate DeliveryOk(w: World, outcomes: seq<Outcome>, notes: seq<NoteOutcome>, delivered: seq<Delivery>) {
    && CallsTold(delivered) == CallsListening(w, outcomes)
    && NotesTold(delivered) == NotesListening(w, notes)
  }

  lemma CallDelivered(w: World, c: Client, id: Id, completion: Token, result: CallResult)
    requires DeliveryOk(w, c.h.outcomes, c.h.notes, c.h.delivered)
    ensures var d := SendRpcResponse(w, c, id, completion, result);
            DeliveryOk(w, d.h.outcomes, d.h.notes, d.h.delivered)
  {
    var d := SendRpcResponse(w, c, id, completion, result);
    assert d.h.outcomes[..|c.h.outcomes|] == c.h.outcomes;
    if completion in w.dropped {
      assert d.h.delivered == c.h.delivered;
    } else {
      assert d.h.delivered[..|c.h.delivered|] == c.h.delivered;
    }
  }

  lemma NoteDelivered(w: World, c: Client, completion: Token, result: Result<()>)
    requires DeliveryOk(w, c.h.outcomes, c.h.notes, c.h.delivered)
    ensures var d := CompleteNote(w, c, completion, result);
            DeliveryOk(w, d.h.outcomes, d.h.notes, d.h.delivered)
  {
    var d := CompleteNote(w, c, completion, result);
    assert d.h.notes[..|c.h.notes|] == c.h.notes;
    if completion in w.dropped {
      assert d.h.delivered == c.h.delivered;
    } else {
      assert d.h.delivered[..|c.h.delivered|] == c.h.delivered;
    }
  }

  /** The weak side of the selector holds the server messages not yet dequeued. */
  ghost predicate WeakOk(sel: Sel<OutgoingMessage>, enqueued: seq<Enqueued>) {
    var left := |sel.weak.script|;
    && !sel.weakDone && !sel.weak.done && left <= |enqueued|
    && sel.weak.script == AsItems(Responses(enqueued[|enqueued| - left..]))
  }

  /** The version 2.0 responses among the texts received. */
  function HeardIn(texts: seq<Text>): seq<Output> {
    if texts == [] then [] else
      var n := |texts| - 1;
      HeardIn(texts[..n]) + (match Decode(texts[n]) case InResponse(o) => if o.v2 then [o] else [] case _ => [])
  }

  /** The requests among the texts received. */
  function RequestsIn(texts: seq<Text>): seq<Request> {
    if texts == [] then [] else
      var n := |texts| - 1;
      RequestsIn(texts[..n]) + (match Decode(texts[n]) case InRequest(req) => [req] case _ => [])
  }

  ghost function RequestsOf(ds: seq<Dispatch>): seq<Request> {
    seq(|ds|, i requires 0 <= i < |ds| => ds[i].request)
  }

  /** What was processed is exactly what was received, in order. */
  ghost predicate SourceOk(c: Client) {
    && c.h.heard == HeardIn(c.h.received)
    && RequestsOf(c.server.log.dispatched) == RequestsIn(c.h.received)
  }

  ghost predicate CoreInv(w: World, c: Client) {
    && LedgerOk(c.nextId, c.h.calls, c.h.heard, c.pending, c.h.outcomes)
    && OutputOk(c)
    && SinkOk(c.h.sent, c.h.offers, c.parked, c.h.lost)
    && DeliveryOk(w, c.h.outcomes, c.h.notes, c.h.delivered)
    && WeakOk(c.sel, c.server.log.enqueued)
    && ServerOk(w, c.server)
    && c.server.log.repolls == 0
  }

  ghost predicate Inv(w: World, c: Client) {
    CoreInv(w, c) && SourceOk(c)
  }

  // ----- the way in -----

  /** What handling incoming messages leaves alone. */
  ghost predicate RxFrame(c: Client, d: Client) {
    && d.nextId == c.nextId && d.shuttingDown == c.shuttingDown && d.parked == c.parked && d.fatal == c.fatal
    && d.net == c.net.(rx := d.net.rx)
    && d.h == c.h.(received := d.h.received, heard := d.h.heard, outcomes := d.h.outcomes, delivered := d.h.delivered)
    && d.sel == c.sel.(weak := d.sel.weak)
    && (Healthy(c.server.pending) ==> Healthy(d.server.pending))
    && c.h.received + Items(c.net.rx) == d.h.received + Items(d.net.rx)
  }

  lemma EnqueueOk(sel: Sel<OutgoingMessage>, before: seq<Enqueued>, after: seq<Enqueued>, sent: seq<Response>)
    requires WeakOk(sel, before) && before <= after && sent == Responses(after[|before|..])
    ensures WeakOk(Enqueue(sel, sent), after)
  {
    var left := |sel.weak.script|;
    assert after[|before| - left..] == before[|before| - left..] + after[|before|..];
  }

  lemma RequestOk(w: World, c: Client, req: Request)
    requires CoreInv(w, c)
    ensures CoreInv(w, HandleRequest(w, c, req))
    ensures RxFrame(c, HandleRequest(w, c, req))
  {
    ProcessRequestOk(w, c.server, req);
    ProcessRequestHealthy(w, c.server, req);
    ProcessRequestFrame(w, c.server, req);
    EnqueueOk(c.sel, c.server.log.enqueued, HandleRequest(w, c, req).server.log.enqueued, ProcessRequest(w,
        c.server, req).sent);
  }

  lemma ResponseOk(w: World, c: Client, o: Output)
    requires CoreInv(w, c)
    ensures CoreInv(w, HandleResponse(w, c, o).c)
    ensures RxFrame(c, HandleResponse(w, c, o).c)
  {
    hide LedgerOk, DeliveryOk, ServerOk, WeakOk, SinkOk;
    if o.v2 {
      if o.id in c.pending {
        CallDelivered(w, c, o.id, c.pending[o.id], ResultOf(o));
        AwaitedResponse(c.nextId, c.h.calls, c.h.heard, c.pending, c.h.outcomes, o);
      } else {
        StrayResponse(c.nextId, c.h.calls, c.h.heard, c.pending, c.h.outcomes, o);
      }
    }
  }

  lemma ReceiveOk(w: World, c: Client)
    requires CoreInv(w, c) && Next(c.net.rx).Item?
    ensures CoreInv(w, Receive(c)) && RxFrame(c, Receive(c))
  {
    var text := c.net.rx[0].item;
    assert c.h.received + Items(c.net.rx) == c.h.received + [text] + Items(c.net.rx[1..]);
  }

  lemma RxPayloadOk(w: World, c: Client, text: Text)
    requires CoreInv(w, c)
    ensures CoreInv(w, HandleRxPayload(w, c, text).c)
    ensures RxFrame(c, HandleRxPayload(w, c, text).c)
  {
    match Decode(text)
    case Malformed =>
    case InRequest(req) => RequestOk(w, c, req);
    case InResponse(o) => ResponseOk(w, c, o);
  }

  /** Handling a text records what is in it. */
  lemma RxPayloadSource(w: World, c: Client, text: Text)
    requires c.h.received != [] && text == c.h.received[|c.h.received| - 1]
    requires var before := c.h.received[..|c.h.received| - 1];
             c.h.heard == HeardIn(before) && RequestsOf(c.server.log.dispatched) == RequestsIn(before)
    ensures SourceOk(HandleRxPayload(w, c, text).c)
  {
    hide ProcessRequest;
    if Decode(text).InRequest? {
      ProcessRequestFrame(w, c.server, Decode(text).request);
    }
  }

  lemma RxFrameTwice(a: Client, b: Client, c: Client)
    requires RxFrame(a, b) && RxFrame(b, c)
    ensures RxFrame(a, c)
  {
  }

  /** One message of the transport stream. */
  lemma RxOne(w: World, c: Client)
    requires Inv(w, c) && Next(c.net.rx).Item?
    ensures var r := HandleRxPayload(w, Receive(c), c.net.rx[0].item);
            Inv(w, r.c) && RxFrame(c, r.c) && |r.c.net.rx| < |c.net.rx|
  {
    hide LedgerOk, ServerOk, WeakOk, OutputOk, SinkOk, DeliveryOk, HandleRxPayload;
    RxStep(w, c);
    var text := c.net.rx[0].item;
    ReceiveOk(w, c);
    RxPayloadOk(w, Receive(c), text);
    RxFrameTwice(c, Receive(c), HandleRxPayload(w, Receive(c), text).c);
    assert Receive(c).h.received[..|c.h.received|] == c.h.received;
    RxPayloadSource(w, Receive(c), text);
  }

  /** The invariant does not depend on what the transport is still to answer. */
  lemma NetIsFree(w: World, c: Client, net: Net)
    requires Inv(w, c)
    ensures Inv(w, c.(net := net))
  {
    hide LedgerOk, ServerOk, WeakOk, DeliveryOk, SinkOk;
  }

  /** How the drain loop unfolds. */
  lemma RxStep(w: World, c: Client)
    ensures if Next(c.net.rx).Item? then
              var r := HandleRxPayload(w, Receive(c), c.net.rx[0].item);
              && PollTransportRx(w, c) == (if r.error.Some? then r else PollTransportRx(w, r.c))
              && r.c.net == c.net.(rx := c.net.rx[1..])
            else
              && PollTransportRx(w, c).c == c.(net := c.net.(rx := Rest(c.net.rx)))
              && (PollTransportRx(w, c).error.None? <==> Next(c.net.rx).Pending?)
  {
  }

  lemma RxStop(w: World, c: Client)
    requires Inv(w, c) && !Next(c.net.rx).Item?
    ensures Inv(w, PollTransportRx(w, c).c)
    ensures RxFrame(c, PollTransportRx(w, c).c)
  {
    hide Inv, PollTransportRx;
    RxStep(w, c);
    NetIsFree(w, c, c.net.(rx := Rest(c.net.rx)));
  }

  lemma {:induction false} PollTransportRxOk(w: World, c: Client)
    requires Inv(w, c)
    ensures Inv(w, PollTransportRx(w, c).c)
    ensures RxFrame(c, PollTransportRx(w, c).c)
    decreases |c.net.rx|
  {
    hide Inv, RxFrame, HandleRxPayload, PollTransportRx;
    RxStep(w, c);
    if Next(c.net.rx).Item? {
      RxOne(w, c);
      var r := HandleRxPayload(w, Receive(c), c.net.rx[0].item);
      if r.error.None? {
        PollTransportRxOk(w, r.c);
        RxFrameTwice(c, r.c, PollTransportRx(w, r.c).c);
      }
    } else {
      RxStop(w, c);
    }
  }

  // ----- the way out -----

  /** What handling outgoing messages leaves alone. */
  ghost predicate TxFrame(c: Client, d: Client) {
    && d.shuttingDown == c.shuttingDown && d.fatal == c.fatal && d.server == c.server
    && d.net == c.net.(sends := d.net.sends) && d.h.received == c.h.received && d.h.heard == c.h.heard
    && d.h.entered == c.h.entered && d.h.progress == c.h.progress
  }

  /** The sink failed. */
  predicate Sunk(error: Option<Error>) {
    error.Some? && error.value.TransportError?
  }

  lemma SendPayloadSends(c: Client, text: Text)
    requires c.parked == None && c.h.lost == None
    ensures var r := SendPayload(c, text);
            && r.c.h.sent + r.c.parked.ToSeq() + r.c.h.lost.ToSeq() == c.h.sent + [text]
            && (r.c.h.lost.Some? ==> Sunk(r.error))
            && r.c == c.(parked := r.c.parked, net := r.c.net,
                         h := c.h.(offers := r.c.h.offers, sent := r.c.h.sent, lost := r.c.h.lost))
            && TxFrame(c, r.c)
  {
    assert c.h.sent + [text] + [] + [] == c.h.sent + [text];
  }

  lemma DequeueWeak(c: Client)
    requires WeakOk(c.sel, c.server.log.enqueued)
    ensures WeakOk(c.sel.Step(), c.server.log.enqueued)
  {
    var enqueued, left := c.server.log.enqueued, |c.sel.weak.script|;
    if left > 0 {
      assert c.sel.weak.script[1..] == AsItems(Responses(enqueued[|enqueued| - (left - 1)..]));
    }
  }

  /** The client is free to take a message. */
  ghost predicate CanDequeue(w: World, c: Client) {
    Inv(w, c) && c.parked == None && c.h.lost == None && c.fatal == None && c.sel.Ev().Item?
  }

  /** How handling the message taken may end. */
  ghost predicate Handled(w: World, c: Client, r: Res)
    requires c.sel.Ev().Item?
  {
    && Inv(w, r.c) && TxFrame(c, r.c)
    && (r.c.h.lost.Some? ==> Sunk(r.error))
    && r.c.h.dequeued == c.h.dequeued + [c.sel.Ev().item]
    && r.c.sel == c.sel.Step()
  }

  /** One more message dequeued, and its text, if any, handed to the sink. */
  lemma OutputGrows(c: Client, d: Client, m: OutgoingMessage)
    requires OutputOk(c) && c.parked == None && c.h.lost == None && c.nextId == Nth(|c.h.calls|)
    requires d.h.dequeued == c.h.dequeued + [m]
    requires d.h.calls == c.h.calls + (if m.RpcCall? then [CallRec(m, |c.h.heard|)] else [])
    requires d.h.notes == c.h.notes + (if m.SendNotification? then [NoteOutcome(m.completion, NoteResult(m))] else [])
    requires var p := PayloadOf(m, c.nextId);
             d.h.sent + d.parked.ToSeq() + d.h.lost.ToSeq() == c.h.sent + (if p.Ok? then [p.value] else [])
    ensures OutputOk(d)
  {
    hide PayloadOf, NoteResult, CallsIn, NotesIn, Payloads;
    OneMore(c.h.dequeued, m);
    if m.RpcCall? {
      NumbersGrow(c.h.calls, c.h.dequeued, m, |c.h.heard|);
    }
    assert c.h.sent + [] + [] == c.h.sent;
  }

  /** A call that got its id, before its request is sent. */
  ghost function Numbered(c: Client, m: OutgoingMessage): Client {
    c.(nextId := Bump(c.nextId), h := c.h.(calls := c.h.calls + [CallRec(m, |c.h.heard|)]))
  }

  lemma CallMessageIs(w: World, c: Client, m: OutgoingMessage)
    requires m.RpcCall?
    ensures HandleClientPayload(w, c, m)
         == if Encodes(m) then
              SendPayload(Numbered(c, m).(pending := c.pending[Num(c.nextId) := m.completion]),
                          PayloadOf(m, c.nextId).value)
            else
              Res(SendRpcResponse(w, Numbered(c, m), Num(c.nextId), m.completion, Err(SerializeError)), None)
    ensures Encodes(m) <==> PayloadOf(m, c.nextId).Ok?
  {
    hide MethodText;
    MethodTextIs(Num(c.nextId), m.name, m.params);
  }

  /** The message taken has been recorded, but its text, if any, not yet handed to the sink. */
  ghost predicate Recorded(w: World, c: Client, d: Client)
    requires c.sel.Ev().Item?
  {
    var m := c.sel.Ev().item;
    && TxFrame(c, d) && d.net == c.net && d.sel == c.sel.Step()
    && d.parked == None && d.h.lost == None && d.h.sent == c.h.sent && d.h.offers == c.h.offers
    && d.h.dequeued == c.h.dequeued + [m]
    && d.h.calls == c.h.calls + (if m.RpcCall? then [CallRec(m, |c.h.heard|)] else [])
    && d.h.notes == c.h.notes + (if m.SendNotification? then [NoteOutcome(m.completion, NoteResult(m))] else [])
    && LedgerOk(d.nextId, d.h.calls, d.h.heard, d.pending, d.h.outcomes)
    && DeliveryOk(w, d.h.outcomes, d.h.notes, d.h.delivered)
  }

  lemma SentOk(w: World, c: Client, d: Client, text: Text)
    requires CanDequeue(w, c) && Recorded(w, c, d)
    requires PayloadOf(c.sel.Ev().item, c.nextId) == Ok(text)
    ensures Handled(w, c, SendPayload(d, text))
  {
    assert c.nextId == Nth(|c.h.calls|);
    hide LedgerOk, DeliveryOk, WeakOk, ServerOk, SourceOk, OutputOk, SinkOk, PayloadOf, NoteResult, SendPayload;
    DequeueWeak(c);
    SendPayloadSends(d, text);
    SinkGrows(d, text);
    assert d.(parked := None) == d;
    SourceSame(c, SendPayload(d, text).c);
    OutputGrows(c, SendPayload(d, text).c, c.sel.Ev().item);
  }

  lemma UnsentOk(w: World, c: Client, d: Client, error: Option<Error>)
    requires CanDequeue(w, c) && Recorded(w, c, d)
    requires PayloadOf(c.sel.Ev().item, c.nextId).Err?
    ensures Handled(w, c, Res(d, error))
  {
    assert c.nextId == Nth(|c.h.calls|);
    hide LedgerOk, DeliveryOk, WeakOk, ServerOk, SourceOk, OutputOk, SinkOk, PayloadOf, NoteResult;
    DequeueWeak(c);
    SourceSame(c, d);
    OutputGrows(c, d, c.sel.Ev().item);
  }

  lemma SourceSame(c: Client, d: Client)
    ensures SourceOk(c) && d.h.heard == c.h.heard && d.h.received == c.h.received && d.server == c.server
            ==> SourceOk(d)
  {
  }

  lemma CallMessageOk(w: World, c: Client)
    requires CanDequeue(w, c) && c.sel.Ev().item.RpcCall?
    ensures Handled(w, c, HandleClientPayload(w, Dequeue(c), c.sel.Ev().item))
  {
    hide SendPayload, LedgerOk, WeakOk, ServerOk, SourceOk, OutputOk, SinkOk, DeliveryOk;
    hide HandleClientPayload, PayloadOf, Encodes, Handled;
    var m, d := c.sel.Ev().item, Dequeue(c);
    var e := Numbered(d, m);
    CallMessageIs(w, d, m);
    NewCall(c.nextId, c.h.calls, c.h.heard, c.pending, c.h.outcomes, m);
    if Encodes(m) {
      SentOk(w, c, e.(pending := d.pending[Num(d.nextId) := m.completion]),
             PayloadOf(m, d.nextId).value);
    } else {
      CallDelivered(w, e, Num(d.nextId), m.completion, Err(SerializeError));
      UnsentOk(w, c, SendRpcResponse(w, e, Num(d.nextId), m.completion, Err(SerializeError)), None);
    }
  }

  lemma NoteMessageIs(w: World, c: Client, m: OutgoingMessage)
    requires m.SendNotification?
    ensures HandleClientPayload(w, c, m)
         == var d := CompleteNote(w, c, m.completion, NoteResult(m));
            var text := PayloadOf(m, c.nextId);
            if text.Ok? then SendPayload(d, text.value) else Res(d, None)
  {
    hide NoteText;
    NoteTextIs(m.name, m.params);
  }

  lemma NoteMessageOk(w: World, c: Client)
    requires CanDequeue(w, c) && c.sel.Ev().item.SendNotification?
    ensures Handled(w, c, HandleClientPayload(w, Dequeue(c), c.sel.Ev().item))
  {
    hide SendPayload, LedgerOk, WeakOk, ServerOk, SourceOk, OutputOk, SinkOk, DeliveryOk;
    hide HandleClientPayload, PayloadOf, NoteResult, Handled;
    var m, d := c.sel.Ev().item, Dequeue(c);
    var e := CompleteNote(w, d, m.completion, NoteResult(m));
    NoteMessageIs(w, d, m);
    NoteDelivered(w, d, m.completion, NoteResult(m));
    if PayloadOf(m, d.nextId).Ok? {
      SentOk(w, c, e, PayloadOf(m, d.nextId).value);
    } else {
      UnsentOk(w, c, e, None);
    }
  }

  lemma ResponseMessageOk(w: World, c: Client)
    requires CanDequeue(w, c) && c.sel.Ev().item.SendResponse?
    ensures Handled(w, c, HandleClientPayload(w, Dequeue(c), c.sel.Ev().item))
  {
    hide SendPayload, LedgerOk, WeakOk, ServerOk, SourceOk, OutputOk, SinkOk, DeliveryOk;
    hide ResponseToText, Handled;
    var text := ResponseToText(c.sel.Ev().item.response);
    ResponseTextIs(c.sel.Ev().item.response);
    if text.Ok? {
      SentOk(w, c, Dequeue(c), text.value);
    } else {
      UnsentOk(w, c, Dequeue(c), Some(text.error));
    }
  }

  /** Taking one message from the selector and handling it. */
  lemma OneMessageOk(w: World, c: Client)
    requires CanDequeue(w, c)
    ensures Handled(w, c, HandleClientPayload(w, Dequeue(c), c.sel.Ev().item))
  {
    match c.sel.Ev().item
    case RpcCall(_, _, _) => CallMessageOk(w, c);
    case SendNotification(_, _, _) => NoteMessageOk(w, c);
    case SendResponse(_) => ResponseMessageOk(w, c);
  }

  lemma NumbersGrow(calls: seq<CallRec>, dequeued: seq<OutgoingMessage>, m: OutgoingMessage, since: nat)
    requires NumbersOk(calls, dequeued) && m.RpcCall?
    ensures NumbersOk(calls + [CallRec(m, since)], dequeued + [m])
  {
    OneMore(dequeued, m);
  }

  /** What handling a message leaves alone, whatever state the client is in. */
  lemma PayloadFrame(w: World, c: Client, m: OutgoingMessage)
    ensures var r := HandleClientPayload(w, c, m);
            && r.c.sel == c.sel && r.c.server == c.server && r.c.h.dequeued == c.h.dequeued
            && r.c.net.rx == c.net.rx && c.h.sent <= r.c.h.sent
            && r.error != Some(Unreachable)
  {
  }

  lemma {:induction false} OutgoingKeepsServer(w: World, c: Client)
    ensures PollOutgoing(w, c).c.server == c.server
    decreases c.sel.Budget()
  {
    hide HandleClientPayload;
    if c.parked.None? && c.sel.Ev().Item? {
      ItemCosts(c.sel);
      PayloadFrame(w, Dequeue(c), c.sel.Ev().item);
      var r := HandleClientPayload(w, Dequeue(c), c.sel.Ev().item);
      if r.error.None? {
        OutgoingKeepsServer(w, r.c);
      }
    }
  }

  lemma OutgoingStop(w: World, c: Client)
    requires Inv(w, c) && (c.parked.Some? || !c.sel.Ev().Item?)
    ensures Inv(w, PollOutgoing(w, c).c) && TxFrame(c, PollOutgoing(w, c).c)
    ensures PollOutgoing(w, c).c.h.lost == c.h.lost
  {
    StopIs(w, c);
    SteppedOk(w, c);
  }

  lemma StopIs(w: World, c: Client)
    requires c.parked.Some? || !c.sel.Ev().Item?
    ensures PollOutgoing(w, c).c in {c, c.(sel := c.sel.Step())}
  {
  }

  lemma SteppedOk(w: World, c: Client)
    requires Inv(w, c)
    ensures Inv(w, c.(sel := c.sel.Step()))
  {
    DequeueWeak(c);
  }

  lemma TxFrameTwice(a: Client, b: Client, c: Client)
    requires TxFrame(a, b) && TxFrame(b, c)
    ensures TxFrame(a, c)
  {
  }

  lemma {:induction false} PollOutgoingOk(w: World, c: Client)
    requires Inv(w, c) && c.h.lost == None && c.fatal == None
    ensures Inv(w, PollOutgoing(w, c).c)
    ensures TxFrame(c, PollOutgoing(w, c).c)
    ensures PollOutgoing(w, c).c.h.lost.Some? ==> Sunk(PollOutgoing(w, c).error)
    decreases c.sel.Budget()
  {
    if c.parked.None? && c.sel.Ev().Item? {
      var r := HandleClientPayload(w, Dequeue(c), c.sel.Ev().item);
      ItemCosts(c.sel);
      OneMessageOk(w, c);
      if r.error.None? {
        PollOutgoingOk(w, r.c);
        TxFrameTwice(c, r.c, PollOutgoing(w, r.c).c);
      }
    } else {
      OutgoingStop(w, c);
    }
  }

  // ----- one poll -----

  lemma RetryParkedOk(w: World, c: Client)
    requires Inv(w, c) && c.h.lost == None && c.fatal == None
    ensures Inv(w, RetryParked(c).c) && TxFrame(c, RetryParked(c).c)
    ensures RetryParked(c).c.h.lost.Some? ==> Sunk(RetryParked(c).error)
  {
    if c.parked.Some? {
      SinkGrows(c, c.parked.value);
      SendPayloadSends(c.(parked := None), c.parked.value);
    }
  }

  lemma DriveServerOk(w: World, c: Client)
    requires Inv(w, c) && Healthy(c.server.pending) && !c.shuttingDown
    ensures Inv(w, DriveServer(c).c)
    ensures DriveServer(c).error.None? ==> Healthy(DriveServer(c).c.server.pending)
    ensures var d := DriveServer(c).c; d == c.(server := d.server, sel := d.sel)
  {
    PollServerOk(w, c.server);
    PollServerFrame(c.server);
    EnqueueOk(c.sel, c.server.log.enqueued, PollServer(c.server).server.log.enqueued, PollServer(c.server).sent);
  }

  /** No text of the stream is lost or invented: what was received, then what is still to come. */
  ghost predicate PollFrame(c: Client, d: Client) {
    c.h.received + Items(c.net.rx) == d.h.received + Items(d.net.rx)
  }

  /** What holds between the stages of `handle_messages`. */
  ghost predicate Busy(w: World, c: Client, d: Client) {
    && Inv(w, d) && PollFrame(c, d) && Healthy(d.server.pending) && d.h.lost == None
    && !ShouldShutDown(d) && d.h.entered == c.h.entered && d.h.progress == c.h.progress
  }

  /** How a stage of `handle_messages` may end. */
  ghost predicate Stage(w: World, c: Client, r: Res) {
    && (r.error.None? ==> Busy(w, c, r.c))
    && (r.error.Some? ==> Inv(w, r.c) && PollFrame(c, r.c) && !ShouldShutDown(r.c)
                          && r.c.h.entered == c.h.entered && r.c.h.progress == c.h.progress
                          && (r.c.h.lost.Some? ==> Sunk(r.error)))
  }

  lemma Stage1(w: World, c: Client)
    requires Busy(w, c, c)
    ensures Stage(w, c, RetryParked(c))
  {
    RetryParkedOk(w, c);
  }

  lemma Stage2(w: World, c: Client, d: Client)
    requires Busy(w, c, d)
    ensures Stage(w, c, DriveServer(d))
  {
    DriveServerOk(w, d);
  }

  lemma Stage3(w: World, c: Client, d: Client)
    requires Busy(w, c, d)
    ensures Stage(w, c, PollTransportRx(w, d))
  {
    PollTransportRxOk(w, d);
  }

  lemma Stage4(w: World, c: Client, d: Client)
    requires Busy(w, c, d)
    ensures Stage(w, c, PollOutgoing(w, d))
  {
    PollOutgoingOk(w, d);
  }

  lemma Stage5(w: World, c: Client, d: Client)
    requires Busy(w, c, d)
    ensures Stage(w, c, PollTransportTx(d))
  {
    hide Inv;
    NetIsFree(w, d, PollTransportTx(d).c.net);
  }

  lemma HandleMessagesOk(w: World, c: Client)
    requires Busy(w, c, c)
    ensures Stage(w, c, HandleMessages(w, c))
  {
    var r1 := RetryParked(c);
    Stage1(w, c);
    if r1.error.None? {
      var r2 := DriveServer(r1.c);
      Stage2(w, c, r1.c);
      if r2.error.None? {
        var r3 := PollTransportRx(w, r2.c);
        Stage3(w, c, r2.c);
        if r3.error.None? {
          var r4 := PollOutgoing(w, r3.c);
          Stage4(w, c, r3.c);
          if r4.error.None? {
            Stage5(w, c, r4.c);
          }
        }
      }
    }
  }

  // ----- the latch -----

  /** How the flags of a client that has not resolved tell whether, and why, it is shutting down;
      and what it resolves to. The first error of `handle_messages` decides. */
  ghost predicate Latch(c: Client) {
    && (c.h.entered == None ==>
          !ShouldShutDown(c) && c.h.progress == Running && Healthy(c.server.pending))
    && (c.h.lost.Some? ==> Sunk(c.h.entered))
    && (c.h.entered == Some(Shutdown) ==> c.shuttingDown && c.fatal == None && c.h.progress in {Running, Resolved})
    && (c.h.entered.Some? && c.h.entered != Some(Shutdown) ==>
          && !c.shuttingDown
          && if c.h.progress == Running then c.fatal == c.h.entered
             else c.h.progress == Crashed(c.h.entered.value) && c.fatal == None)
  }

  /** Nor on the flags, the result and the transport. */
  lemma FlagsAreFree(w: World, c: Client, d: Client)
    requires Inv(w, c)
    requires d == c.(net := d.net, fatal := d.fatal, shuttingDown := d.shuttingDown,
                     h := c.h.(entered := d.h.entered, progress := d.h.progress))
    ensures Inv(w, d)
  {
    hide LedgerOk, ServerOk, WeakOk, DeliveryOk, SinkOk;
  }

  lemma HandleShutdownOk(w: World, c: Client)
    requires Inv(w, c) && c.h.entered.Some? && c.h.progress == Running && Latch(c)
    ensures Inv(w, HandleShutdown(w, c)) && Latch(HandleShutdown(w, c)) && PollFrame(c, HandleShutdown(w, c))
    ensures HandleShutdown(w, c).h.entered == c.h.entered
  {
    hide Inv, PollTransportRx;
    PollTransportRxOk(w, c);
    var d := PollTransportRx(w, c).c;
    FlagsAreFree(w, d, HandleShutdown(w, c));
  }

  lemma EnterOk(w: World, c: Client, e: Error)
    requires Inv(w, c) && !ShouldShutDown(c) && c.h.entered == None && c.h.progress == Running
    requires c.h.lost.Some? ==> Sunk(Some(e))
    ensures Inv(w, Enter(c, e)) && Latch(Enter(c, e)) && PollFrame(c, Enter(c, e))
  {
  }

  /** `handle_messages` and, if it fails, the step into the shutdown. */
  lemma EnteringOk(w: World, c: Client)
    requires Inv(w, c) && Latch(c) && c.h.entered == None
    ensures !ShouldShutDown(c) && Busy(w, c, c) && Stage(w, c, HandleMessages(w, c))
    ensures var r := HandleMessages(w, c);
            r.error.Some? ==> var d := Enter(r.c, r.error.value); Inv(w, d) && Latch(d) && PollFrame(r.c, d)
  {
    hide Inv, HandleMessages, Items;
    HandleMessagesOk(w, c);
    var r := HandleMessages(w, c);
    if r.error.Some? {
      EnterOk(w, r.c, r.error.value);
    }
  }

  /** Every poll of a client that has not resolved keeps everything. */
  lemma PollOk(w: World, c: Client)
    requires Inv(w, c) && Latch(c) && c.h.progress == Running
    ensures Inv(w, Poll(w, c)) && Latch(Poll(w, c)) && PollFrame(c, Poll(w, c))
  {
    if ShouldShutDown(c) {
      HandleShutdownOk(w, c);
    } else {
      EnteringOk(w, c);
      var r := HandleMessages(w, c);
      if r.error.Some? {
        HandleShutdownOk(w, Enter(r.c, r.error.value));
      }
    }
  }

  lemma FeedOk(w: World, c: Client, f: Supply)
    requires Inv(w, c) && Latch(c)
    ensures Inv(w, Feed(c, f)) && Latch(Feed(c, f))
  {
  }

  lemma InitServerOk(w: World, chan: Chan<HandlerMsg>)
    ensures ServerOk(w, InitServer(chan)) && Healthy(InitServer(chan).pending)
  {
  }

  lemma EmptyLedgerOk()
    ensures LedgerOk(Nth(0), [], [], map[], [])
  {
  }

  lemma EmptyWeakOk(strong: Fused<OutgoingMessage>)
    ensures WeakOk(Sel(strong, Fused([], false), false, false), [])
  {
  }

  /** Nothing has happened yet. */
  ghost predicate Blank(c: Client) {
    c.h == EMPTY_HISTORY && c.parked == None && c.server.log == InitLog()
  }

  lemma BlankOutput(c: Client)
    requires Blank(c)
    ensures OutputOk(c) && SinkOk(c.h.sent, c.h.offers, c.parked, c.h.lost)
  {
  }

  lemma BlankSource(c: Client)
    requires Blank(c)
    ensures SourceOk(c)
  {
  }

  lemma InitOk(w: World, net: Net, strong: Script<OutgoingMessage>, handlerChan: Chan<HandlerMsg>)
    ensures Inv(w, InitClient(net, strong, handlerChan)) && Latch(InitClient(net, strong, handlerChan))
  {
    hide LedgerOk, WeakOk, ServerOk, OutputOk, SinkOk, SourceOk;
    InitServerOk(w, handlerChan);
    EmptyLedgerOk();
    EmptyWeakOk(Fused(strong, false));
    BlankOutput(InitClient(net, strong, handlerChan));
    BlankSource(InitClient(net, strong, handlerChan));
  }

  /** The invariant holds after every run, from every start. */
  lemma {:induction false} RunOk(w: World, c: Client, moves: seq<Move>)
    requires Inv(w, c) && Latch(c)
    ensures Inv(w, Run(w, c, moves)) && Latch(Run(w, c, moves))
  {
    if moves != [] {
      var n := |moves| - 1;
      RunOk(w, c, moves[..n]);
      var d := Run(w, c, moves[..n]);
      match moves[n]
      case DoPoll => if d.h.progress.Running? { PollOk(w, d); }
      case DoFeed(f) => FeedOk(w, d, f);
    }
  }
}
