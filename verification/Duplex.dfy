/** Two clients wired to each other: every answer a caller gets is the one its peer's handler gave. */
module Duplex {
  import opened Futures
  import opened JsonRpc
  import opened Ids
  import opened SelectWeak
  import opened ServerModel
  import opened DriverProofs
  import opened ServerProofs
  import opened ClientModel
  import opened ClientLedger
  import opened ClientProofs

  // ----- the system -----

  /** `toB` and `toA` count the texts delivered so far; the rest of what was sent is in flight. */
  datatype System = System(a: Client, b: Client, toB: nat, toA: nat)

  datatype SysMove = PollA | PollB | DeliverToB | DeliverToA | FeedA(supply: Supply) | FeedB(supply: Supply)

  const NO_SUPPLY := Supply([], [], [], [], [], [])

  function Deliver(c: Client, text: Text): Client {
    Feed(c, NO_SUPPLY.(rx := [Item(text)]))
  }

  function SysStep(wa: World, wb: World, s: System, m: SysMove): System {
    match m
    case PollA => s.(a := Step(wa, s.a, DoPoll))
    case PollB => s.(b := Step(wb, s.b, DoPoll))
    case DeliverToB => if s.toB < |s.a.h.sent| then s.(b := Deliver(s.b, s.a.h.sent[s.toB]), toB := s.toB + 1) else s
    case DeliverToA => if s.toA < |s.b.h.sent| then s.(a := Deliver(s.a, s.b.h.sent[s.toA]), toA := s.toA + 1) else s
    case FeedA(f) => s.(a := Feed(s.a, f))
    case FeedB(f) => s.(b := Feed(s.b, f))
  }

  function SysRun(wa: World, wb: World, s: System, moves: seq<SysMove>): System {
    if moves == [] then s else SysStep(wa, wb, SysRun(wa, wb, s, moves[..|moves| - 1]), moves[|moves| - 1])
  }

  /** The callers of a client hand it calls and notifications; responses come from its server. */
  ghost predicate NoForgery(strong: Script<OutgoingMessage>) {
    forall i :: 0 <= i < |strong| && strong[i].Item? ==> !strong[i].item.SendResponse?
  }

  /** What the surroundings may add: anything, except texts on the wires and forged responses. The
      wires may stall, end or fail. */
  ghost predicate Honest(m: SysMove) {
    m.FeedA? || m.FeedB? ==>
      NoForgery(m.supply.strong) && forall i :: 0 <= i < |m.supply.rx| ==> !m.supply.rx[i].Item?
  }

  // ----- what one client does to its outputs -----

  /** Every response dequeued was enqueued by the server. */
  ghost predicate Genuine(c: Client) {
    && NoForgery(c.sel.strong.script)
    && forall m :: m in c.h.dequeued && m.SendResponse? ==> Made(c.server.log, m.response)
  }

  ghost predicate Made(log: Log, response: Response) {
    exists q :: q in log.enqueued && q.response == response
  }

  lemma MadeGrows(log: Log, log': Log, response: Response)
    requires log.enqueued <= log'.enqueued && Made(log, response)
    ensures Made(log', response)
  {
    var q :| q in log.enqueued && q.response == response;
    assert q in log'.enqueued;
  }

  /** What was sent stays sent, and the server's messages only grow. */
  ghost predicate Onward(c: Client, d: Client) {
    c.h.sent <= d.h.sent && c.server.log.enqueued <= d.server.log.enqueued
  }

  lemma SameOutput(c: Client, d: Client)
    requires Genuine(c) && Onward(c, d) && d.h.dequeued == c.h.dequeued && d.sel.strong == c.sel.strong
    ensures Genuine(d)
  {
    forall m | m in d.h.dequeued && m.SendResponse?
      ensures Made(d.server.log, m.response)
    {
      MadeGrows(c.server.log, d.server.log, m.response);
    }
  }

  lemma RxPayloadEnqueues(w: World, c: Client, text: Text)
    ensures c.server.log.enqueued <= HandleRxPayload(w, c, text).c.server.log.enqueued
  {
    if Decode(text).InRequest? {
      ProcessRequestFrame(w, c.server, Decode(text).request);
    }
  }

  lemma {:induction false} RxEnqueues(w: World, c: Client)
    ensures c.server.log.enqueued <= PollTransportRx(w, c).c.server.log.enqueued
    decreases |c.net.rx|
  {
    if Next(c.net.rx).Item? {
      var text := c.net.rx[0].item;
      RxPayloadEnqueues(w, Receive(c), text);
      var r := HandleRxPayload(w, Receive(c), text);
      if r.error.None? {
        RxEnqueues(w, r.c);
      }
    }
  }

  lemma RxOnward(w: World, c: Client)
    requires Inv(w, c) && Genuine(c)
    ensures var d := PollTransportRx(w, c).c; Onward(c, d) && Genuine(d)
  {
    PollTransportRxOk(w, c);
    RxEnqueues(w, c);
    SameOutput(c, PollTransportRx(w, c).c);
  }

  lemma WeakResponses(sel: Sel<OutgoingMessage>, log: Log)
    requires WeakOk(sel, log.enqueued) && NoForgery(sel.strong.script)
    requires sel.Ev().Item? && sel.Ev().item.SendResponse?
    ensures Made(log, sel.Ev().item.response)
  {
    var k := |log.enqueued| - |sel.weak.script|;
    assert sel.weak.Ev() == sel.Ev();
    assert sel.weak.script[0] == Item(SendResponse(log.enqueued[k].response));
    assert log.enqueued[k] in log.enqueued;
  }

  lemma StepNoForgery(sel: Sel<OutgoingMessage>)
    requires NoForgery(sel.strong.script)
    ensures NoForgery(sel.Step().strong.script)
  {
  }

  lemma SendPayloadOnward(c: Client, text: Text)
    ensures var d := SendPayload(c, text).c;
            c.h.sent <= d.h.sent && d.server == c.server && d.sel == c.sel && d.h.dequeued == c.h.dequeued
  {
  }

  lemma OneOnward(w: World, c: Client)
    requires Inv(w, c) && Genuine(c) && c.sel.Ev().Item?
    ensures var d := HandleClientPayload(w, Dequeue(c), c.sel.Ev().item).c; Onward(c, d) && Genuine(d)
  {
    var m := c.sel.Ev().item;
    PayloadFrame(w, Dequeue(c), m);
    StepNoForgery(c.sel);
    if m.SendResponse? {
      WeakResponses(c.sel, c.server.log);
    }
  }

  lemma {:induction false} OutgoingOnward(w: World, c: Client)
    requires Inv(w, c) && Genuine(c) && c.h.lost == None && c.fatal == None
    ensures var d := PollOutgoing(w, c).c; Onward(c, d) && Genuine(d)
    decreases c.sel.Budget()
  {
    if c.parked.None? && c.sel.Ev().Item? {
      var r := HandleClientPayload(w, Dequeue(c), c.sel.Ev().item);
      ItemCosts(c.sel);
      OneMessageOk(w, c);
      OneOnward(w, c);
      if r.error.None? {
        OutgoingOnward(w, r.c);
      }
    } else {
      StopIs(w, c);
      StepNoForgery(c.sel);
    }
  }

  lemma RetryOnward(c: Client)
    requires Genuine(c)
    ensures var d := RetryParked(c).c; Onward(c, d) && Genuine(d)
  {
    if c.parked.Some? {
      SendPayloadOnward(c.(parked := None), c.parked.value);
    }
    SameOutput(c, RetryParked(c).c);
  }

  lemma DriveOnward(c: Client)
    requires Genuine(c) && !c.shuttingDown
    ensures var d := DriveServer(c).c; Onward(c, d) && Genuine(d)
  {
    PollServerFrame(c.server);
    SameOutput(c, DriveServer(c).c);
  }

  lemma OnwardTwice(a: Client, b: Client, c: Client)
    requires Onward(a, b) && Onward(b, c)
    ensures Onward(a, c)
  {
  }

  lemma RxOutgoingOnward(w: World, c: Client, d: Client)
    requires Busy(w, c, d) && Genuine(d)
    ensures var r := PollTransportRx(w, d);
            && Onward(d, r.c) && Genuine(r.c)
            && (r.error.None? ==> Onward(d, PollOutgoing(w, r.c).c) && Genuine(PollOutgoing(w, r.c).c))
  {
    var r := PollTransportRx(w, d);
    RxOnward(w, d);
    if r.error.None? {
      Stage3(w, c, d);
      OutgoingOnward(w, r.c);
      OnwardTwice(d, r.c, PollOutgoing(w, r.c).c);
    }
  }

  lemma HandleMessagesOnward(w: World, c: Client)
    requires Busy(w, c, c) && Genuine(c)
    ensures var d := HandleMessages(w, c).c; Onward(c, d) && Genuine(d)
  {
    hide RetryParked, DriveServer, PollTransportRx, PollOutgoing, Inv;
    var r1 := RetryParked(c);
    Stage1(w, c);
    RetryOnward(c);
    if r1.error.None? {
      var r2 := DriveServer(r1.c);
      Stage2(w, c, r1.c);
      DriveOnward(r1.c);
      OnwardTwice(c, r1.c, r2.c);
      if r2.error.None? {
        RxOutgoingOnward(w, c, r2.c);
        var r3 := PollTransportRx(w, r2.c);
        OnwardTwice(c, r2.c, r3.c);
        if r3.error.None? {
          OnwardTwice(c, r2.c, PollOutgoing(w, r3.c).c);
        }
      }
    }
  }

  lemma ShutdownOnward(w: World, c: Client)
    requires Inv(w, c) && Genuine(c)
    ensures Onward(c, HandleShutdown(w, c)) && Genuine(HandleShutdown(w, c))
  {
    RxOnward(w, c);
  }

  lemma PollOnward(w: World, c: Client)
    requires Inv(w, c) && Latch(c) && Genuine(c) && c.h.progress == Running
    ensures Onward(c, Poll(w, c)) && Genuine(Poll(w, c))
  {
    if ShouldShutDown(c) {
      ShutdownOnward(w, c);
    } else {
      HandleMessagesOk(w, c);
      HandleMessagesOnward(w, c);
      var r := HandleMessages(w, c);
      if r.error.Some? {
        EnterOk(w, r.c, r.error.value);
        ShutdownOnward(w, Enter(r.c, r.error.value));
      }
    }
  }

  // ----- the invariant of the system -----

  ghost predicate ClientOk(w: World, c: Client) {
    Inv(w, c) && Latch(c) && Genuine(c)
  }

  /** The wires are lossless and in order. */
  ghost predicate WiresOk(s: System) {
    WireOk(s.a.h.sent, s.toB, s.b) && WireOk(s.b.h.sent, s.toA, s.a)
  }

  ghost predicate SysOk(wa: World, wb: World, s: System) {
    ClientOk(wa, s.a) && ClientOk(wb, s.b) && WiresOk(s)
  }

  lemma StepOk(w: World, c: Client)
    requires ClientOk(w, c)
    ensures var d := Step(w, c, DoPoll); ClientOk(w, d) && Onward(c, d) && PollFrame(c, d)
  {
    if c.h.progress.Running? {
      PollOk(w, c);
      PollOnward(w, c);
    }
  }

  lemma {:induction false} SilentItems<T>(s: Script<T>)
    requires forall i :: 0 <= i < |s| ==> !s[i].Item?
    ensures Items(s) == []
  {
    if s != [] {
      SilentItems(s[1..]);
    }
  }

  lemma FeedGenuine(w: World, c: Client, f: Supply)
    requires ClientOk(w, c) && NoForgery(f.strong)
    ensures var d := Feed(c, f);
            && ClientOk(w, d) && d.h == c.h
            && Items(d.net.rx) == Items(c.net.rx) + Items(f.rx)
  {
    FeedOk(w, c, f);
    ItemsAppend(c.net.rx, f.rx);
    SameOutput(c, Feed(c, f).(sel := c.sel));
  }

  lemma DeliverOk(w: World, c: Client, text: Text)
    requires ClientOk(w, c)
    ensures var d := Deliver(c, text);
            && ClientOk(w, d) && d.h == c.h
            && Items(d.net.rx) == Items(c.net.rx) + [text]
  {
    FeedGenuine(w, c, NO_SUPPLY.(rx := [Item(text)]));
    assert Items([Item(text)]) == [text] + Items([Item(text)][1..]);
  }

  /** One wire, from what was sent, of which `n` texts were delivered, to what was received. */
  ghost predicate WireOk(sent: seq<Text>, n: nat, c: Client) {
    n <= |sent| && c.h.received + Items(c.net.rx) == sent[..n]
  }

  lemma WireSent(sent: seq<Text>, sent': seq<Text>, n: nat, c: Client)
    requires WireOk(sent, n, c) && sent <= sent'
    ensures WireOk(sent', n, c)
  {
    assert sent'[..n] == sent[..n];
  }

  lemma PollOneOk(w: World, c: Client, sentToC: seq<Text>, n: nat, d: Client, m: nat)
    requires ClientOk(w, c) && WireOk(sentToC, n, c) && WireOk(c.h.sent, m, d)
    ensures var c' := Step(w, c, DoPoll); ClientOk(w, c') && WireOk(sentToC, n, c') && WireOk(c'.h.sent, m, d)
  {
    hide ClientOk, Step;
    StepOk(w, c);
    WireSent(c.h.sent, Step(w, c, DoPoll).h.sent, m, d);
  }

  lemma DeliverOneOk(w: World, c: Client, sent: seq<Text>, n: nat)
    requires ClientOk(w, c) && WireOk(sent, n, c) && n < |sent|
    ensures var c' := Deliver(c, sent[n]); ClientOk(w, c') && c'.h == c.h && WireOk(sent, n + 1, c')
  {
    hide ClientOk, Deliver;
    DeliverOk(w, c, sent[n]);
    assert sent[..n + 1] == sent[..n] + [sent[n]];
    assert c.h.received + (Items(c.net.rx) + [sent[n]]) == c.h.received + Items(c.net.rx) + [sent[n]];
  }

  lemma FeedOneOk(w: World, c: Client, f: Supply, sent: seq<Text>, n: nat)
    requires ClientOk(w, c) && WireOk(sent, n, c) && NoForgery(f.strong)
    requires forall i :: 0 <= i < |f.rx| ==> !f.rx[i].Item?
    ensures var c' := Feed(c, f); ClientOk(w, c') && c'.h == c.h && WireOk(sent, n, c')
  {
    hide ClientOk, Feed;
    FeedGenuine(w, c, f);
    SilentItems(f.rx);
    assert Items(c.net.rx) + [] == Items(c.net.rx);
  }

  lemma SysStepOk(wa: World, wb: World, s: System, m: SysMove)
    requires SysOk(wa, wb, s) && Honest(m)
    ensures SysOk(wa, wb, SysStep(wa, wb, s, m))
  {
    hide ClientOk, WireOk, Step, Deliver, Feed;
    match m
    case PollA => PollOneOk(wa, s.a, s.b.h.sent, s.toA, s.b, s.toB);
    case PollB => PollOneOk(wb, s.b, s.a.h.sent, s.toB, s.a, s.toA);
    case DeliverToB => if s.toB < |s.a.h.sent| { DeliverOneOk(wb, s.b, s.a.h.sent, s.toB); }
    case DeliverToA => if s.toA < |s.b.h.sent| { DeliverOneOk(wa, s.a, s.b.h.sent, s.toA); }
    case FeedA(f) => FeedOneOk(wa, s.a, f, s.b.h.sent, s.toA);
    case FeedB(f) => FeedOneOk(wb, s.b, f, s.a.h.sent, s.toB);
  }

  lemma {:induction false} SysRunOk(wa: World, wb: World, s: System, moves: seq<SysMove>)
    requires SysOk(wa, wb, s) && forall m :: m in moves ==> Honest(m)
    ensures SysOk(wa, wb, SysRun(wa, wb, s, moves))
  {
    if moves != [] {
      var n := |moves| - 1;
      SysRunOk(wa, wb, s, moves[..n]);
      SysStepOk(wa, wb, SysRun(wa, wb, s, moves[..n]), moves[n]);
    }
  }

  // ----- where texts come from -----

  lemma {:induction false} PayloadSource(ms: seq<OutgoingMessage>, text: Text) returns (n: nat)
    requires text in Payloads(ms)
    ensures n < |ms| && PayloadOf(ms[n], Nth(|CallsIn(ms[..n])|)) == Ok(text)
  {
    n := |ms| - 1;
    var p := PayloadOf(ms[n], Nth(|CallsIn(ms[..n])|));
    if p != Ok(text) {
      var k := n;
      n := PayloadSource(ms[..k], text);
      assert ms[..k][..n] == ms[..n];
    }
  }

  lemma {:induction false} CallAt(ms: seq<OutgoingMessage>, n: nat)
    requires n < |ms| && ms[n].RpcCall?
    ensures |CallsIn(ms[..n])| < |CallsIn(ms)| && CallsIn(ms)[|CallsIn(ms[..n])|] == ms[n]
  {
    var k := |ms| - 1;
    if n < k {
      CallAt(ms[..k], n);
      assert ms[..k][..n] == ms[..n];
    }
  }

  lemma {:induction false} HeardSource(texts: seq<Text>, o: Output)
    requires o in HeardIn(texts)
    ensures ResponseText(One(o)) in texts
  {
    var n := |texts| - 1;
    if o in HeardIn(texts[..n]) {
      HeardSource(texts[..n], o);
    } else {
      assert texts[n] == ResponseText(One(o));
    }
  }

  lemma {:induction false} RequestSource(texts: seq<Text>, req: Request)
    requires req in RequestsIn(texts)
    ensures RequestText(req) in texts
  {
    var n := |texts| - 1;
    if req in RequestsIn(texts[..n]) {
      RequestSource(texts[..n], req);
    } else {
      assert texts[n] == RequestText(req);
    }
  }

  /** Whatever was received on a wire was sent at its other end. */
  lemma ReceivedWasSent(received: seq<Text>, rest: seq<Text>, sent: seq<Text>, n: nat, text: Text)
    requires n <= |sent| && received + rest == sent[..n] && text in received
    ensures text in sent
  {
    var k :| 0 <= k < |received| && received[k] == text;
    assert sent[k] == (received + rest)[k];
  }

  lemma ClientKeeps(w: World, c: Client)
    requires ClientOk(w, c)
    ensures OutputOk(c) && Genuine(c)
    ensures c.server.log.pushes < U64 - 1 ==> Ledger(w, c.server)
  {
  }

  lemma SentPayload(c: Client, text: Text)
    requires OutputOk(c) && text in c.h.sent
    ensures text in Payloads(c.h.dequeued)
  {
    hide Payloads;
    var k :| 0 <= k < |c.h.sent| && c.h.sent[k] == text;
    assert (c.h.sent + c.parked.ToSeq() + c.h.lost.ToSeq())[k] == text;
  }

  lemma MadeBy(log: Log, response: Response) returns (q: Enqueued)
    requires Made(log, response)
    ensures q in log.enqueued && q.response == response
  {
    q :| q in log.enqueued && q.response == response;
  }

  /** A response sent was made by the server as the answer to a single request. */
  lemma ResponseOrigin(w: World, c: Client, o: Output) returns (r: nat)
    requires ClientOk(w, c) && c.server.log.pushes < U64 - 1
    requires ResponseText(One(o)) in c.h.sent
    ensures r < |c.server.log.dispatched| && c.server.log.dispatched[r].request.Single?
    ensures FutsOf(w, c.server.log.dispatched[r], r)[0].result == Ok(Some(o))
  {
    ClientKeeps(w, c);
    hide ClientOk, OutputOk, Ledger, Made, FutsOf, Payloads, CallsIn;
    var text := ResponseText(One(o));
    SentPayload(c, text);
    var n := PayloadSource(c.h.dequeued, text);
    var m := c.h.dequeued[n];
    assert m == SendResponse(One(o));
    assert m in c.h.dequeued && Made(c.server.log, m.response);
    var q := MadeBy(c.server.log, m.response);
    r := q.request;
    SingleAnswer(w, c.server, q, o);
  }

  lemma SingleAnswer(w: World, s: Server, q: Enqueued, o: Output)
    requires Ledger(w, s) && q in s.log.enqueued && q.response == One(o)
    ensures q.request < |s.log.dispatched| && s.log.dispatched[q.request].request.Single?
    ensures FutsOf(w, s.log.dispatched[q.request], q.request)[0].result == Ok(Some(o))
  {
    var d := s.log.dispatched[q.request];
    var futs := FutsOf(w, d, q.request);
    assert s.log.fates[q.request] == Answered(Some(One(o)));
    assert RightAnswer(w, d, q.request, Some(One(o)));
    assert futs[..0] == [];
    assert Outputs(futs) == OutputOf(futs[0]);
    assert o in OutputOf(futs[0]);
  }

  /** The request of call number `k`: its own method name and parameters, under its id. */
  function RequestOf(calls: seq<CallRec>, k: nat): Request
    requires k < |calls| && calls[k].call.RpcCall?
  {
    Single(Method(MethodCall(calls[k].call.name, calls[k].call.params, CallId(k))))
  }

  /** A request sent is a notification, or the request of a call that got its id. */
  lemma RequestOrigin(w: World, c: Client, req: Request) returns (k: nat)
    requires ClientOk(w, c) && RequestText(req) in c.h.sent
    requires req.Single? && !req.call.Note?
    ensures k < |c.h.calls| && c.h.calls[k].call.RpcCall?
    ensures req == RequestOf(c.h.calls, k)
  {
    ClientKeeps(w, c);
    hide ClientOk, Genuine, Payloads, CallsIn;
    var text := RequestText(req);
    SentPayload(c, text);
    var n := PayloadSource(c.h.dequeued, text);
    var m := c.h.dequeued[n];
    assert m.RpcCall?;
    CallAt(c.h.dequeued, n);
    k := |CallsIn(c.h.dequeued[..n])|;
  }

  // ----- end to end -----

  /** What the server `s` answers to the call `m`, taken as its request number `r`: the output of
      the method handler registered when the request was taken, or method-not-found. */
  ghost predicate AnswersCall(w: World, s: Server, r: nat, m: MethodCall, o: Output)
    requires r < |s.log.dispatched|
  {
    var hs := s.log.dispatched[r].handlers;
    && s.log.dispatched[r].request == Single(Method(m))
    && s.log.dispatched[r].seen <= |s.log.consumed|
    && hs == RegistryAfter(s.log.consumed[..s.log.dispatched[r].seen])
    && if m.name in hs && hs[m.name].MethodHandler? then
         w.onMethod(hs[m.name].h, m, r, 0).result == Ok(o)
       else
         o == Failure(true, MethodNotFound, m.id)
  }

  ghost predicate Fresh(c: Client) {
    exists net, strong, handlerChan :: c == InitClient(net, strong, handlerChan) && net.rx == [] && NoForgery(strong)
  }

  ghost predicate SysReached(wa: World, wb: World, s: System) {
    exists a, b, moves ::
      && Fresh(a) && Fresh(b) && (forall m :: m in moves ==> Honest(m))
      && s == SysRun(wa, wb, System(a, b, 0, 0), moves)
  }

  /** End to end: whatever the interleaving of polls and deliveries, a call at A that is completed
      by a response is completed with the value or the error that B's handler gave when it was called
      with the name and the parameters of this very call, or with method-not-found if B had no method
      handler for it when it took the request. */
  lemma EndToEnd(wa: World, wb: World, s: System, i: nat)
    requires SysReached(wa, wb, s) && Echoes(wb)
    requires |s.a.h.calls| < U64 - 1 && s.b.server.log.pushes < U64 - 1
    requires i < |s.a.h.calls| && s.a.h.calls[i].call.RpcCall? && CleanParams(s.a.h.calls[i].call.params)
    requires CallId(i) !in s.a.pending
    ensures var call := s.a.h.calls[i].call;
            exists r: nat, o, result ::
              && r < |s.b.server.log.dispatched|
              && AnswersCall(wb, s.b.server, r, MethodCall(call.name, call.params, CallId(i)), o)
              && Tells(o, result) && Outcome(CallId(i), call.completion, result) in s.a.h.outcomes
  {
    hide SysReached;
    SysReachedOk(wa, wb, s);
    hide SysOk;
    OutcomeIs(wa, wb, s, i);
    FirstAnswerIs(s.a.h.heard, s.a.h.calls[i].since, CallId(i));
    var o := s.a.h.heard[FirstAnswer(s.a.h.heard, s.a.h.calls[i].since, CallId(i)).value];
    var r := AnswerTravelled(wa, wb, s, o);
    var k := RequestTravelled(wa, wb, s, r);
    var m := s.b.server.log.dispatched[r].request.call.call;
    MethodAnswer(wa, wb, s, r, o);
    assert m.id == CallId(k) && o.id == m.id;
    SameNumber(i, k);
    ResultTells(o, ResultOf(o));
    assert AnswersCall(wb, s.b.server, r, MethodCall(s.a.h.calls[i].call.name, s.a.h.calls[i].call.params,
        CallId(i)), o);
  }

  lemma OutcomeIs(wa: World, wb: World, s: System, i: nat)
    requires SysOk(wa, wb, s) && |s.a.h.calls| < U64 - 1
    requires i < |s.a.h.calls| && s.a.h.calls[i].call.RpcCall? && CallId(i) !in s.a.pending
    ensures Due(s.a.h.calls, s.a.h.heard, i).Some?
    ensures Outcome(CallId(i), s.a.h.calls[i].call.completion, Due(s.a.h.calls, s.a.h.heard, i).value) in s.a.h.outcomes
  {
    assert CallOk(s.a.h.calls, s.a.h.heard, s.a.pending, s.a.h.outcomes, i);
  }

  lemma SameNumber(i: nat, k: nat)
    requires i < U64 - 1 && k < U64 - 1 && CallId(i) == CallId(k)
    ensures i == k
  {
  }

  /** A response A processed is the answer B's server gave to some single request. */
  lemma AnswerTravelled(wa: World, wb: World, s: System, o: Output) returns (r: nat)
    requires SysOk(wa, wb, s) && s.b.server.log.pushes < U64 - 1 && o in s.a.h.heard
    ensures r < |s.b.server.log.dispatched| && s.b.server.log.dispatched[r].request.Single?
    ensures FutsOf(wb, s.b.server.log.dispatched[r], r)[0].result == Ok(Some(o))
  {
    assert SourceOk(s.a);
    hide Inv, Latch, Genuine, FutsOf;
    HeardSource(s.a.h.received, o);
    ReceivedWasSent(s.a.h.received, Items(s.a.net.rx), s.b.h.sent, s.toA, ResponseText(One(o)));
    r := ResponseOrigin(wb, s.b, o);
  }

  /** A call or invalid request B's server took is the request of one of A's calls. */
  lemma RequestTravelled(wa: World, wb: World, s: System, r: nat) returns (k: nat)
    requires SysOk(wa, wb, s) && r < |s.b.server.log.dispatched|
    requires var req := s.b.server.log.dispatched[r].request; req.Single? && !req.call.Note?
    ensures k < |s.a.h.calls| && s.a.h.calls[k].call.RpcCall?
    ensures s.b.server.log.dispatched[r].request == RequestOf(s.a.h.calls, k)
  {
    var req := s.b.server.log.dispatched[r].request;
    assert SourceOk(s.b);
    hide Inv, Latch, Genuine;
    assert RequestsOf(s.b.server.log.dispatched)[r] == req;
    RequestSource(s.b.h.received, req);
    ReceivedWasSent(s.b.h.received, Items(s.b.net.rx), s.a.h.sent, s.toB, RequestText(req));
    k := RequestOrigin(wa, s.a, req);
  }

  /** An output of a single call is the handler's, or method-not-found. */
  lemma MethodAnswer(wa: World, wb: World, s: System, r: nat, o: Output)
    requires SysOk(wa, wb, s) && r < |s.b.server.log.dispatched|
    requires var d := s.b.server.log.dispatched[r];
             d.request.Single? && d.request.call.Method? && FutsOf(wb, d, r)[0].result == Ok(Some(o))
    ensures AnswersCall(wb, s.b.server, r, s.b.server.log.dispatched[r].request.call.call, o)
  {
    assert RegistryOk(s.b.server);
    hide SysOk;
    assert s.b.server.log.dispatched[r] in s.b.server.log.dispatched;
  }

  lemma FreshOk(w: World, c: Client)
    requires Fresh(c)
    ensures ClientOk(w, c) && c.h == EMPTY_HISTORY && c.net.rx == []
  {
    var net, strong, handlerChan :| c == InitClient(net, strong, handlerChan) && net.rx == [] && NoForgery(strong);
    InitOk(w, net, strong, handlerChan);
  }

  lemma SysReachedOk(wa: World, wb: World, s: System)
    requires SysReached(wa, wb, s)
    ensures SysOk(wa, wb, s)
  {
    var a, b, moves :|
      && Fresh(a) && Fresh(b) && (forall m :: m in moves ==> Honest(m))
      && s == SysRun(wa, wb, System(a, b, 0, 0), moves);
    FreshOk(wa, a);
    FreshOk(wb, b);
    SysRunOk(wa, wb, System(a, b, 0, 0), moves);
  }
}
