/** Why a client ends: which event of the transport, of the outgoing messages or of the server each
    error of `handle_messages` stands for, and that the first such event decides. */
module ClientCauses {
  import opened Futures
  import opened JsonRpc
  import opened SelectWeak
  import opened ServerModel
  import opened DriverProofs
  import opened ServerProofs
  import opened ServerProgress
  import opened ClientModel
  import opened ClientProofs
  import opened ClientTheorems
  import opened ClientDrains

  // ----- the transport stream -----

  /** A request, or a single response of version 2.0. */
  predicate GoodText(text: Text) {
    match text
    case RequestText(_) => true
    case ResponseText(One(output)) => output.v2
    case _ => false
  }

  /** Reading the stream goes well up to position `n`, and there it ends with `error`: with a shutdown
      at the end of the stream, with a transport error if it fails, with an invalid version at a single
      response of another version and with a deserialisation error at any other bad text. It ends well
      where the stream is not ready. */
  ghost predicate RxEndsAt(rx: Script<Text>, n: nat, error: Option<Error>) {
    && n <= |rx| && (forall j :: 0 <= j < n ==> rx[j].Item? && GoodText(rx[j].item))
    && if n == |rx| then error == None else
       match rx[n]
       case Pending => error == None
       case End => error == Some(Shutdown)
       case Fail(code) => error == Some(TransportError(code))
       case Item(ResponseText(One(output))) => !output.v2 && error == Some(InvalidVersion)
       case Item(text) => !GoodText(text) && error == Some(DeserializeError)
  }

  ghost predicate RxEnds(rx: Script<Text>, error: Option<Error>) {
    exists n: nat :: RxEndsAt(rx, n, error)
  }

  lemma RxEndsOnce(rx: Script<Text>, a: Option<Error>, b: Option<Error>)
    requires RxEnds(rx, a) && RxEnds(rx, b)
    ensures a == b
  {
    var n: nat :| RxEndsAt(rx, n, a);
    var m: nat :| RxEndsAt(rx, m, b);
    assert n == m;
  }

  lemma TextCause(w: World, c: Client, text: Text)
    ensures var error := HandleRxPayload(w, c, text).error;
            if GoodText(text) then error == None
            else if text.ResponseText? && text.response.One? then error == Some(InvalidVersion)
            else error == Some(DeserializeError)
  {
    hide ProcessRequest;
    match text
    case RequestText(request) => assert Decode(text) == InRequest(request);
    case ResponseText(One(output)) => assert Decode(text) == InResponse(output);
    case _ => assert Decode(text) == Malformed;
  }

  lemma {:induction false} RxCauseAt(w: World, c: Client) returns (n: nat)
    ensures RxEndsAt(c.net.rx, n, PollTransportRx(w, c).error)
    decreases |c.net.rx|
  {
    hide HandleRxPayload;
    n := 0;
    if Next(c.net.rx).Item? {
      var text := c.net.rx[0].item;
      var r := HandleRxPayload(w, Receive(c), text);
      TextCause(w, Receive(c), text);
      RxStep(w, c);
      if r.error.None? {
        var m := RxCauseAt(w, r.c);
        n := m + 1;
        assert forall j :: 0 <= j < n ==> c.net.rx[j] == if j == 0 then c.net.rx[0] else r.c.net.rx[j - 1];
      }
    }
  }

  /** How reading the stream ends is decided by what the stream answers, and by that alone. */
  lemma RxCause(w: World, c: Client)
    ensures RxEnds(c.net.rx, PollTransportRx(w, c).error)
  {
    var n := RxCauseAt(w, c);
  }

  // ----- the outgoing messages -----

  /** The message `m` stops the loop: it is a response that does not serialise, or the sink did not
      accept its text. */
  ghost predicate StopsAt(c: Client, d: Client, m: OutgoingMessage, error: Option<Error>) {
    if m.SendResponse? && !CleanResponse(m.response) then
      error == Some(SerializeError)
    else
      && |c.h.offers| < |d.h.offers|
      && match d.h.offers[|d.h.offers| - 1].answer
         case Accept => false
         case Refuse => error == None
         case SendFail(code) => error == Some(TransportError(code))
  }

  /** All answers but the last are items. */
  ghost predicate ItemsFirst<T>(answers: Script<T>) {
    forall j :: 0 <= j < |answers| - 1 ==> answers[j].Item?
  }

  lemma ItemsFirstMore<T>(ev: Ev<T>, rest: Script<T>)
    requires ItemsFirst(rest) && (rest == [] || ev.Item?)
    ensures ItemsFirst([ev] + rest)
  {
    var all := [ev] + rest;
    assert forall j :: 0 < j < |all| ==> all[j] == rest[j - 1];
  }

  /** The loop polls the selector `n` times; all but the last answer are messages. It ends with a
      shutdown at the end of the selector, well where it is not ready, or as the last message says. */
  ghost predicate TakesUntil(c: Client, d: Client, n: nat, error: Option<Error>) {
    var answers := c.sel.Answers(n);
    && |answers| == n && d.sel == c.sel.Run(n) && d.h.dequeued == c.h.dequeued + Items(answers)
    && ItemsFirst(answers)
    && (n == 0 <==> c.parked.Some?)
    && if n == 0 then error == None else
       match answers[n - 1]
       case Pending => error == None
       case End => error == Some(Shutdown)
       case Fail(_) => error == Some(Unreachable)
       case Item(m) => StopsAt(c, d, m, error)
  }

  ghost predicate OutgoingEnds(c: Client, d: Client, error: Option<Error>) {
    exists n: nat :: TakesUntil(c, d, n, error)
  }

  lemma PayloadStops(w: World, c: Client, m: OutgoingMessage)
    requires c.parked == None && c.fatal == None
    ensures var r := HandleClientPayload(w, c, m);
            && |c.h.offers| <= |r.c.h.offers| && r.c.fatal == None
            && (r.error.Some? || r.c.parked.Some? ==> StopsAt(c, r.c, m, r.error))
  {
    hide MethodText, NoteText;
    if m.SendResponse? {
      ResponseTextIs(m.response);
    }
  }

  lemma TakesOne(sel: Sel<OutgoingMessage>, n: nat)
    ensures sel.Answers(n + 1) == [sel.Ev()] + sel.Step().Answers(n)
    ensures sel.Run(n + 1) == sel.Step().Run(n)
    ensures Items(sel.Answers(n + 1)) == (if sel.Ev().Item? then [sel.Ev().item] else []) + Items(sel.Step().Answers(n))
  {
    assert ([sel.Ev()] + sel.Step().Answers(n))[1..] == sel.Step().Answers(n);
  }

  lemma StopsStill(c: Client, e: Client, d: Client, m: OutgoingMessage, error: Option<Error>)
    requires StopsAt(e, d, m, error) && |c.h.offers| <= |e.h.offers|
    ensures StopsAt(c, d, m, error)
  {
  }

  lemma TakesMore(c: Client, e: Client, d: Client, n: nat, error: Option<Error>)
    requires c.sel.Ev().Item? && c.parked == None && e.sel == c.sel.Step()
    requires e.h.dequeued == c.h.dequeued + [c.sel.Ev().item] && |c.h.offers| <= |e.h.offers|
    requires TakesUntil(e, d, n, error) && (n == 0 ==> StopsAt(c, d, c.sel.Ev().item, error))
    ensures TakesUntil(c, d, n + 1, error)
  {
    hide StopsAt, Items, ItemsFirst;
    TakesOne(c.sel, n);
    var answers, rest := c.sel.Answers(n + 1), e.sel.Answers(n);
    ItemsFirstMore(c.sel.Ev(), rest);
    assert n > 0 ==> answers[n] == rest[n - 1];
    assert c.h.dequeued + ([c.sel.Ev().item] + Items(rest)) == e.h.dequeued + Items(rest);
    if n > 0 && rest[n - 1].Item? {
      StopsStill(c, e, d, rest[n - 1].item, error);
    }
  }

  lemma TakesNone(c: Client, d: Client, error: Option<Error>)
    requires c.parked.Some? && d == c && error == None
    ensures TakesUntil(c, d, 0, error)
  {
    assert c.h.dequeued + [] == c.h.dequeued;
  }

  lemma TakesLast(c: Client, d: Client, error: Option<Error>)
    requires c.parked == None && d.sel == c.sel.Step()
    requires d.h.dequeued == c.h.dequeued + (if c.sel.Ev().Item? then [c.sel.Ev().item] else [])
    requires match c.sel.Ev()
             case Pending => error == None
             case End => error == Some(Shutdown)
             case Fail(_) => error == Some(Unreachable)
             case Item(m) => StopsAt(c, d, m, error)
    ensures TakesUntil(c, d, 1, error)
  {
    hide StopsAt;
    TakesOne(c.sel, 0);
    assert c.sel.Step().Answers(0) == [] && c.sel.Step().Run(0) == c.sel.Step();
    assert Items<OutgoingMessage>([]) == [];
  }

  lemma {:induction false} OutgoingCauseAt(w: World, c: Client) returns (n: nat)
    requires c.fatal == None
    ensures TakesUntil(c, PollOutgoing(w, c).c, n, PollOutgoing(w, c).error)
    decreases c.sel.Budget()
  {
    hide HandleClientPayload, TakesUntil, StopsAt;
    var u := PollOutgoing(w, c);
    if c.parked.Some? {
      n := 0;
      TakesNone(c, u.c, u.error);
    } else if !c.sel.Ev().Item? {
      n := 1;
      assert c.h.dequeued + [] == c.h.dequeued;
      TakesLast(c, u.c, u.error);
    } else {
      var m := c.sel.Ev().item;
      var r := HandleClientPayload(w, Dequeue(c), m);
      ItemCosts(c.sel);
      PayloadStops(w, Dequeue(c), m);
      PayloadFrame(w, Dequeue(c), m);
      if r.error.Some? {
        n := 1;
        SameOffers(c, r.c, m, r.error);
        TakesLast(c, u.c, u.error);
      } else {
        var k := OutgoingCauseAt(w, r.c);
        n := k + 1;
        if r.c.parked.Some? {
          SameOffers(c, r.c, m, r.error);
        } else {
          NotNone(r.c, u.c, k, u.error);
        }
        TakesMore(c, r.c, u.c, k, u.error);
      }
    }
  }

  lemma NotNone(c: Client, d: Client, n: nat, error: Option<Error>)
    requires TakesUntil(c, d, n, error)
    ensures n == 0 <==> c.parked.Some?
  {
  }

  lemma SameOffers(c: Client, d: Client, m: OutgoingMessage, error: Option<Error>)
    requires c.sel.Ev().Item? && StopsAt(Dequeue(c), d, m, error)
    ensures StopsAt(c, d, m, error)
  {
  }

  /** How taking the outgoing messages ends is decided by what the selector answers, by the messages,
      and by what the sink answers. */
  lemma OutgoingCause(w: World, c: Client)
    requires c.fatal == None
    ensures OutgoingEnds(c, PollOutgoing(w, c).c, PollOutgoing(w, c).error)
  {
    var n := OutgoingCauseAt(w, c);
  }

  lemma {:induction false} RunFlips(sel: Sel<OutgoingMessage>, n: nat)
    ensures sel.Run(n).useStrong == if n % 2 == 0 then sel.useStrong else !sel.useStrong
    decreases n
  {
    if n > 0 {
      RunFlips(sel.Step(), n - 1);
    }
  }

  lemma {:induction false} CountItems<T>(answers: Script<T>)
    requires answers != [] && ItemsFirst(answers)
    ensures |Items(answers)| == if answers[|answers| - 1].Item? then |answers| else |answers| - 1
  {
    if |answers| > 1 {
      CountItems(answers[1..]);
    }
  }

  lemma TakesSame(c: Client, d: Client, n: nat, m: nat, a: Option<Error>, b: Option<Error>)
    requires TakesUntil(c, d, n, a) && TakesUntil(c, d, m, b) && n <= m
    ensures a == b
  {
    hide Items;
    if 0 < n < m {
      CountItems(c.sel.Answers(n));
      CountItems(c.sel.Answers(m));
      RunFlips(c.sel, n);
      RunFlips(c.sel, m);
      assert false;
    }
  }

  lemma OutgoingEndsOnce(c: Client, d: Client, a: Option<Error>, b: Option<Error>)
    requires OutgoingEnds(c, d, a) && OutgoingEnds(c, d, b)
    ensures a == b
  {
    hide TakesUntil;
    var n: nat :| TakesUntil(c, d, n, a);
    var m: nat :| TakesUntil(c, d, m, b);
    if n <= m {
      TakesSame(c, d, n, m, a, b);
    } else {
      TakesSame(c, d, m, n, b, a);
    }
  }

  /** What handling one message offers to the sink: its text, if it has one. */
  lemma PayloadOffered(w: World, c: Client, m: OutgoingMessage)
    requires c.fatal == None
    ensures var text := PayloadOf(m, c.nextId);
            var more := if text.Ok? then [Offer(text.value, NextSend(c.net))] else [];
            HandleClientPayload(w, c, m).c.h.offers == c.h.offers + more
  {
    hide MethodText, NoteText, ResponseToText, PayloadOf;
    assert c.h.offers + [] == c.h.offers;
    match m
    case RpcCall(_, _, _) => CallMessageIs(w, c, m);
    case SendNotification(_, _, _) => NoteMessageIs(w, c, m);
    case SendResponse(response) => ResponseTextIs(response); ResponsePayload(m, c.nextId);
  }

  lemma ResponsePayload(m: OutgoingMessage, id: nat)
    requires m.SendResponse?
    ensures PayloadOf(m, id) == if CleanResponse(m.response) then Ok(ResponseText(m.response)) else Err(SerializeError)
  {
  }

  // ----- one poll -----

  ghost predicate ServerFails(es: seq<Entry>, e: Error) {
    exists k :: FailsFirst(es, 0, k, e)
  }

  lemma ServerCause(c: Client)
    requires !c.shuttingDown
    ensures match DriveServer(c).error
            case None => forall e :: !ServerFails(c.server.pending, e)
            case Some(e) => ServerFails(c.server.pending, e)
  {
    hide DrainHandlerChan, PollFrom, Died;
    DrainFrame(c.server);
    RoundError(DrainHandlerChan(c.server), 0, [], []);
  }

  lemma ServerFailsOnce(es: seq<Entry>, a: Error, b: Error)
    requires ServerFails(es, a) && ServerFails(es, b)
    ensures a == b
  {
    var k :| FailsFirst(es, 0, k, a);
    var j :| FailsFirst(es, 0, j, b);
    assert k == j;
  }

  /** The client when `handle_messages` comes to its outgoing messages. */
  ghost function BeforeOutgoing(w: World, c: Client): Client {
    PollTransportRx(w, DriveServer(RetryParked(c).c).c).c
  }

  /** The first thing that goes wrong decides how `handle_messages` ends: the retry of the parked
      payload, a future of the server, the transport stream, the outgoing messages, the flush. */
  ghost predicate MessagesEnd(w: World, c: Client, error: Option<Error>) {
    if c.parked.Some? && NextSend(c.net).SendFail? then
      error == Some(TransportError(NextSend(c.net).code))
    else if exists e :: ServerFails(c.server.pending, e) then
      error.Some? && ServerFails(c.server.pending, error.value)
    else if !RxEnds(c.net.rx, None) then
      RxEnds(c.net.rx, error)
    else
      var b, d := BeforeOutgoing(w, c), HandleMessages(w, c).c;
      if !OutgoingEnds(b, d, None) then
        OutgoingEnds(b, d, error)
      else
        match NextSink(c.net.flushes)
        case SinkFail(code) => error == Some(TransportError(code))
        case _ => error == None
  }

  lemma MessagesEndOnce(w: World, c: Client, a: Option<Error>, b: Option<Error>)
    requires MessagesEnd(w, c, a) && MessagesEnd(w, c, b)
    ensures a == b
  {
    hide ServerFails, RxEnds, OutgoingEnds, HandleMessages, BeforeOutgoing;
    if a.Some? && b.Some? && ServerFails(c.server.pending, a.value) && ServerFails(c.server.pending, b.value) {
      ServerFailsOnce(c.server.pending, a.value, b.value);
    } else if RxEnds(c.net.rx, a) && RxEnds(c.net.rx, b) {
      RxEndsOnce(c.net.rx, a, b);
    } else if OutgoingEnds(BeforeOutgoing(w, c), HandleMessages(w, c).c, a)
              && OutgoingEnds(BeforeOutgoing(w, c), HandleMessages(w, c).c, b) {
      OutgoingEndsOnce(BeforeOutgoing(w, c), HandleMessages(w, c).c, a, b);
    }
  }

  lemma FlushCause(c: Client)
    requires c.fatal == None
    ensures PollTransportTx(c).error
         == match NextSink(c.net.flushes) case SinkFail(code) => Some(TransportError(code)) case _ => None
    ensures var d := PollTransportTx(c).c;
            d.sel == c.sel && d.h == c.h && d.parked == c.parked
  {
  }

  lemma SameEnd(c: Client, d: Client, e: Client, error: Option<Error>)
    requires OutgoingEnds(c, d, error) && e.sel == d.sel && e.h == d.h
    ensures OutgoingEnds(c, e, error)
  {
    var n: nat :| TakesUntil(c, d, n, error);
    assert TakesUntil(c, e, n, error);
  }

  lemma LateStages(w: World, c: Client)
    requires c.fatal == None
    ensures var r := PollOutgoing(w, c);
            && OutgoingEnds(c, r.c, r.error)
            && (r.error.None? ==>
                  && OutgoingEnds(c, PollTransportTx(r.c).c, None)
                  && PollTransportTx(r.c).error
                     == match NextSink(c.net.flushes) case SinkFail(code) => Some(TransportError(code)) case _ => None)
  {
    hide OutgoingEnds, PollOutgoing, PollTransportTx;
    OutgoingCause(w, c);
    OutgoingTransport(w, c);
    var r := PollOutgoing(w, c);
    FlushCause(r.c);
    SameEnd(c, r.c, PollTransportTx(r.c).c, r.error);
  }

  /** `handle_messages` ends with the error the first event that goes wrong stands for. */
  lemma MessagesCause(w: World, c: Client)
    requires !ShouldShutDown(c)
    ensures MessagesEnd(w, c, HandleMessages(w, c).error)
    ensures BeforeOutgoing(w, c).sel.strong == c.sel.strong
  {
    hide PollServer, PollTransportRx, PollOutgoing, PollTransportTx, ServerFails, RxEnds, OutgoingEnds;
    var r1 := RetryParked(c);
    ServerCause(r1.c);
    var r2 := DriveServer(r1.c);
    RxCause(w, r2.c);
    RxLeavesOut(w, r2.c);
    var r3 := PollTransportRx(w, r2.c);
    LateStages(w, r3.c);
    if r1.error.None? && r2.error.None? && r3.error.Some? && RxEnds(c.net.rx, None) {
      RxEndsOnce(c.net.rx, None, r3.error);
    }
    if r1.error.None? && r2.error.None? && r3.error.None? {
      OutgoingDecides(w, r3.c, HandleMessages(w, c));
    }
  }

  lemma OutgoingDecides(w: World, c: Client, r: Res)
    requires r == if PollOutgoing(w, c).error.Some? then PollOutgoing(w, c) else PollTransportTx(PollOutgoing(w, c).c)
    requires c.fatal == None
    ensures if !OutgoingEnds(c, r.c, None) then OutgoingEnds(c, r.c, r.error)
            else r.error == match NextSink(c.net.flushes)
                            case SinkFail(code) => Some(TransportError(code)) case _ => None
  {
    hide OutgoingEnds, PollOutgoing, PollTransportTx;
    LateStages(w, c);
    if PollOutgoing(w, c).error.Some? && OutgoingEnds(c, r.c, None) {
      OutgoingEndsOnce(c, r.c, None, r.error);
    }
  }

  // ----- runs -----

  /** The error that starts the shutdown of a client, if any, is the one its poll's first bad event
      stands for. */
  lemma PollCause(w: World, c: Client)
    requires Reached(w, c) && c.h.entered == None
    ensures MessagesEnd(w, c, Poll(w, c).h.entered)
  {
    hide Reached, MessagesEnd;
    ReachedOk(w, c);
    RecordsError(w, c);
    hide Inv, Poll, HandleMessages;
    MessagesCause(w, c);
  }

  /** Poll number `n` of the moves is the first in which something goes wrong, and that stands for `e`. */
  ghost predicate FirstBad(w: World, start: Client, moves: seq<Move>, n: nat, e: Error)
    requires n < |moves|
  {
    && moves[n].DoPoll? && Run(w, start, moves[..n]).h.entered == None
    && MessagesEnd(w, Run(w, start, moves[..n]), Some(e))
  }

  lemma {:induction false} FindBad(w: World, start: Client, moves: seq<Move>, e: Error) returns (n: nat)
    requires Inv(w, start) && Latch(start) && start.h.entered == None
    requires Run(w, start, moves).h.entered == Some(e)
    ensures n < |moves| && FirstBad(w, start, moves, n, e)
  {
    hide MessagesEnd, Inv, Latch, Poll, HandleMessages;
    n := |moves| - 1;
    var c := Run(w, start, moves[..n]);
    RunOk(w, start, moves[..n]);
    if c.h.entered.Some? {
      StaysEntered(w, c, moves[n]);
      var k := n;
      n := FindBad(w, start, moves[..k], e);
      assert moves[..k][..n] == moves[..n];
    } else {
      CauseOfStep(w, c);
    }
  }

  lemma CauseOfStep(w: World, c: Client)
    requires Inv(w, c) && Latch(c) && c.h.entered == None
    ensures c.h.progress == Running && MessagesEnd(w, c, Poll(w, c).h.entered)
  {
    hide MessagesEnd;
    RecordsError(w, c);
    hide Inv, Poll, HandleMessages;
    MessagesCause(w, c);
  }

  lemma StaysEntered(w: World, c: Client, m: Move)
    requires Inv(w, c) && Latch(c) && c.h.entered.Some?
    ensures Step(w, c, m).h.entered == c.h.entered
  {
    hide Inv, Poll;
    if m.DoPoll? && c.h.progress.Running? {
      FrozenPoll(w, c);
    }
  }

  lemma {:induction false} BadDecides(w: World, start: Client, moves: seq<Move>, n: nat, e: Error)
    requires Inv(w, start) && Latch(start) && n < |moves| && FirstBad(w, start, moves, n, e)
    ensures Run(w, start, moves).h.entered == Some(e)
  {
    hide MessagesEnd, Inv, Latch, Poll, HandleMessages;
    var k := |moves| - 1;
    var c := Run(w, start, moves[..k]);
    RunOk(w, start, moves[..k]);
    if n == k {
      CauseOfStep(w, c);
      MessagesEndOnce(w, c, Some(e), Poll(w, c).h.entered);
    } else {
      assert moves[..k][..n] == moves[..n];
      BadDecides(w, start, moves[..k], n, e);
      StaysEntered(w, c, moves[k]);
    }
  }

  lemma StartsBlank(net: Net, strong: Script<OutgoingMessage>, chan: Chan<HandlerMsg>)
    ensures InitClient(net, strong, chan).h.entered == None
  {
  }

  lemma LatchSays(c: Client)
    requires Latch(c)
    ensures c.h.progress == Resolved ==> c.h.entered == Some(Shutdown)
    ensures forall e :: c.h.progress == Crashed(e) ==> c.h.entered == Some(e) && e != Shutdown
  {
    hide Healthy;
  }

  /** Why a client ends. It fails with `e` only if `e` is no shutdown, and resolves only for a shutdown,
      that the first bad event of its run stands for; and such an event always decides. */
  lemma EndHasCause(w: World, net: Net, strong: Script<OutgoingMessage>, chan: Chan<HandlerMsg>, moves: seq<Move>)
    ensures var start := InitClient(net, strong, chan);
            var d := Run(w, start, moves);
            && (forall e :: d.h.entered == Some(e) <==> exists n :: 0 <= n < |moves| && FirstBad(w, start, moves, n, e))
            && (d.h.progress == Resolved ==> d.h.entered == Some(Shutdown))
            && (forall e :: d.h.progress == Crashed(e) ==> d.h.entered == Some(e) && e != Shutdown)
  {
    hide Inv, Latch, FirstBad, Run, InitClient;
    var start := InitClient(net, strong, chan);
    var d := Run(w, start, moves);
    InitOk(w, net, strong, chan);
    RunOk(w, start, moves);
    StartsBlank(net, strong, chan);
    LatchSays(d);
    forall e | d.h.entered == Some(e)
      ensures exists n :: 0 <= n < |moves| && FirstBad(w, start, moves, n, e)
    {
      var n := FindBad(w, start, moves, e);
    }
    forall n, e | 0 <= n < |moves| && FirstBad(w, start, moves, n, e)
      ensures d.h.entered == Some(e)
    {
      BadDecides(w, start, moves, n, e);
    }
  }
}
