/** A client that goes on answers every request its peer sends, within as many polls as the handlers
    and the channel ask for. */
module ClientProgress {
  import opened Futures
  import opened JsonRpc
  import opened Ids
  import opened SelectWeak
  import opened ServerModel
  import opened DriverProofs
  import opened ServerProofs
  import opened ServerProgress
  import opened ClientModel
  import opened ClientProofs
  import opened ClientTheorems

  // ----- what goes on between the polls of the server -----

  /** Requests and futures only come in. */
  ghost predicate Grown(s: Server, t: Server) {
    s.log.pushes <= t.log.pushes && s.log.dispatched <= t.log.dispatched
  }

  lemma {:induction false} RxGrows(w: World, c: Client)
    ensures Grown(c.server, PollTransportRx(w, c).c.server)
    decreases |c.net.rx|
  {
    hide PollTransportRx, HandleRxPayload;
    RxStep(w, c);
    if Next(c.net.rx).Item? {
      var r := HandleRxPayload(w, Receive(c), c.net.rx[0].item);
      PayloadGrows(w, Receive(c), c.net.rx[0].item);
      if r.error.None? {
        RxGrows(w, r.c);
      }
    }
  }

  lemma PayloadGrows(w: World, c: Client, text: Text)
    ensures Grown(c.server, HandleRxPayload(w, c, text).c.server)
  {
    hide ProcessRequest;
    if Decode(text).InRequest? {
      ProcessRequestFrame(w, c.server, Decode(text).request);
    }
  }

  lemma PollGrows(w: World, c: Client)
    ensures Grown(c.server, Poll(w, c).server)
  {
    hide PollTransportRx, HandleMessages;
    if ShouldShutDown(c) {
      RxGrows(w, c);
    } else {
      MessagesGrows(w, c);
      var r := HandleMessages(w, c);
      if r.error.Some? {
        RxGrows(w, Enter(r.c, r.error.value));
      }
    }
  }

  lemma MessagesGrows(w: World, c: Client)
    ensures Grown(c.server, HandleMessages(w, c).c.server)
  {
    hide PollTransportRx, PollOutgoing, PollServer;
    var r1 := RetryParked(c);
    if r1.error.None? {
      PollServerFrame(r1.c.server);
      var r2 := DriveServer(r1.c);
      if r2.error.None? {
        RxGrows(w, r2.c);
        OutgoingKeepsServer(w, PollTransportRx(w, r2.c).c);
      }
    }
  }

  /** What a server may do to the requests it has when others come in. */
  ghost predicate Further(s: Server, t: Server) {
    && s.log.pushes <= t.log.pushes
    && (t.log.pushes < U64 - 1 ==>
          && s.pending <= t.pending && s.log.fates <= t.log.fates
          && forall q :: |s.log.fates| <= q < |t.log.fates| ==> !t.log.fates[q].Dead?)
  }

  lemma FurtherTwice(s: Server, t: Server, u: Server)
    requires Further(s, t) && Further(t, u)
    ensures Further(s, u)
  {
  }

  lemma PayloadFurther(w: World, c: Client, text: Text)
    requires CoreInv(w, c)
    ensures Further(c.server, HandleRxPayload(w, c, text).c.server)
  {
    hide ProcessRequest, CoreInv, ServerOk;
    assert ServerOk(w, c.server) by {
      CoreServer(w, c);
    }
    if Decode(text).InRequest? {
      var req := Decode(text).request;
      ProcessRequestFrame(w, c.server, req);
      if ProcessRequest(w, c.server, req).server.log.pushes < U64 - 1 {
        TakenAppends(w, c.server, req);
      }
    }
  }

  lemma CoreServer(w: World, c: Client)
    requires CoreInv(w, c)
    ensures ServerOk(w, c.server)
  {
  }

  lemma {:induction false} RxFurther(w: World, c: Client)
    requires Inv(w, c)
    ensures Further(c.server, PollTransportRx(w, c).c.server)
    decreases |c.net.rx|
  {
    hide PollTransportRx, HandleRxPayload, Further, CoreInv;
    RxStep(w, c);
    if Next(c.net.rx).Item? {
      var r := HandleRxPayload(w, Receive(c), c.net.rx[0].item);
      ReceiveOk(w, c);
      PayloadFurther(w, Receive(c), c.net.rx[0].item);
      RxOne(w, c);
      if r.error.None? {
        RxFurther(w, r.c);
        FurtherTwice(c.server, r.c.server, PollTransportRx(w, r.c).c.server);
      }
    } else {
      Unmoved(c.server);
    }
  }

  lemma Unmoved(s: Server)
    ensures Further(s, s)
  {
  }

  lemma FurtherWay(s: Server, t: Server, r: nat, k: int)
    requires Further(s, t) && t.log.pushes < U64 - 1 && OnTheWay(s, r, k)
    ensures OnTheWay(t, r, k)
  {
    hide DoneWithin;
    if !s.log.fates[r].Answered? {
      var e :| e in s.pending && DoneWithin(e, r, k);
      assert e in t.pending;
    }
  }

  ghost predicate NobodyDead(s: Server) {
    forall q :: 0 <= q < |s.log.fates| ==> !s.log.fates[q].Dead?
  }

  // ----- one poll of the client -----

  lemma MessagesDrive(w: World, c: Client)
    requires Busy(w, c, c) && HandleMessages(w, c).error == None
    ensures !c.shuttingDown && PollServer(c.server).error.None?
    ensures Further(PollServer(c.server).server, HandleMessages(w, c).c.server)
  {
    hide Inv, PollTransportRx, PollOutgoing, PollServer, Further;
    var r1 := RetryParked(c);
    Stage1(w, c);
    var r2 := DriveServer(r1.c);
    Stage2(w, c, r1.c);
    RxFurther(w, r2.c);
    OutgoingKeepsServer(w, PollTransportRx(w, r2.c).c);
  }

  /** A poll in which `handle_messages` fails nowhere polls the server once, and then only takes more
      requests. */
  lemma PollDrives(w: World, c: Client)
    requires Inv(w, c) && Latch(c) && c.h.entered == None && Poll(w, c).h.entered == None
    ensures !c.shuttingDown && PollServer(c.server).error.None?
    ensures Further(PollServer(c.server).server, Poll(w, c).server)
  {
    RecordsError(w, c);
    EnteringOk(w, c);
    hide Poll, HandleMessages, Inv, Latch, PollServer, Further;
    MessagesDrive(w, c);
  }

  lemma PollWay(w: World, c: Client, r: nat, k: int)
    requires Inv(w, c) && Latch(c) && c.h.entered == None && Poll(w, c).h.entered == None
    requires Poll(w, c).server.log.pushes < U64 - 1 && OnTheWay(c.server, r, k)
    ensures OnTheWay(Poll(w, c).server, r, k - 1)
  {
    PollGrows(w, c);
    PollDrives(w, c);
    assert ServerOk(w, c.server) && Healthy(c.server.pending);
    hide Poll, PollServer, Inv, Latch, ServerOk, Healthy, OnTheWay, Further;
    PollAdvances(w, c.server, r, k);
    FurtherWay(PollServer(c.server).server, Poll(w, c).server, r, k - 1);
  }

  lemma PollKillsNobody(w: World, c: Client)
    requires Inv(w, c) && Latch(c) && c.h.entered == None && Poll(w, c).h.entered == None
    requires Poll(w, c).server.log.pushes < U64 - 1 && NobodyDead(c.server)
    ensures NobodyDead(Poll(w, c).server)
  {
    PollDrives(w, c);
    hide Poll, Inv, Latch, PollFrom, DrainHandlerChan;
    DrainFrame(c.server);
    NobodyDies(DrainHandlerChan(c.server), 0, [], []);
  }

  lemma NotBack(w: World, c: Client, m: Move)
    requires Inv(w, c) && Latch(c)
    ensures Step(w, c, m).h.entered == None ==> c.h.entered == None
    ensures Grown(c.server, Step(w, c, m).server)
  {
    hide Poll, Inv;
    if m.DoPoll? && c.h.progress.Running? {
      PollGrows(w, c);
      if c.h.entered.Some? {
        FrozenPoll(w, c);
      }
    }
  }

  // ----- runs -----

  function Polls(moves: seq<Move>): nat {
    if moves == [] then 0 else
      Polls(moves[..|moves| - 1]) + (if moves[|moves| - 1].DoPoll? then 1 else 0)
  }

  /** While nothing has failed, no request is dead. */
  ghost predicate Alive(c: Client) {
    c.h.entered == None && c.server.log.pushes < U64 - 1 ==> NobodyDead(c.server)
  }

  lemma StepAlive(w: World, c: Client, m: Move)
    requires Inv(w, c) && Latch(c) && Alive(c)
    ensures Alive(Step(w, c, m))
  {
    hide Inv, Poll, NobodyDead, Latch;
    NotBack(w, c, m);
    var d := Step(w, c, m);
    if d.h.entered == None && d.server.log.pushes < U64 - 1 {
      if m.DoPoll? {
        if c.h.progress.Running? {
          PollKillsNobody(w, c);
        }
      } else {
        SameFates(c.server, d.server);
      }
    }
  }

  lemma SameFates(s: Server, t: Server)
    requires t.log == s.log && t.pending == s.pending
    ensures NobodyDead(s) ==> NobodyDead(t)
    ensures forall r, k :: OnTheWay(s, r, k) ==> OnTheWay(t, r, k)
  {
  }

  lemma {:induction false} RunAlive(w: World, c: Client, moves: seq<Move>)
    requires Inv(w, c) && Latch(c) && Alive(c)
    ensures Alive(Run(w, c, moves))
  {
    hide Inv, Latch, Alive, Step;
    if moves != [] {
      var n := |moves| - 1;
      RunAlive(w, c, moves[..n]);
      RunOk(w, c, moves[..n]);
      StepAlive(w, Run(w, c, moves[..n]), moves[n]);
    }
  }

  lemma StepWay(w: World, c: Client, m: Move, r: nat, k: int)
    requires Inv(w, c) && Latch(c)
    requires Step(w, c, m).h.entered == None && Step(w, c, m).server.log.pushes < U64 - 1 && OnTheWay(c.server, r, k)
    ensures OnTheWay(Step(w, c, m).server, r, if m.DoPoll? then k - 1 else k)
  {
    NotBack(w, c, m);
    assert c.h.entered == None ==> c.h.progress == Running;
    hide Inv, Poll, OnTheWay, Latch;
    match m
    case DoPoll => PollWay(w, c, r, k);
    case DoFeed(f) => SameFates(c.server, Feed(c, f).server);
  }

  lemma {:induction false} RunWay(w: World, c: Client, moves: seq<Move>, r: nat, k: int)
    requires Inv(w, c) && Latch(c) && OnTheWay(c.server, r, k)
    requires Run(w, c, moves).h.entered == None && Run(w, c, moves).server.log.pushes < U64 - 1
    ensures OnTheWay(Run(w, c, moves).server, r, k - Polls(moves))
  {
    hide Inv, Latch, OnTheWay, Step;
    if moves != [] {
      var n := |moves| - 1;
      RunOk(w, c, moves[..n]);
      var d := Run(w, c, moves[..n]);
      NotBack(w, d, moves[n]);
      RunWay(w, c, moves[..n], r, k);
      StepWay(w, d, moves[n], r, k - Polls(moves[..n]));
    }
  }

  lemma {:induction false} RunGrows(w: World, c: Client, moves: seq<Move>)
    requires Inv(w, c) && Latch(c)
    ensures Grown(c.server, Run(w, c, moves).server)
  {
    hide Inv, Latch, Step;
    if moves != [] {
      var n := |moves| - 1;
      RunGrows(w, c, moves[..n]);
      RunOk(w, c, moves[..n]);
      NotBack(w, Run(w, c, moves[..n]), moves[n]);
    }
  }

  lemma InitAlive(net: Net, strong: Script<OutgoingMessage>, handlerChan: Chan<HandlerMsg>)
    ensures Alive(InitClient(net, strong, handlerChan))
  {
  }

  lemma ReachedAlive(w: World, c: Client)
    requires Reached(w, c)
    ensures Alive(c)
  {
    var net, strong, handlerChan, moves :| c == Run(w, InitClient(net, strong, handlerChan), moves);
    hide Inv, Latch, Alive, Run, InitClient;
    InitOk(w, net, strong, handlerChan);
    InitAlive(net, strong, handlerChan);
    RunAlive(w, InitClient(net, strong, handlerChan), moves);
  }

  lemma {:induction false} SingleFair(v: Driver, n: nat)
    requires !v.phase.AwaitAll?
    ensures Fair(v, n)
    decreases n
  {
    if n > 0 {
      SingleFair(PollDriver(v).driver, n - 1);
    }
  }

  /** No handler of the request answers that it is not ready more than `k` times. */
  ghost predicate DelaysAtMost(w: World, d: Dispatch, r: nat, k: nat) {
    var calls := CallsOf(d.request);
    forall i :: 0 <= i < |calls| ==> DelayOf(w, d.handlers, calls[i], r, i) <= k
  }

  /** The next `n` rounds of a batch in the table reach its live members. */
  ghost predicate FairlyPolled(s: Server, r: nat, n: nat) {
    forall e :: e in s.pending && e.driver.request == r ==> Fair(e.driver, n)
  }

  lemma StartsOnTheWay(w: World, s: Server, r: nat, k: nat)
    requires Ledger(w, s) && r < |s.log.dispatched| && !s.log.fates[r].Dead?
    requires DelaysAtMost(w, s.log.dispatched[r], r, k)
    requires s.log.dispatched[r].request.Batch? ==> FairlyPolled(s, r, k + w.send(r).delay + 1)
    ensures OnTheWay(s, r, k + w.send(r).delay)
  {
    hide RightAnswer, Blame, FutsOf;
    if s.log.fates[r].Unsettled? {
      var e :| e in s.pending && e.driver.request == r;
      assert EntryOk(w, e, s.log);
      WaitBound(w, s.log.dispatched[r], e.driver, k);
      if s.log.dispatched[r].request.Single? {
        SingleFair(e.driver, k + w.send(r).delay + 1);
      }
      assert DoneWithin(e, r, k + w.send(r).delay);
    }
  }

  lemma OnTheWayFrom(w: World, c: Client, r: nat, k: nat)
    requires Inv(w, c) && Alive(c) && c.h.entered == None && c.server.log.pushes < U64 - 1
    requires r < |c.server.log.dispatched| && DelaysAtMost(w, c.server.log.dispatched[r], r, k)
    requires c.server.log.dispatched[r].request.Batch? ==> FairlyPolled(c.server, r, k + w.send(r).delay + 1)
    ensures OnTheWay(c.server, r, k + w.send(r).delay)
  {
    assert Ledger(w, c.server);
    hide Inv, DelaysAtMost, FairlyPolled, OnTheWay;
    StartsOnTheWay(w, c.server, r, k);
  }

  lemma AnswerStands(w: World, c: Client, r: nat, j: int)
    requires Inv(w, c) && c.server.log.pushes < U64 - 1 && r < |c.server.log.dispatched|
    requires OnTheWay(c.server, r, j) && j < 0
    ensures var log := c.server.log;
            && r < |log.fates| && log.fates[r].Answered?
            && AnswerIs(w, log.dispatched[r], r, log.fates[r].sent)
            && (log.fates[r].sent.Some? ==> Enqueued(r, log.fates[r].sent.value) in log.enqueued)
  {
    assert Ledger(w, c.server);
    hide Inv, RightAnswer, AnswerIs;
    RightAnswerIs(w, c.server.log.dispatched[r], r, c.server.log.fates[r].sent);
  }

  /** Every request is answered. As long as the client runs into no error, a request it has taken is
      answered after at most as many polls as the slowest of its handlers and the response channel
      make it wait, and one more, provided the rounds of a batch reach its live members; the answer is
      what its calls give, and is enqueued. */
  lemma EveryRequestIsAnswered(w: World, c: Client, moves: seq<Move>, r: nat, k: nat)
    requires Reached(w, c) && r < |c.server.log.dispatched|
    requires var d := Run(w, c, moves); d.h.entered == None && d.server.log.pushes < U64 - 1
    requires DelaysAtMost(w, c.server.log.dispatched[r], r, k)
    requires c.server.log.dispatched[r].request.Batch? ==> FairlyPolled(c.server, r, k + w.send(r).delay + 1)
    requires Polls(moves) > k + w.send(r).delay
    ensures var log := Run(w, c, moves).server.log;
            && r < |log.fates| && log.fates[r].Answered?
            && AnswerIs(w, c.server.log.dispatched[r], r, log.fates[r].sent)
            && (log.fates[r].sent.Some? ==> Enqueued(r, log.fates[r].sent.value) in log.enqueued)
  {
    hide Inv, Latch, Alive, Reached, Run, OnTheWay, DelaysAtMost, FairlyPolled, AnswerIs;
    ReachedOk(w, c);
    ReachedAlive(w, c);
    RunBack(w, c, moves);
    RunOk(w, c, moves);
    RunGrows(w, c, moves);
    OnTheWayFrom(w, c, r, k);
    RunWay(w, c, moves, r, k + w.send(r).delay);
    AnswerStands(w, Run(w, c, moves), r, k + w.send(r).delay - Polls(moves));
  }

  lemma {:induction false} RunBack(w: World, c: Client, moves: seq<Move>)
    requires Inv(w, c) && Latch(c)
    ensures Run(w, c, moves).h.entered == None ==> c.h.entered == None
  {
    hide Inv, Latch, Step;
    if moves != [] {
      var n := |moves| - 1;
      RunBack(w, c, moves[..n]);
      RunOk(w, c, moves[..n]);
      NotBack(w, Run(w, c, moves[..n]), moves[n]);
    }
  }
}
