/** The promises of the client, over all its runs. */
module ClientTheorems {
  import opened Futures
  import opened JsonRpc
  import opened Ids
  import opened SelectWeak
  import opened ServerModel
  import opened DriverProofs
  import opened ServerProofs
  import opened ClientModel
  import opened ClientLedger
  import opened ClientProofs

  /** `c` is a client some run leads to. */
  ghost predicate Reached(w: World, c: Client) {
    exists net, strong, handlerChan, moves :: c == Run(w, InitClient(net, strong, handlerChan), moves)
  }

  lemma ReachedOk(w: World, c: Client)
    requires Reached(w, c)
    ensures Inv(w, c) && Latch(c)
  {
    var net, strong, handlerChan, moves :| c == Run(w, InitClient(net, strong, handlerChan), moves);
    InitOk(w, net, strong, handlerChan);
    RunOk(w, InitClient(net, strong, handlerChan), moves);
  }

  lemma InitReached(w: World, net: Net, strong: Script<OutgoingMessage>, handlerChan: Chan<HandlerMsg>)
    ensures Reached(w, InitClient(net, strong, handlerChan))
  {
    assert Run(w, InitClient(net, strong, handlerChan), []) == InitClient(net, strong, handlerChan);
  }

  lemma StepReached(w: World, c: Client, m: Move)
    requires Reached(w, c)
    ensures Reached(w, Step(w, c, m))
  {
    hide Step;
    var net, strong, handlerChan, moves :| c == Run(w, InitClient(net, strong, handlerChan), moves);
    assert (moves + [m])[..|moves|] == moves;
    assert Step(w, c, m) == Run(w, InitClient(net, strong, handlerChan), moves + [m]);
  }

  // ----- calls and their answers -----

  lemma ReachedLedger(w: World, c: Client)
    requires Reached(w, c)
    ensures c.nextId == Nth(|c.h.calls|)
    ensures |c.h.calls| < U64 - 1 ==> CallsOk(c.h.calls, c.h.heard, c.pending, c.h.outcomes)
  {
    ReachedOk(w, c);
  }

  /** Answers match calls, against any peer. A call waits in the table until a version 2.0 response
      with its id is processed, and the first one after it was registered completes it, with the value
      or the error that response carries; one whose parameters do not serialise never waits. */
  lemma AnswerMatching(w: World, c: Client, i: nat)
    requires Reached(w, c) && |c.h.calls| < U64 - 1 && i < |c.h.calls|
    ensures c.h.heard == HeardIn(c.h.received)
    ensures c.h.calls[i].call.RpcCall?
    ensures var CallRec(call, since) := c.h.calls[i];
            && (CallId(i) in c.pending <==>
                  CleanParams(call.params) && forall k :: since <= k < |c.h.heard| ==> c.h.heard[k].id != CallId(i))
            && (CallId(i) in c.pending ==> c.pending[CallId(i)] == call.completion)
            && (CallId(i) !in c.pending <==> exists o :: o in c.h.outcomes && o.id == CallId(i))
            && (forall o :: o in c.h.outcomes && o.id == CallId(i) ==>
                  && o.completion == call.completion
                  && if CleanParams(call.params) then
                       exists k: nat :: IsFirst(c.h.heard, since, CallId(i), k) && Tells(c.h.heard[k], o.result)
                     else
                       o.result == Err(SerializeError))
  {
    ReachedOk(w, c);
    DueMatching(w, c, i);
    hide Reached, Inv, Latch;
    var CallRec(call, since) := c.h.calls[i];
    FirstAnswerIs(c.h.heard, since, CallId(i));
    var due := Due(c.h.calls, c.h.heard, i);
    if due.Some? {
      assert Outcome(CallId(i), call.completion, due.value) in c.h.outcomes;
      if CleanParams(call.params) {
        var k := FirstAnswer(c.h.heard, since, CallId(i)).value;
        assert IsFirst(c.h.heard, since, CallId(i), k);
        ResultTells(c.h.heard[k], due.value);
      }
    }
  }

  /** A call is completed exactly when it is due, and with what it is due. */
  lemma DueMatching(w: World, c: Client, i: nat)
    requires Reached(w, c) && |c.h.calls| < U64 - 1 && i < |c.h.calls|
    ensures c.h.calls[i].call.RpcCall?
    ensures CallId(i) in c.pending <==> Due(c.h.calls, c.h.heard, i) == None
    ensures CallId(i) in c.pending ==> c.pending[CallId(i)] == c.h.calls[i].call.completion
    ensures forall o :: o in c.h.outcomes && o.id == CallId(i) <==>
              Due(c.h.calls, c.h.heard, i).Some?
              && o == Outcome(CallId(i), c.h.calls[i].call.completion, Due(c.h.calls, c.h.heard, i).value)
  {
    hide Reached, Due;
    ReachedLedger(w, c);
    assert CallOk(c.h.calls, c.h.heard, c.pending, c.h.outcomes, i);
    if Due(c.h.calls, c.h.heard, i).Some? {
      var due := Outcome(CallId(i), c.h.calls[i].call.completion, Due(c.h.calls, c.h.heard, i).value);
      forall o | o in c.h.outcomes && o.id == CallId(i)
        ensures o == due
      {
        var j, k :| 0 <= j < |c.h.outcomes| && c.h.outcomes[j] == o && 0 <= k < |c.h.outcomes|
            && c.h.outcomes[k] == due;
      }
    }
  }

  /** The ids handed out split into pending and completed ones, each id completed at most once, and
      the next id is in use by nobody. */
  lemma IdLedger(w: World, c: Client)
    requires Reached(w, c) && |c.h.calls| < U64 - 1
    ensures forall id :: Issued(c.h.calls, id) <==> (id in c.pending || exists o :: o in c.h.outcomes && o.id == id)
    ensures forall o :: o in c.h.outcomes ==> o.id !in c.pending
    ensures forall i, j :: 0 <= i < j < |c.h.outcomes| ==> c.h.outcomes[i].id != c.h.outcomes[j].id
    ensures c.nextId == |c.h.calls| + 1 && !Issued(c.h.calls, Num(c.nextId))
  {
    ReachedLedger(w, c);
    hide Reached, CallsOk, Issued;
    LedgerSplits(c.h.calls, c.h.heard, c.pending, c.h.outcomes);
  }

  lemma LedgerSplits(calls: seq<CallRec>, heard: seq<Output>, pending: map<Id, Token>, outcomes: seq<Outcome>)
    requires CallsOk(calls, heard, pending, outcomes) && |calls| < U64 - 1
    ensures forall id :: Issued(calls, id) <==> (id in pending || exists o :: o in outcomes && o.id == id)
    ensures forall o :: o in outcomes ==> o.id !in pending
    ensures forall i, j :: 0 <= i < j < |outcomes| ==> outcomes[i].id != outcomes[j].id
    ensures !Issued(calls, CallId(|calls|))
  {
    hide CallOk, Issued;
    forall id | Issued(calls, id)
      ensures id in pending || exists o :: o in outcomes && o.id == id
      ensures id in pending ==> forall o :: o in outcomes ==> o.id != id
    {
      IdSplit(calls, heard, pending, outcomes, id);
    }
    FreshId(calls);
  }

  lemma IdSplit(calls: seq<CallRec>, heard: seq<Output>, pending: map<Id, Token>, outcomes: seq<Outcome>, id: Id)
    requires CallsOk(calls, heard, pending, outcomes) && Issued(calls, id)
    ensures id in pending || exists o :: o in outcomes && o.id == id
    ensures id in pending ==> forall o :: o in outcomes ==> o.id != id
  {
    var i :| 0 <= i < |calls| && CallId(i) == id;
    assert CallOk(calls, heard, pending, outcomes, i);
    if Due(calls, heard, i).Some? {
      assert Outcome(id, calls[i].call.completion, Due(calls, heard, i).value).id == id;
    }
  }

  /** A completion channel is owned by one call, so no channel is completed twice. */
  lemma AtMostOnce(w: World, c: Client, i: nat, j: nat)
    requires Reached(w, c) && |c.h.calls| < U64 - 1
    requires forall a, b :: 0 <= a < b < |c.h.calls| && c.h.calls[a].call.RpcCall? && c.h.calls[b].call.RpcCall?
               ==> c.h.calls[a].call.completion != c.h.calls[b].call.completion
    requires i < j < |c.h.outcomes|
    ensures c.h.outcomes[i].completion != c.h.outcomes[j].completion
  {
    ReachedLedger(w, c);
    hide Reached;
    NoTwice(c.h.calls, c.h.heard, c.pending, c.h.outcomes, i, j);
  }

  lemma NoTwice(calls: seq<CallRec>, heard: seq<Output>, pending: map<Id, Token>, outcomes: seq<Outcome>, i: nat,
      j: nat)
    requires CallsOk(calls, heard, pending, outcomes) && i < j < |outcomes|
    requires forall a, b :: 0 <= a < b < |calls| ==> calls[a].call.completion != calls[b].call.completion
    ensures outcomes[i].completion != outcomes[j].completion
  {
    var k := OwnerOf(calls, heard, pending, outcomes, i);
    var m := OwnerOf(calls, heard, pending, outcomes, j);
    assert k != m;
  }

  /** The call an outcome belongs to. */
  lemma OwnerOf(calls: seq<CallRec>, heard: seq<Output>, pending: map<Id, Token>, outcomes: seq<Outcome>,
      i: nat) returns (k: nat)
    requires CallsOk(calls, heard, pending, outcomes) && i < |outcomes|
    ensures k < |calls| && CallId(k) == outcomes[i].id && calls[k].call.RpcCall?
    ensures calls[k].call.completion == outcomes[i].completion
  {
    var o := outcomes[i];
    assert Issued(calls, o.id);
    k :| 0 <= k < |calls| && CallId(k) == o.id;
    assert CallOk(calls, heard, pending, outcomes, k);
    var due := Outcome(CallId(k), calls[k].call.completion, Due(calls, heard, k).value);
    var j :| 0 <= j < |outcomes| && outcomes[j] == due;
    assert j == i;
  }

  /** A caller that is still there gets the outcome of its call, or of its notification. */
  lemma CallersAreTold(w: World, c: Client)
    requires Reached(w, c)
    ensures CallsTold(c.h.delivered) == CallsListening(w, c.h.outcomes)
    ensures NotesTold(c.h.delivered) == NotesListening(w, c.h.notes)
  {
    ReachedOk(w, c);
  }

  // ----- the way out -----

  /** Lossless output under back-pressure: as long as the sink has not failed, what it accepted
      followed by the parked payload is what the dequeued messages serialise to, in order. A payload
      is lost only to the failing `start_send` that ends the client. */
  lemma LosslessOutput(w: World, c: Client)
    requires Reached(w, c)
    ensures c.h.sent + c.parked.ToSeq() + c.h.lost.ToSeq() == Payloads(c.h.dequeued)
    ensures (c.h.entered.Some? && c.h.entered.value.TransportError?)
            || c.h.sent + c.parked.ToSeq() == Payloads(c.h.dequeued)
    ensures c.h.notes == NotesIn(c.h.dequeued)
  {
    ReachedOk(w, c);
  }

  /** Back-pressure: what was sent is what the sink accepted. A text it refused is parked and offered
      again before any other, and one is lost only to a failing sink, after which nothing is offered. */
  lemma BackPressure(w: World, c: Client)
    requires Reached(w, c)
    ensures c.h.sent == Accepted(c.h.offers) && Retried(c.h.offers)
    ensures forall text :: c.parked == Some(text) <==>
              c.h.offers != [] && c.h.offers[|c.h.offers| - 1] == Offer(text, Refuse)
    ensures forall text :: c.h.lost == Some(text) <==>
              c.h.offers != [] && c.h.offers[|c.h.offers| - 1].answer.SendFail?
              && c.h.offers[|c.h.offers| - 1].text == text
  {
    ReachedOk(w, c);
    assert SinkOk(c.h.sent, c.h.offers, c.parked, c.h.lost);
    hide Inv, Latch, Reached, Retried, Accepted;
  }

  // ----- shutting down -----

  /** The first error of `handle_messages` decides the result: the client fails with it, or
      resolves if it is a shutdown. */
  lemma FirstErrorWins(w: World, c: Client)
    requires Reached(w, c) && c.h.progress != Running
    ensures c.h.entered.Some?
    ensures forall e :: c.h.progress == Crashed(e) <==> c.h.entered == Some(e) && e != Shutdown
    ensures c.h.progress == Resolved <==> c.h.entered == Some(Shutdown)
  {
    ReachedOk(w, c);
  }

  /** The error that decides is the one `handle_messages` returns; a poll without one starts no
      shutdown. */
  lemma FirstErrorIsRecorded(w: World, c: Client)
    requires Reached(w, c) && c.h.entered == None
    ensures Poll(w, c).h.entered == HandleMessages(w, c).error
  {
    ReachedOk(w, c);
    RecordsError(w, c);
  }

  lemma RecordsError(w: World, c: Client)
    requires Inv(w, c) && Latch(c) && c.h.entered == None
    ensures Poll(w, c).h.entered == HandleMessages(w, c).error
    ensures Poll(w, c).h.entered == None ==> Poll(w, c).server == HandleMessages(w, c).c.server
  {
    hide Inv, HandleMessages, HandleShutdown, Healthy;
    EnteringOk(w, c);
    hide Latch;
    var r := HandleMessages(w, c);
    if r.error.Some? {
      KeepsEntered(w, Enter(r.c, r.error.value));
    }
  }

  lemma KeepsEntered(w: World, c: Client)
    requires Inv(w, c)
    ensures HandleShutdown(w, c).h.entered == c.h.entered
  {
    hide Inv, PollTransportRx;
    PollTransportRxOk(w, c);
  }

  lemma ShutdownCloses(w: World, c: Client)
    requires Inv(w, c)
    ensures HandleShutdown(w, c).h.progress == Running <==> NextSink(c.net.closes).NotYetDone?
    ensures HandleShutdown(w, c).net.closes == Tail(c.net.closes)
  {
    hide Inv, PollTransportRx;
    PollTransportRxOk(w, c);
  }

  lemma HandleMessagesCloses(w: World, c: Client)
    requires Busy(w, c, c)
    ensures HandleMessages(w, c).c.net.closes == c.net.closes
  {
    hide Inv, RetryParked, DriveServer, PollTransportRx, PollOutgoing;
    var r1 := RetryParked(c);
    RetryParkedOk(w, c);
    Stage1(w, c);
    if r1.error.None? {
      var r2 := DriveServer(r1.c);
      DriveServerOk(w, r1.c);
      Stage2(w, c, r1.c);
      if r2.error.None? {
        var r3 := PollTransportRx(w, r2.c);
        PollTransportRxOk(w, r2.c);
        Stage3(w, c, r2.c);
        if r3.error.None? {
          PollOutgoingOk(w, r3.c);
        }
      }
    }
  }

  /** A client that is shutting down, or starts to in this poll, has ended after it exactly if closing
      the sink is done or fails in this poll; a client that goes on as before does not touch the sink's
      closing. */
  lemma ResolvesWhenClosed(w: World, c: Client)
    requires Reached(w, c) && c.h.progress == Running
    ensures var d := Poll(w, c);
            if d.h.entered.Some? then
              && (d.h.progress == Running <==> NextSink(c.net.closes).NotYetDone?)
              && d.net.closes == Tail(c.net.closes)
            else
              d.h.progress == Running && d.net.closes == c.net.closes
  {
    hide Reached, Inv, Latch, Poll;
    ReachedOk(w, c);
    ClosingDecides(w, c);
  }

  lemma ClosingDecides(w: World, c: Client)
    requires Inv(w, c) && Latch(c) && c.h.progress == Running
    ensures var d := Poll(w, c);
            if d.h.entered.Some? then
              && (d.h.progress == Running <==> NextSink(c.net.closes).NotYetDone?)
              && d.net.closes == Tail(c.net.closes)
            else
              d.h.progress == Running && d.net.closes == c.net.closes
  {
    hide Inv, HandleShutdown, HandleMessages, Healthy;
    if ShouldShutDown(c) {
      KeepsEntered(w, c);
      ShutdownCloses(w, c);
    } else {
      EnteringOk(w, c);
      HandleMessagesCloses(w, c);
      hide Latch, Busy;
      var r := HandleMessages(w, c);
      if r.error.Some? {
        KeepsEntered(w, Enter(r.c, r.error.value));
        ShutdownCloses(w, Enter(r.c, r.error.value));
      }
    }
  }

  /** What a client that is shutting down no longer does. */
  ghost predicate Frozen(c: Client, d: Client) {
    && d.h.entered == c.h.entered
    && d.h.dequeued == c.h.dequeued && d.h.calls == c.h.calls && d.nextId == c.nextId
    && d.h.offers == c.h.offers && d.h.sent == c.h.sent && d.parked == c.parked
  }

  lemma FrozenPoll(w: World, c: Client)
    requires Inv(w, c) && Latch(c) && c.h.entered.Some? && c.h.progress == Running
    ensures Frozen(c, Poll(w, c))
  {
    hide Inv, PollTransportRx;
    PollTransportRxOk(w, c);
  }

  lemma FrozenTwice(a: Client, b: Client, c: Client)
    requires Frozen(a, b) && Frozen(b, c)
    ensures Frozen(a, c)
  {
  }

  /** Once the shutdown has started, no message is dequeued, no id issued and nothing offered to
      the sink, in any continuation. */
  lemma {:induction false} ShutdownIsFinal(w: World, c: Client, moves: seq<Move>)
    requires Inv(w, c) && Latch(c) && c.h.entered.Some?
    ensures Frozen(c, Run(w, c, moves))
  {
    hide Inv, Poll, Latch;
    if moves != [] {
      var n := |moves| - 1;
      ShutdownIsFinal(w, c, moves[..n]);
      RunOk(w, c, moves[..n]);
      var d := Run(w, c, moves[..n]);
      if moves[n].DoPoll? && d.h.progress.Running? {
        FrozenPoll(w, d);
        FrozenTwice(c, d, Poll(w, d));
      }
    }
  }

  /** No future of the server is polled after it returned `Ready` or `Err`, in any run that stops
      polling the client once it has resolved. */
  lemma NoFinishedFutureIsPolled(w: World, c: Client)
    requires Reached(w, c)
    ensures c.server.log.repolls == 0
    ensures c.h.entered == None ==> Healthy(c.server.pending)
  {
    ReachedOk(w, c);
  }

  // ----- requests from the peer -----

  /** Every request taken is pending under one key, or was answered, or died, and exactly the
      answers with an output were enqueued, once each. */
  lemma RequestConservation(w: World, c: Client, r: nat)
    requires Reached(w, c) && c.server.log.pushes < U64 - 1 && r < |c.server.log.dispatched|
    ensures Conserved(c.server, r)
  {
    ReachedOk(w, c);
    ConservedIn(w, c.server, r);
  }

  ghost predicate Conserved(s: Server, r: nat) {
    && r < |s.log.fates|
    && (s.log.fates[r].Unsettled? <==> LiveIn(s.pending, r))
    && (forall resp :: Enqueued(r, resp) in s.log.enqueued <==> s.log.fates[r] == Answered(Some(resp)))
    && (forall i, j :: 0 <= i < j < |s.log.enqueued| ==> s.log.enqueued[i].request != s.log.enqueued[j].request)
    && (forall i, j :: 0 <= i < j < |s.pending| ==>
          s.pending[i].key != s.pending[j].key && s.pending[i].driver.request != s.pending[j].driver.request)
    && (forall e :: e in s.pending ==> e.key < s.nextKey)
  }

  /** A future that drives request `r` and has not finished is in the table. */
  ghost predicate LiveIn(es: seq<Entry>, r: nat) {
    exists e :: e in es && e.driver.request == r && !e.driver.Spent()
  }

  lemma UnsettledIffLive(w: World, es: seq<Entry>, log: Log, r: nat)
    requires Accounts(w, es, log) && r < |log.fates|
    ensures log.fates[r].Unsettled? <==> LiveIn(es, r)
  {
    if LiveIn(es, r) {
      var e :| e in es && e.driver.request == r && !e.driver.Spent();
      assert EntryOk(w, e, log);
    }
    if log.fates[r].Unsettled? {
      var e :| e in es && e.driver.request == r;
      assert EntryOk(w, e, log);
    }
  }

  lemma EnqueuedIffAnswered(log: Log, r: nat, resp: Response)
    requires QueueOk(log) && r < |log.fates|
    ensures Enqueued(r, resp) in log.enqueued <==> log.fates[r] == Answered(Some(resp))
  {
    var q := Enqueued(r, resp);
    if q in log.enqueued {
      assert log.fates[q.request] == Answered(Some(q.response));
    }
  }

  lemma ConservedIn(w: World, s: Server, r: nat)
    requires Ledger(w, s) && s.log.pushes < U64 - 1 && r < |s.log.dispatched|
    ensures Conserved(s, r)
  {
    hide RightAnswer, Blame, DriverOk, EntryOk, LiveIn;
    UnsettledIffLive(w, s.pending, s.log, r);
    forall resp
      ensures Enqueued(r, resp) in s.log.enqueued <==> s.log.fates[r] == Answered(Some(resp))
    {
      EnqueuedIffAnswered(s.log, r, resp);
    }
  }

  /** What a request comes to depends on its handlers only, not on the order in which they finish:
      if all of them succeed and the channel is open it is answered with exactly their outputs, or
      with nothing if there are none. Otherwise it dies of one of their errors. */
  lemma RequestAnswer(w: World, c: Client, r: nat)
    requires Reached(w, c) && c.server.log.pushes < U64 - 1 && r < |c.server.log.dispatched|
    ensures r < |c.server.log.fates|
    ensures FateIs(w, c.server.log.dispatched[r], r, c.server.log.fates[r])
  {
    ReachedOk(w, c);
    assert Ledger(w, c.server);
    hide Inv, Latch, AnswerIs, SomeBreaks, RightAnswer, Blame;
    var d := c.server.log.dispatched[r];
    match c.server.log.fates[r]
    case Unsettled =>
    case Answered(sent) =>
      RightAnswerIs(w, d, r, sent);
      AllSucceed(w, d, r, sent);
    case Dead(e) => BlameIs(w, d, r, e);
  }

  /** What may have become of a request, and why. */
  ghost predicate FateIs(w: World, d: Dispatch, r: nat, fate: Fate) {
    var futs := FutsOf(w, d, r);
    match fate
    case Unsettled => true
    case Answered(sent) =>
      RightAnswer(w, d, r, sent) && AnswerIs(w, d, r, sent) && forall i :: 0 <= i < |futs| ==> futs[i].result.Ok?
    case Dead(e) =>
      || (SomeBreaks(w, d, r, e) && exists i :: 0 <= i < |futs| && futs[i].result == Err(e))
      || (e == Shutdown && !w.send(r).open)
  }

  lemma AllSucceed(w: World, d: Dispatch, r: nat, sent: Option<Response>)
    requires RightAnswer(w, d, r, sent)
    ensures forall i :: 0 <= i < |FutsOf(w, d, r)| ==> FutsOf(w, d, r)[i].result.Ok?
  {
  }

  /** A batch, when it is answered, is answered by one batch response that holds, in some order, one
      output for each method call and each invalid member, with its id if the handlers echo it; a
      batch without such members is not answered. */
  lemma BatchAnswer(w: World, c: Client, r: nat, sent: Option<Response>)
    requires Reached(w, c) && c.server.log.pushes < U64 - 1 && r < |c.server.log.dispatched| == |c.server.log.fates|
    requires c.server.log.dispatched[r].request.Batch? && c.server.log.fates[r] == Answered(sent)
    ensures var calls := c.server.log.dispatched[r].request.calls;
            var outputs := InOrder(FutsOf(w, c.server.log.dispatched[r], r));
            && Answers(outputs, NonNotes(calls), Echoes(w))
            && if NonNotes(calls) == [] then sent == None
               else sent.Some? && sent.value.Many? && multiset(sent.value.outputs) == multiset(outputs)
  {
    RequestAnswer(w, c, r);
    var d := c.server.log.dispatched[r];
    hide Reached, RightAnswer, AnswerIs, SomeBreaks;
    BatchHolds(w, d, r, sent);
  }

  lemma BatchHolds(w: World, d: Dispatch, r: nat, sent: Option<Response>)
    requires d.request.Batch? && RightAnswer(w, d, r, sent)
    ensures var outputs := InOrder(FutsOf(w, d, r));
            && Answers(outputs, NonNotes(d.request.calls), Echoes(w))
            && if NonNotes(d.request.calls) == [] then sent == None
               else sent.Some? && sent.value.Many? && multiset(sent.value.outputs) == multiset(outputs)
  {
    var futs := FutsOf(w, d, r);
    forall i | 0 <= i < |d.request.calls|
      ensures HandleSingleCall(w, d.handlers, d.request.calls[i], r, i).result.Ok?
    {
      assert futs[i].result.Ok?;
    }
    OneOutputPerCall(w, d.handlers, d.request.calls, r);
    InOrderIsOutputs(futs);
    if InOrder(futs) != [] {
      assert InOrder(futs)[0] in multiset(InOrder(futs));
    }
  }

  /** The same answer, but for the order of the outputs of a batch. */
  ghost predicate SameAnswer(a: Option<Response>, b: Option<Response>) {
    if a.Some? && b.Some? && a.value.Many? && b.value.Many? then
      multiset(a.value.outputs) == multiset(b.value.outputs)
    else
      a == b
  }

  ghost predicate SameResults(a: seq<Fut<Option<Output>>>, b: seq<Fut<Option<Output>>>) {
    |a| == |b| && forall i :: 0 <= i < |a| ==> a[i].result == b[i].result
  }

  lemma RightAnswersAgree(w: World, v: World, d: Dispatch, e: Dispatch, r: nat, q: nat, sent: Option<Response>,
      sent': Option<Response>)
    requires d.request == e.request && SameResults(FutsOf(w, d, r), FutsOf(v, e, q))
    requires RightAnswer(w, d, r, sent) && RightAnswer(v, e, q, sent')
    ensures SameAnswer(sent, sent')
  {
    SameResultsSameOutputs(FutsOf(w, d, r), FutsOf(v, e, q));
    if sent.Some? && d.request.Single? {
      assert sent.value.output in multiset{sent'.value.output};
    }
  }

  /** Completion order does not matter: when two clients, in whatever runs and surroundings, have
      taken the same request and its handlers give the same results, at any times and in any order,
      then whatever answers it got are the same. If it was answered in one run and died in the other,
      the response channel was closed there. */
  lemma CompletionOrderIrrelevant(w: World, c: Client, r: nat, v: World, d: Client, q: nat)
    requires Reached(w, c) && c.server.log.pushes < U64 - 1 && r < |c.server.log.dispatched|
    requires Reached(v, d) && d.server.log.pushes < U64 - 1 && q < |d.server.log.dispatched|
    requires c.server.log.dispatched[r].request == d.server.log.dispatched[q].request
    requires SameResults(FutsOf(w, c.server.log.dispatched[r], r), FutsOf(v, d.server.log.dispatched[q], q))
    ensures r < |c.server.log.fates| && q < |d.server.log.fates|
    ensures var a, b := c.server.log.fates[r], d.server.log.fates[q];
            && (a.Answered? && b.Answered? ==> SameAnswer(a.sent, b.sent))
            && (a.Answered? && b.Dead? ==> b.error == Shutdown && !v.send(q).open)
            && (a.Dead? && b.Answered? ==> a.error == Shutdown && !w.send(r).open)
  {
    hide Reached, FateIs, FutsOf, SameAnswer, SameResults;
    RequestAnswer(w, c, r);
    RequestAnswer(v, d, q);
    FatesAgree(w, v, c.server.log.dispatched[r], d.server.log.dispatched[q], r, q, c.server.log.fates[r],
               d.server.log.fates[q]);
  }

  lemma FatesAgree(w: World, v: World, d: Dispatch, e: Dispatch, r: nat, q: nat, a: Fate, b: Fate)
    requires d.request == e.request && SameResults(FutsOf(w, d, r), FutsOf(v, e, q))
    requires FateIs(w, d, r, a) && FateIs(v, e, q, b)
    ensures a.Answered? && b.Answered? ==> SameAnswer(a.sent, b.sent)
    ensures a.Answered? && b.Dead? ==> b.error == Shutdown && !v.send(q).open
    ensures a.Dead? && b.Answered? ==> a.error == Shutdown && !w.send(r).open
  {
    hide RightAnswer, FutsOf, SameAnswer, AnswerIs, SomeBreaks;
    if a.Answered? && b.Answered? {
      RightAnswersAgree(w, v, d, e, r, q, a.sent, b.sent);
    }
  }

  lemma {:induction false} SameResultsSameOutputs(a: seq<Fut<Option<Output>>>, b: seq<Fut<Option<Output>>>)
    requires SameResults(a, b)
    ensures Outputs(a) == Outputs(b)
  {
    if a != [] {
      var n := |a| - 1;
      SameResultsSameOutputs(a[..n], b[..n]);
    }
  }
}
