/** What becomes of a client that is polled once more after it has ended: one that resolved is safe,
    one that failed drives its server again, and this is exactly when a finished future is polled. */
module ClientReentry {
  import opened Futures
  import opened JsonRpc
  import opened Ids
  import opened SelectWeak
  import opened ServerModel
  import opened DriverProofs
  import opened ServerProofs
  import opened ClientModel
  import opened ClientProofs
  import opened ClientTheorems

  /** A round from position `i` on gets to a future that has finished: it stops before one only at a
      future whose poll fails. */
  ghost predicate MeetsFinished(es: seq<Entry>, i: nat) {
    exists k :: i <= k < |es| && FirstMet(es, i, k)
  }

  ghost predicate FirstMet(es: seq<Entry>, i: nat, k: nat)
    requires k < |es|
  {
    es[k].driver.Spent() && forall j :: i <= j < k ==> !PollDriver(es[j].driver).verdict.Failed?
  }

  lemma MeetsStep(es: seq<Entry>, i: nat)
    requires i < |es|
    ensures MeetsFinished(es, i)
        <==> es[i].driver.Spent() || (!PollDriver(es[i].driver).verdict.Failed? && MeetsFinished(es, i + 1))
  {
    hide PollDriver;
    if es[i].driver.Spent() {
      assert FirstMet(es, i, i);
    }
    if MeetsFinished(es, i) {
      var k :| i <= k < |es| && FirstMet(es, i, k);
      assert k > i ==> FirstMet(es, i + 1, k);
    }
    if !PollDriver(es[i].driver).verdict.Failed? && MeetsFinished(es, i + 1) {
      var k :| i + 1 <= k < |es| && FirstMet(es, i + 1, k);
      assert FirstMet(es, i, k);
    }
  }

  lemma MeetsSame(es: seq<Entry>, fs: seq<Entry>, i: nat)
    requires |es| == |fs| && (forall j :: i <= j < |es| ==> es[j] == fs[j]) && MeetsFinished(es, i)
    ensures MeetsFinished(fs, i)
  {
    hide PollDriver;
    var k :| i <= k < |es| && FirstMet(es, i, k);
    assert FirstMet(fs, i, k);
  }

  lemma DrivenMeets(s: Server, i: nat)
    requires i < |s.pending|
    ensures var t := Driven(s, i);
            && |t.pending| == |s.pending|
            && t.log.repolls == s.log.repolls + (if s.pending[i].driver.Spent() then 1 else 0)
            && (MeetsFinished(t.pending, i + 1) <==> MeetsFinished(s.pending, i + 1))
  {
    hide PollDriver, MeetsFinished;
    var es, fs := s.pending, Driven(s, i).pending;
    if MeetsFinished(es, i + 1) {
      MeetsSame(es, fs, i + 1);
    } else if MeetsFinished(fs, i + 1) {
      MeetsSame(fs, es, i + 1);
    }
  }

  /** A round polls a finished future exactly if it gets to one. */
  lemma {:induction false} RoundRepolls(s: Server, i: nat, ready: seq<nat>, sent: seq<Response>)
    ensures var t := PollFrom(s, i, ready, sent).server;
            && s.log.repolls <= t.log.repolls
            && (s.log.repolls < t.log.repolls <==> MeetsFinished(s.pending, i))
    decreases |s.pending| - i
  {
    hide PollFrom, PollDriver, MeetsFinished, Driven;
    if i >= |s.pending| {
      RoundEnd(s, i, ready, sent);
      NothingLeft(s.pending, i);
    } else {
      RoundStep(s, i, ready, sent);
      MeetsStep(s.pending, i);
      DrivenMeets(s, i);
      if PollDriver(s.pending[i].driver).verdict.Failed? {
        FailingIsLive(s.pending[i].driver);
      } else {
        RoundRepolls(Driven(s, i), i + 1, ReadyAfter(s, i, ready), sent + SentBy(s, i));
      }
    }
  }

  lemma NothingLeft(es: seq<Entry>, i: nat)
    requires i >= |es|
    ensures !MeetsFinished(es, i)
  {
  }

  lemma FailingIsLive(d: Driver)
    ensures PollDriver(d).verdict.Failed? ==> !d.Spent()
  {
  }

  lemma RxPayloadRepolls(w: World, c: Client, text: Text)
    ensures HandleRxPayload(w, c, text).c.server.log.repolls == c.server.log.repolls
  {
    if Decode(text).InRequest? {
      ProcessRequestHealthy(w, c.server, Decode(text).request);
    }
  }

  lemma {:induction false} RxRepolls(w: World, c: Client)
    ensures PollTransportRx(w, c).c.server.log.repolls == c.server.log.repolls
    decreases |c.net.rx|
  {
    if Next(c.net.rx).Item? {
      RxPayloadRepolls(w, Receive(c), c.net.rx[0].item);
      var r := HandleRxPayload(w, Receive(c), c.net.rx[0].item);
      if r.error.None? {
        RxRepolls(w, r.c);
      }
    }
  }

  lemma DriveRepolls(c: Client)
    requires !c.shuttingDown
    ensures var t := DriveServer(c).c.server;
            && c.server.log.repolls <= t.log.repolls
            && (c.server.log.repolls < t.log.repolls <==> MeetsFinished(c.server.pending, 0))
  {
    hide PollFrom, DrainHandlerChan, MeetsFinished;
    DrainFrame(c.server);
    RoundRepolls(DrainHandlerChan(c.server), 0, [], []);
  }

  lemma HandleMessagesRepolls(w: World, c: Client)
    requires !ShouldShutDown(c)
    ensures HandleMessages(w, c).c.server.log.repolls
         == if RetryParked(c).error.Some? then c.server.log.repolls
            else DriveServer(RetryParked(c).c).c.server.log.repolls
    ensures RetryParked(c).error.Some? <==> c.parked.Some? && NextSend(c.net).SendFail?
    ensures RetryParked(c).c.server == c.server && !RetryParked(c).c.shuttingDown
  {
    hide PollTransportRx, PollOutgoing, DriveServer;
    var r1 := RetryParked(c);
    if r1.error.None? {
      var r2 := DriveServer(r1.c);
      if r2.error.None? {
        RxRepolls(w, r2.c);
        OutgoingKeepsServer(w, PollTransportRx(w, r2.c).c);
      }
    }
  }

  /** A poll of any client polls a finished future of its server exactly if neither flag of the latch
      is up, the retry of a parked payload does not fail, and the round gets to a finished future. */
  lemma RepollsIff(w: World, c: Client)
    ensures c.server.log.repolls <= Poll(w, c).server.log.repolls
    ensures c.server.log.repolls < Poll(w, c).server.log.repolls
        <==> !ShouldShutDown(c) && !(c.parked.Some? && NextSend(c.net).SendFail?)
             && MeetsFinished(c.server.pending, 0)
  {
    hide PollTransportRx, HandleMessages, DriveServer, MeetsFinished;
    if ShouldShutDown(c) {
      RxRepolls(w, c);
    } else {
      var r := HandleMessages(w, c);
      HandleMessagesRepolls(w, c);
      DriveRepolls(RetryParked(c).c);
      if r.error.Some? {
        RxRepolls(w, Enter(r.c, r.error.value));
      }
    }
  }

  /** Polled after its end, a client that resolved never polls a finished future, because it is still
      shutting down. One that failed has dropped its flags; it does so exactly if the retry of its
      parked payload does not fail and the round gets to such a future. */
  lemma ReentryIff(w: World, c: Client)
    requires Reached(w, c) && c.h.progress != Running
    ensures c.server.log.repolls == 0
    ensures c.h.progress == Resolved ==> Poll(w, c).server.log.repolls == 0
    ensures c.h.progress.Crashed? ==>
              (Poll(w, c).server.log.repolls > 0
               <==> !(c.parked.Some? && NextSend(c.net).SendFail?) && MeetsFinished(c.server.pending, 0))
  {
    ReachedOk(w, c);
    hide MeetsFinished, Poll, Reached;
    RepollsIff(w, c);
  }

  // ----- such a client is reached -----

  const BOOM := OtherError(1)
  const REQUEST := RequestText(Single(Note(Notification("n", None))))

  /** Every notification handler fails at once. */
  function Failing(): World {
    World((h, m, r, ix) => Fut(0, Err(BOOM)), (h, n, r, ix) => Fut(0, Err(BOOM)), r => [], r => SendPlan(0, true), {})
  }

  function Start(): Client {
    InitClient(Net([Item(REQUEST)], [], [], [SinkDone]), [], [Item(AddHandler("n", NotificationHandler(0), 0))])
  }

  /** The driver of the one request, whose eager poll failed. */
  function Kept(): Driver {
    Driver(0, true, 0, Stored(BOOM))
  }

  lemma FirstPoll()
    ensures var c := Poll(Failing(), Start());
            && c.h.progress == Running && !ShouldShutDown(c) && c.parked == None
            && c.net.rx == [] && c.net.closes == [SinkDone]
            && c.server.pending == [Entry(1, Kept())] && c.server.chan == Some([])
  {
    var w, c := Failing(), Start();
    var drained := DrainHandlerChan(c.server);
    assert drained.pending == [] && drained.handlers == map["n" := NotificationHandler(0)] && drained.chan == Some([]);
    var r2 := DriveServer(c);
    assert r2.error == None && r2.c.server == drained;
    var d := Receive(r2.c);
    var p := ProcessRequest(w, drained, Decode(REQUEST).request);
    assert PollDriver(NewDriver(w, drained.handlers, Decode(REQUEST).request, 0)).verdict == Failed(BOOM);
    assert p.server.pending == [Entry(1, Kept())];
    var r3 := PollTransportRx(w, r2.c);
    assert r3 == PollTransportRx(w, HandleRequest(w, d, Decode(REQUEST).request));
    assert r3.error == None && r3.c.server == p.server && r3.c.net.rx == [];
    var r4 := PollOutgoing(w, r3.c);
    assert r4.error == None && r4.c.server == r3.c.server;
  }

  lemma SecondPoll(c: Client)
    requires c.h.progress == Running && !ShouldShutDown(c) && c.parked == None
    requires c.net.rx == [] && c.net.closes == [SinkDone]
    requires c.server.pending == [Entry(1, Kept())] && c.server.chan == Some([])
    ensures var d := Poll(Failing(), c);
            && d.h.progress == Crashed(BOOM) && !ShouldShutDown(d) && d.parked == None
            && MeetsFinished(d.server.pending, 0)
  {
    var drained := DrainHandlerChan(c.server);
    assert drained == c.server;
    RoundStep(drained, 0, [], []);
    var r2 := DriveServer(c);
    assert r2.error == Some(BOOM);
    assert HandleMessages(Failing(), c) == r2;
    var d := Poll(Failing(), c);
    assert FirstMet(d.server.pending, 0, 0);
  }

  /** A client that has failed, with a finished future in the table, is reached by two polls from
      the start; a third would poll that future again. */
  lemma ReentryHappens()
    ensures exists w, c :: Reached(w, c) && c.h.progress == Crashed(BOOM) && c.server.log.repolls == 0
                           && Poll(w, c).server.log.repolls > 0
  {
    hide Poll, Failing, Kept;
    var w := Failing();
    var c1 := Poll(w, Start());
    var c2 := Poll(w, c1);
    FirstPoll();
    SecondPoll(c1);
    var moves := [DoPoll, DoPoll];
    assert moves[..1] == [DoPoll] && moves[..1][..0] == [];
    assert Run(w, Start(), [DoPoll]) == c1;
    assert c2 == Run(w, Start(), moves);
    assert Reached(w, c2);
    ReachedOk(w, c2);
    ReentryIff(w, c2);
  }
}
