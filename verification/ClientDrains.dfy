/** What the drain loops of the client leave undone: quiescence, and the answers still delivered
    during a shutdown. */
module ClientDrains {
  import opened Futures
  import opened JsonRpc
  import opened Ids
  import opened SelectWeak
  import opened ServerModel
  import opened DriverProofs
  import opened ServerProofs
  import opened ClientModel
  import opened ClientLedger
  import opened ClientProofs
  import opened ClientTheorems

  // ----- the transport stream -----

  lemma {:induction false} RxDrained(w: World, c: Client)
    ensures PollTransportRx(w, c).error.None? ==> Drained(c.net.rx, PollTransportRx(w, c).c.net.rx)
    decreases |c.net.rx|
  {
    hide PollTransportRx, HandleRxPayload;
    RxStep(w, c);
    if Next(c.net.rx).Item? {
      var r := HandleRxPayload(w, Receive(c), c.net.rx[0].item);
      if r.error.None? {
        RxDrained(w, r.c);
        if PollTransportRx(w, r.c).error.None? {
          DrainedOnce(c.net.rx, PollTransportRx(w, r.c).c.net.rx);
        }
      }
    }
  }

  /** Reading the stream leaves the way out alone. */
  ghost predicate RxLeaves(c: Client, d: Client) {
    && d.fatal == c.fatal && d.parked == c.parked && d.sel.strong == c.sel.strong
    && d.net == c.net.(rx := d.net.rx) && d.h.offers == c.h.offers && d.h.dequeued == c.h.dequeued
  }

  lemma PayloadLeaves(w: World, c: Client, text: Text)
    ensures RxLeaves(c, HandleRxPayload(w, c, text).c)
  {
    hide ProcessRequest;
  }

  lemma {:induction false} RxLeavesOut(w: World, c: Client)
    ensures RxLeaves(c, PollTransportRx(w, c).c)
    decreases |c.net.rx|
  {
    hide PollTransportRx, HandleRxPayload;
    RxStep(w, c);
    if Next(c.net.rx).Item? {
      PayloadLeaves(w, Receive(c), c.net.rx[0].item);
      var r := HandleRxPayload(w, Receive(c), c.net.rx[0].item);
      if r.error.None? {
        RxLeavesOut(w, r.c);
      }
    }
  }

  // ----- the outgoing messages -----

  lemma PayloadTransport(w: World, c: Client, m: OutgoingMessage)
    ensures var d := HandleClientPayload(w, c, m).c;
            d.fatal == c.fatal && d.net == c.net.(sends := d.net.sends)
  {
    hide MethodText, NoteText, ResponseToText;
  }

  /** Taking outgoing messages uses the sink for sending only. */
  lemma {:induction false} OutgoingTransport(w: World, c: Client)
    ensures var d := PollOutgoing(w, c).c;
            d.fatal == c.fatal && d.net == c.net.(sends := d.net.sends)
    decreases c.sel.Budget()
  {
    hide HandleClientPayload;
    if c.parked.None? && c.sel.Ev().Item? {
      ItemCosts(c.sel);
      PayloadTransport(w, Dequeue(c), c.sel.Ev().item);
      PayloadFrame(w, Dequeue(c), c.sel.Ev().item);
      var r := HandleClientPayload(w, Dequeue(c), c.sel.Ev().item);
      if r.error.None? {
        OutgoingTransport(w, r.c);
      }
    }
  }

  ghost predicate AllItems<T>(s: Script<T>) {
    forall i :: 0 <= i < |s| ==> s[i].Item?
  }

  lemma WeakItems(sel: Sel<OutgoingMessage>, enqueued: seq<Enqueued>)
    requires WeakOk(sel, enqueued)
    ensures AllItems(sel.weak.script)
  {
  }

  lemma {:induction false} OutgoingDrained(w: World, c: Client)
    requires Inv(w, c) && c.h.lost == None && c.fatal == None
    ensures var r := PollOutgoing(w, c);
            r.error.None? ==> r.c.parked.Some? || NothingReady(c.sel, r.c.sel)
    decreases c.sel.Budget()
  {
    if c.parked.None? {
      if c.sel.Ev().Item? {
        var r := HandleClientPayload(w, Dequeue(c), c.sel.Ev().item);
        ItemCosts(c.sel);
        OneMessageOk(w, c);
        if r.error.None? {
          OutgoingDrained(w, r.c);
          var u := PollOutgoing(w, r.c);
          if u.error.None? && u.c.parked.None? {
            NothingReadyOnce(c.sel, u.c.sel);
          }
        }
      } else if c.sel.Ev().Pending? {
        PendingMeansNothing(c.sel);
      }
    }
  }

  /** The selector is left with nothing ready: the strong stream said so, the weak one is empty. */
  ghost predicate NothingOutgoing(before: Sel<OutgoingMessage>, after: Sel<OutgoingMessage>) {
    Drained(before.strong.script, after.strong.script) && after.weak.script == []
  }

  /** The channel of the server's messages never answers that it is not ready before it is empty. */
  lemma OutgoingEmptied(w: World, c: Client)
    requires Inv(w, c) && c.h.lost == None && c.fatal == None
    ensures var r := PollOutgoing(w, c);
            r.error.None? ==> r.c.parked.Some? || NothingOutgoing(c.sel, r.c.sel)
  {
    var r := PollOutgoing(w, c);
    OutgoingDrained(w, c);
    PollOutgoingOk(w, c);
    WeakItems(c.sel, c.server.log.enqueued);
    if r.error.None? && r.c.parked.None? {
      DrainedItems(c.sel.weak.script, r.c.sel.weak.script);
    }
  }

  lemma NoFailure(sel: Sel<OutgoingMessage>)
    requires AllItems(sel.weak.script) && NeverFails(sel.strong.script)
    ensures !sel.Ev().Fail? && AllItems(sel.Step().weak.script) && NeverFails(sel.Step().strong.script)
  {
  }

  /** Channels never fail, so neither does the selector on top of them: the drain loop never gets to
      its `unreachable!`. */
  lemma {:induction false} ChannelErrorIsUnreachable(w: World, c: Client)
    requires AllItems(c.sel.weak.script) && NeverFails(c.sel.strong.script)
    ensures PollOutgoing(w, c).error != Some(Unreachable)
    ensures NeverFails(PollOutgoing(w, c).c.sel.strong.script)
    decreases c.sel.Budget()
  {
    NoFailure(c.sel);
    if c.parked.None? && c.sel.Ev().Item? {
      ItemCosts(c.sel);
      PayloadFrame(w, Dequeue(c), c.sel.Ev().item);
      var r := HandleClientPayload(w, Dequeue(c), c.sel.Ev().item);
      if r.error.None? {
        ChannelErrorIsUnreachable(w, r.c);
      }
    }
  }

  /** What must hold when `handle_messages` is done without an error. */
  ghost predicate Quiet(c: Client, d: Client) {
    && Drained(c.net.rx, d.net.rx)
    && (d.parked.Some? || NothingOutgoing(c.sel, d.sel))
    && d.net.flushes == Tail(c.net.flushes)
  }

  lemma HandleMessagesQuiet(w: World, c: Client)
    requires Busy(w, c, c)
    ensures HandleMessages(w, c).error.None? ==> Quiet(c, HandleMessages(w, c).c)
  {
    hide Inv, PollTransportRx, PollOutgoing, PollServer, Drained;
    var r1 := RetryParked(c);
    Stage1(w, c);
    if r1.error.None? {
      var r2 := DriveServer(r1.c);
      Stage2(w, c, r1.c);
      if r2.error.None? {
        var r3 := PollTransportRx(w, r2.c);
        Stage3(w, c, r2.c);
        RxDrained(w, r2.c);
        PollTransportRxOk(w, r2.c);
        if r3.error.None? {
          var r4 := PollOutgoing(w, r3.c);
          Stage4(w, c, r3.c);
          PollOutgoingOk(w, r3.c);
          OutgoingEmptied(w, r3.c);
          assert r3.c.sel.strong == c.sel.strong;
        }
      }
    }
  }

  /** Quiescence: a poll outside a shutdown that is not done has drained the transport stream, has
      parked a payload or found neither outgoing source ready, and has flushed the sink once. */
  lemma Quiescence(w: World, c: Client)
    requires Reached(w, c) && c.h.progress == Running && Poll(w, c).h.entered == None
    ensures Poll(w, c).h.progress == Running
    ensures Quiet(c, Poll(w, c))
  {
    hide Inv, PollTransportRx, HandleMessages, Drained, NothingOutgoing;
    ReachedOk(w, c);
    PollOk(w, c);
    if ShouldShutDown(c) {
      PollTransportRxOk(w, c);
    } else {
      HandleMessagesQuiet(w, c);
      if HandleMessages(w, c).error.Some? {
        HandleMessagesOk(w, c);
        var d := Enter(HandleMessages(w, c).c, HandleMessages(w, c).error.value);
        EnterOk(w, HandleMessages(w, c).c, HandleMessages(w, c).error.value);
        HandleShutdownOk(w, d);
      }
    }
  }

  // ----- draining during a shutdown -----

  /** The version 2.0 responses a stream yields before it is not ready, ends, fails, or hands out a
      text that is malformed or a response of another version. */
  function Replies(rx: Script<Text>): seq<Output> {
    if rx == [] || !rx[0].Item? then [] else
    match Decode(rx[0].item)
    case Malformed => []
    case InRequest(_) => Replies(rx[1..])
    case InResponse(o) => if o.v2 then [o] + Replies(rx[1..]) else []
  }

  /** What one text adds to the responses heard. */
  function ReplyOf(text: Text): seq<Output> {
    match Decode(text)
    case InResponse(o) => if o.v2 then [o] else []
    case _ => []
  }

  lemma RxPayloadHears(w: World, c: Client, text: Text)
    ensures var r := HandleRxPayload(w, c, text);
            && r.c.h.heard == c.h.heard + ReplyOf(text)
            && r.c.h.calls == c.h.calls
            && r.c.net == c.net
            && (r.error.Some? <==> Decode(text).Malformed? || (Decode(text).InResponse? && !Decode(text).output.v2))
  {
  }

  lemma RepliesStep(rx: Script<Text>)
    requires Next(rx).Item?
    ensures var bad := Decode(rx[0].item).Malformed? || (Decode(rx[0].item).InResponse?
        && !Decode(rx[0].item).output.v2);
            Replies(rx) == ReplyOf(rx[0].item) + (if bad then [] else Replies(rx[1..]))
  {
  }

  lemma NoReplies(rx: Script<Text>)
    requires !Next(rx).Item?
    ensures Replies(rx) == []
  {
  }

  lemma {:induction false} RxHears(w: World, c: Client)
    ensures PollTransportRx(w, c).c.h.heard == c.h.heard + Replies(c.net.rx)
    ensures PollTransportRx(w, c).c.h.calls == c.h.calls
    decreases |c.net.rx|
  {
    hide PollTransportRx, HandleRxPayload, Replies, ReplyOf;
    RxStep(w, c);
    if !Next(c.net.rx).Item? {
      NoReplies(c.net.rx);
    } else {
      var text := c.net.rx[0].item;
      var r := HandleRxPayload(w, Receive(c), text);
      RxPayloadHears(w, Receive(c), text);
      RepliesStep(c.net.rx);
      if r.error.None? {
        RxHears(w, r.c);
        assert c.h.heard + (ReplyOf(text) + Replies(c.net.rx[1..])) == (c.h.heard + ReplyOf(text))
            + Replies(c.net.rx[1..]);
      }
    }
  }

  lemma {:induction false} AnswerOffset(a: seq<Output>, b: seq<Output>, k: nat, id: Id)
    ensures FirstAnswer(a + b, |a| + k, id)
         == match FirstAnswer(b, k, id) case None => None case Some(j) => Some(|a| + j)
    decreases |b| - k
  {
    if k < |b| {
      assert (a + b)[|a| + k] == b[k];
      AnswerOffset(a, b, k + 1, id);
    }
  }

  lemma {:induction false} AnswerShift(a: seq<Output>, b: seq<Output>, from: nat, id: Id)
    requires from <= |a| && FirstAnswer(a, from, id) == None
    ensures FirstAnswer(a + b, from, id)
         == match FirstAnswer(b, 0, id) case None => None case Some(j) => Some(|a| + j)
    decreases |a| - from
  {
    if from < |a| {
      assert (a + b)[from] == a[from];
      AnswerShift(a, b, from + 1, id);
    } else {
      AnswerOffset(a, b, 0, id);
    }
  }

  /** A call that waits is due the first answer among the responses that follow. */
  lemma DueNext(calls: seq<CallRec>, heard: seq<Output>, more: seq<Output>, i: nat)
    requires i < |calls| && calls[i].call.RpcCall? && calls[i].since <= |heard| && Due(calls, heard, i) == None
    ensures var a := FirstAnswer(more, 0, CallId(i));
            && (a.Some? ==> a.value < |more|)
            && Due(calls, heard + more, i) == if a.Some? then Some(ResultOf(more[a.value])) else None
  {
    AnswerShift(heard, more, calls[i].since, CallId(i));
    FirstAnswerIs(more, 0, CallId(i));
  }

  /** The call under `id` is completed with the first answer among `replies`. */
  ghost predicate Delivered(c: Client, d: Client, id: Id, replies: seq<Output>)
    requires id in c.pending
  {
    var a := FirstAnswer(replies, 0, id);
    a.Some? ==> a.value < |replies| && id !in d.pending
                && Outcome(id, c.pending[id], ResultOf(replies[a.value])) in d.h.outcomes
  }

  lemma RxDelivers(w: World, c: Client, id: Id)
    requires Inv(w, c) && |c.h.calls| < U64 - 1 && id in c.pending
    ensures Delivered(c, PollTransportRx(w, c).c, id, Replies(c.net.rx))
  {
    hide PollTransportRx, Replies, OutputOk, SinkOk, WeakOk, ServerOk, SourceOk;
    var d := PollTransportRx(w, c).c;
    PollTransportRxOk(w, c);
    RxHears(w, c);
    var i := WaitingCall(w, c, id);
    DueNext(c.h.calls, c.h.heard, Replies(c.net.rx), i);
    assert CallOk(d.h.calls, d.h.heard, d.pending, d.h.outcomes, i);
  }

  /** During a shutdown every pending call whose answer the stream still yields is completed with
      the first such answer, in the very poll that reads it. */
  lemma ShutdownDelivers(w: World, c: Client, id: Id)
    requires Reached(w, c) && c.h.entered.Some? && c.h.progress == Running
    requires |c.h.calls| < U64 - 1 && id in c.pending
    ensures Delivered(c, Poll(w, c), id, Replies(c.net.rx))
  {
    hide Inv, PollTransportRx, Replies, HandleMessages;
    ReachedOk(w, c);
    RxDelivers(w, c, id);
  }

  /** So is it in the poll that starts the shutdown, for what the stream yields after the error. */
  lemma EnteringDelivers(w: World, c: Client, id: Id)
    requires Reached(w, c) && c.h.entered == None && HandleMessages(w, c).error.Some?
    requires var d := HandleMessages(w, c).c; |d.h.calls| < U64 - 1 && id in d.pending
    ensures var d := HandleMessages(w, c).c; Delivered(d, Poll(w, c), id, Replies(d.net.rx))
  {
    hide Inv, PollTransportRx, Replies, HandleMessages;
    ReachedOk(w, c);
    HandleMessagesOk(w, c);
    var r := HandleMessages(w, c);
    EnterOk(w, r.c, r.error.value);
    RxDelivers(w, Enter(r.c, r.error.value), id);
  }

  lemma WaitingCall(w: World, c: Client, id: Id) returns (i: nat)
    requires Inv(w, c) && |c.h.calls| < U64 - 1 && id in c.pending
    ensures i < |c.h.calls| && CallId(i) == id && c.h.calls[i].call.RpcCall? && c.h.calls[i].since <= |c.h.heard|
    ensures Due(c.h.calls, c.h.heard, i) == None && c.pending[id] == c.h.calls[i].call.completion
  {
    assert Issued(c.h.calls, id);
    i :| 0 <= i < |c.h.calls| && CallId(i) == id;
    assert CallOk(c.h.calls, c.h.heard, c.pending, c.h.outcomes, i);
  }

  // ----- the registry and the requests of one poll -----

  /** Requests read in a poll meet the registry as it stands after that poll drained its channel:
      nothing more is consumed in between. */
  lemma {:induction false} RxRegistry(w: World, c: Client)
    ensures var d := PollTransportRx(w, c).c;
            && d.server.log.consumed == c.server.log.consumed && d.server.handlers == c.server.handlers
            && d.server.chan == c.server.chan
            && c.server.log.dispatched <= d.server.log.dispatched
            && forall i :: |c.server.log.dispatched| <= i < |d.server.log.dispatched| ==>
                 d.server.log.dispatched[i].seen == |c.server.log.consumed|
                 && d.server.log.dispatched[i].handlers == c.server.handlers
    decreases |c.net.rx|
  {
    if Next(c.net.rx).Item? {
      var text := c.net.rx[0].item;
      var r := HandleRxPayload(w, Receive(c), text);
      RequestRegistry(w, Receive(c), text);
      if r.error.None? {
        RxRegistry(w, r.c);
      }
    }
  }

  lemma RequestRegistry(w: World, c: Client, text: Text)
    ensures var s, t := c.server, HandleRxPayload(w, c, text).c.server;
            if Decode(text).InRequest? then
              && t.log.consumed == s.log.consumed && t.handlers == s.handlers && t.chan == s.chan
              && t.log.dispatched == s.log.dispatched + [Dispatch(Decode(text).request, s.handlers, |s.log.consumed|)]
            else
              t == s
  {
  }

  /** The server's part in a poll: it takes requests only after all registry messages that were
      ready, and those requests meet the registry as it is then. */
  ghost predicate FreshRegistry(s: Server, t: Server) {
    && s.log.dispatched <= t.log.dispatched
    && (|s.log.dispatched| < |t.log.dispatched| ==> t.log.consumed == s.log.consumed + Ready(s))
    && (forall i :: |s.log.dispatched| <= i < |t.log.dispatched| ==>
          t.log.dispatched[i].seen == |t.log.consumed| && t.log.dispatched[i].handlers == t.handlers)
  }

  /** Requests read by `handle_messages` are dispatched against all registry messages that were ready
      in the channel when it started: the channel is drained first. */
  lemma RequestsMeetFreshRegistry(w: World, c: Client)
    requires !ShouldShutDown(c)
    ensures FreshRegistry(c.server, HandleMessages(w, c).c.server)
  {
    hide PollTransportRx, PollOutgoing, PollServer, Ready;
    var r1 := RetryParked(c);
    if r1.error.None? {
      DriveServerRegistry(r1.c);
      var r2 := DriveServer(r1.c);
      if r2.error.None? {
        RxRegistry(w, r2.c);
        OutgoingKeepsServer(w, PollTransportRx(w, r2.c).c);
      }
    }
  }

  lemma DriveServerRegistry(c: Client)
    requires !c.shuttingDown
    ensures var s, t, u := c.server, DriveServer(c).c.server, DrainHandlerChan(c.server);
            && t.log.dispatched == s.log.dispatched && t.log.consumed == s.log.consumed + Ready(s)
            && t.log.consumed == u.log.consumed && t.chan == u.chan
  {
    DrainFrame(c.server);
    var more := PollFromFrame(DrainHandlerChan(c.server), 0, [], []);
  }
}
