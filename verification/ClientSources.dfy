/** Where everything the client takes in comes from: over any run the texts received, the messages
    dequeued and the registry messages consumed are those handed in, none lost and none invented. */
module ClientSources {
  import opened Futures
  import opened JsonRpc
  import opened SelectWeak
  import opened ServerModel
  import opened DriverProofs
  import opened ServerProofs
  import opened ClientModel
  import opened ClientProofs
  import opened ClientDrains

  // ----- what was handed in -----

  function TextsIn(rx: Script<Text>, moves: seq<Move>): seq<Text> {
    if moves == [] then Items(rx) else
      var m := moves[|moves| - 1];
      TextsIn(rx, moves[..|moves| - 1]) + (if m.DoFeed? then Items(m.supply.rx) else [])
  }

  function MessagesIn(strong: Script<OutgoingMessage>, moves: seq<Move>): seq<OutgoingMessage> {
    if moves == [] then Items(strong) else
      var m := moves[|moves| - 1];
      MessagesIn(strong, moves[..|moves| - 1]) + (if m.DoFeed? then Items(m.supply.strong) else [])
  }

  /** Everything the registry channel answers, from the start to the end of a run. */
  function ChannelIn(chan: Script<HandlerMsg>, moves: seq<Move>): Script<HandlerMsg> {
    if moves == [] then chan else
      var m := moves[|moves| - 1];
      ChannelIn(chan, moves[..|moves| - 1]) + (if m.DoFeed? then m.supply.handlerMsgs else [])
  }

  // ----- the registry channel -----

  /** The channel was read up to position `k`: what was consumed is what it held until there. It is
      closed exactly if its end was read. */
  ghost predicate ReadUpTo(s: Server, all: Script<HandlerMsg>, k: nat) {
    && k <= |all| && s.log.consumed == Items(all[..k]) && End !in all[..k]
    && match s.chan
       case Some(rest) => rest == all[k..]
       case None => k < |all| && all[k].End?
  }

  ghost predicate ChannelRead(s: Server, all: Script<HandlerMsg>) {
    exists k: nat :: ReadUpTo(s, all, k)
  }

  lemma ReadOne<T>(all: Script<T>, k: nat)
    requires k < |all|
    ensures Items(all[..k + 1]) == Items(all[..k]) + (if all[k].Item? then [all[k].item] else [])
    ensures all[k..][1..] == all[k + 1..]
    ensures End !in all[..k] && !all[k].End? ==> End !in all[..k + 1]
  {
    assert all[..k + 1] == all[..k] + [all[k]];
    ItemsAppend(all[..k], [all[k]]);
    assert [all[k]][1..] == [];
  }

  lemma {:induction false} DrainReads(s: Server, all: Script<HandlerMsg>, k: nat)
    requires ReadUpTo(s, all, k)
    ensures ChannelRead(DrainHandlerChan(s), all)
    decreases |all| - k
  {
    hide DrainHandlerChan, Items;
    if s.chan.None? {
      NothingToDrain(s);
      assert ReadUpTo(s, all, k);
    } else {
      DrainStep(s);
      if k == |all| {
        assert ReadUpTo(s, all, k);
      } else {
        ReadOne(all, k);
        if all[k].Item? {
          DrainReads(Consume(s.(chan := Some(s.chan.value[1..])), all[k].item), all, k + 1);
        } else if all[k].Pending? {
          assert ReadUpTo(s.(chan := Some(s.chan.value[1..])), all, k + 1);
        } else {
          assert all[k..][0] == all[k];
          assert ReadUpTo(s.(chan := None), all, k);
        }
      }
    }
  }

  lemma FeedReads(s: Server, all: Script<HandlerMsg>, more: Chan<HandlerMsg>)
    requires ChannelRead(s, all)
    ensures ChannelRead(s.(chan := if s.chan.None? then None else Some(s.chan.value + more)), all + more)
  {
    var k: nat :| ReadUpTo(s, all, k);
    assert (all + more)[..k] == all[..k] && (all + more)[k..] == all[k..] + more;
    assert ReadUpTo(s.(chan := if s.chan.None? then None else Some(s.chan.value + more)), all + more, k);
  }

  /** The registry channel, and what was consumed of it, are the same. */
  ghost predicate SameChannel(s: Server, t: Server) {
    t.log.consumed == s.log.consumed && t.chan == s.chan
  }

  lemma SameRead(s: Server, t: Server, all: Script<HandlerMsg>)
    requires SameChannel(s, t) && ChannelRead(s, all)
    ensures ChannelRead(t, all)
  {
    var k: nat :| ReadUpTo(s, all, k);
    assert ReadUpTo(t, all, k);
  }

  /** `handle_messages` drains the channel once, unless the retry of the parked payload fails. */
  lemma HandleMessagesChannel(w: World, c: Client)
    requires !ShouldShutDown(c)
    ensures SameChannel(if RetryParked(c).error.Some? then c.server else DrainHandlerChan(c.server),
                        HandleMessages(w, c).c.server)
  {
    hide PollTransportRx, PollOutgoing, DriveServer, DrainHandlerChan;
    var r1 := RetryParked(c);
    if r1.error.None? {
      DriveServerRegistry(r1.c);
      var r2 := DriveServer(r1.c);
      if r2.error.None? {
        RxRegistry(w, r2.c);
        OutgoingKeepsServer(w, PollTransportRx(w, r2.c).c);
      }
    }
  }

  lemma PollChannel(w: World, c: Client)
    ensures var d := Poll(w, c);
            SameChannel(c.server, d.server) || SameChannel(DrainHandlerChan(c.server), d.server)
  {
    hide PollTransportRx, HandleMessages, DrainHandlerChan;
    if ShouldShutDown(c) {
      RxRegistry(w, c);
    } else {
      HandleMessagesChannel(w, c);
      var r := HandleMessages(w, c);
      if r.error.Some? {
        RxRegistry(w, Enter(r.c, r.error.value));
      }
    }
  }

  lemma PollReads(w: World, c: Client, all: Script<HandlerMsg>)
    requires ChannelRead(c.server, all)
    ensures ChannelRead(Poll(w, c).server, all)
  {
    hide Poll, DrainHandlerChan;
    var k: nat :| ReadUpTo(c.server, all, k);
    DrainReads(c.server, all, k);
    PollChannel(w, c);
    var d := Poll(w, c);
    if SameChannel(c.server, d.server) {
      SameRead(c.server, d.server, all);
    } else {
      SameRead(DrainHandlerChan(c.server), d.server, all);
    }
  }

  lemma StepReads(w: World, c: Client, m: Move, all: Script<HandlerMsg>)
    requires ChannelRead(c.server, all)
    ensures ChannelRead(Step(w, c, m).server, all + (if m.DoFeed? then m.supply.handlerMsgs else []))
  {
    hide Poll;
    match m
    case DoPoll =>
      assert all + [] == all;
      PollReads(w, c, all);
    case DoFeed(f) => FeedReads(c.server, all, f.handlerMsgs);
  }

  lemma {:induction false} RegistryConsumes(w: World, net: Net, strong: Script<OutgoingMessage>,
      chan: Chan<HandlerMsg>, moves: seq<Move>)
    ensures ChannelRead(Run(w, InitClient(net, strong, chan), moves).server, ChannelIn(chan, moves))
  {
    if moves == [] {
      assert chan[..0] == [] && chan[0..] == chan;
      assert ReadUpTo(InitServer(chan), chan, 0);
    } else {
      hide Step, InitClient, ChannelRead;
      var n := |moves| - 1;
      RegistryConsumes(w, net, strong, chan, moves[..n]);
      StepReads(w, Run(w, InitClient(net, strong, chan), moves[..n]), moves[n], ChannelIn(chan, moves[..n]));
    }
  }

  /** The registry is a sequential map. Over any run the messages consumed are those its channel held
      up to some position, in order and without exception; the rest is still in it, unless its end
      was read. They are applied and answered in that order, and each request meets the registry as
      of the messages consumed before it. */
  lemma RegistryLinearises(w: World, net: Net, strong: Script<OutgoingMessage>, chan: Chan<HandlerMsg>,
      moves: seq<Move>)
    ensures var s := Run(w, InitClient(net, strong, chan), moves).server;
            var read := s.log.consumed;
            && ChannelRead(s, ChannelIn(chan, moves))
            && s.handlers == RegistryAfter(read)
            && |s.log.replies| == |read|
            && (forall i :: 0 <= i < |read| ==> Told(RegistryAfter(read[..i]), read[i], s.log.replies[i]))
            && (forall d :: d in s.log.dispatched ==>
                  d.seen <= |read| && d.handlers == RegistryAfter(read[..d.seen]))
  {
    hide Run, InitClient, Inv, Latch, ChannelRead, ChannelIn;
    RegistryConsumes(w, net, strong, chan, moves);
    InitOk(w, net, strong, chan);
    RunOk(w, InitClient(net, strong, chan), moves);
    RegistryKept(w, Run(w, InitClient(net, strong, chan), moves));
  }

  lemma RegistryKept(w: World, c: Client)
    requires Inv(w, c)
    ensures RegistryOk(c.server)
  {
  }

  // ----- the outgoing messages -----

  /** The server's messages as they arrive on the weak side. */
  ghost function ServerMessages(qs: seq<Enqueued>): seq<OutgoingMessage> {
    seq(|qs|, i requires 0 <= i < |qs| => SendResponse(qs[i].response))
  }

  lemma {:induction false} MessagesOf(responses: seq<Response>)
    ensures Items(AsItems(responses))
         == seq(|responses|, i requires 0 <= i < |responses| => SendResponse(responses[i]))
  {
    if responses != [] {
      MessagesOf(responses[1..]);
      assert AsItems(responses)[1..] == AsItems(responses[1..]);
    }
  }

  lemma MessagesGrow(before: seq<Enqueued>, after: seq<Enqueued>, sent: seq<Response>)
    requires before <= after && sent == Responses(after[|before|..])
    ensures ServerMessages(after) == ServerMessages(before) + Items(AsItems(sent))
  {
    MessagesOf(sent);
  }

  /** The messages dequeued merge those the callers handed in and those the server made; the others
      are still in the selector. */
  ghost predicate FlowOk(c: Client, callers: seq<OutgoingMessage>) {
    Selected(c.sel, c.h.dequeued, callers, ServerMessages(c.server.log.enqueued))
  }

  lemma EnqueueFlows(c: Client, d: Client, callers: seq<OutgoingMessage>, sent: seq<Response>)
    requires FlowOk(c, callers) && d.sel == Enqueue(c.sel, sent) && d.h.dequeued == c.h.dequeued
    requires c.server.log.enqueued <= d.server.log.enqueued
    requires sent == Responses(d.server.log.enqueued[|c.server.log.enqueued|..])
    ensures FlowOk(d, callers)
  {
    hide Selected, Items, AsItems;
    MessagesGrow(c.server.log.enqueued, d.server.log.enqueued, sent);
    SelectedMore(c.sel, c.h.dequeued, callers, ServerMessages(c.server.log.enqueued), [], AsItems(sent));
    NoItems<OutgoingMessage>();
    assert callers + [] == callers && c.sel.strong.script + [] == c.sel.strong.script;
  }

  lemma NoItems<T>()
    ensures Items<T>([]) == []
  {
  }

  /** Nothing the flow of messages depends on has changed. */
  ghost predicate SameFlow(c: Client, d: Client) {
    d.sel == c.sel && d.h.dequeued == c.h.dequeued && d.server.log.enqueued == c.server.log.enqueued
  }

  lemma RxPayloadFlows(w: World, c: Client, text: Text, callers: seq<OutgoingMessage>)
    requires FlowOk(c, callers)
    ensures FlowOk(HandleRxPayload(w, c, text).c, callers)
  {
    hide ProcessRequest, FlowOk;
    var d := HandleRxPayload(w, c, text).c;
    if Decode(text).InRequest? {
      var req := Decode(text).request;
      ProcessRequestFrame(w, c.server, req);
      EnqueueFlows(c, d, callers, ProcessRequest(w, c.server, req).sent);
    } else {
      SameFlowOk(c, d, callers);
    }
  }

  lemma SameFlowOk(c: Client, d: Client, callers: seq<OutgoingMessage>)
    requires FlowOk(c, callers) && SameFlow(c, d)
    ensures FlowOk(d, callers)
  {
  }

  lemma {:induction false} RxFlows(w: World, c: Client, callers: seq<OutgoingMessage>)
    requires FlowOk(c, callers)
    ensures FlowOk(PollTransportRx(w, c).c, callers)
    decreases |c.net.rx|
  {
    hide PollTransportRx, HandleRxPayload, FlowOk;
    RxStep(w, c);
    if Next(c.net.rx).Item? {
      SameFlowOk(c, Receive(c), callers);
      RxPayloadFlows(w, Receive(c), c.net.rx[0].item, callers);
      var r := HandleRxPayload(w, Receive(c), c.net.rx[0].item);
      if r.error.None? {
        RxFlows(w, r.c, callers);
      }
    } else {
      SameFlowOk(c, PollTransportRx(w, c).c, callers);
    }
  }

  /** One poll of the selector, and the message it yields dequeued. */
  lemma SelectorFlows(c: Client, d: Client, callers: seq<OutgoingMessage>)
    requires FlowOk(c, callers) && d.sel == c.sel.Step() && d.server == c.server
    requires d.h.dequeued == c.h.dequeued + (if c.sel.Ev().Item? then [c.sel.Ev().item] else [])
    ensures FlowOk(d, callers)
  {
    hide Selected;
    SelectedStep(c.sel, c.h.dequeued, callers, ServerMessages(c.server.log.enqueued));
  }

  lemma {:induction false} OutgoingFlows(w: World, c: Client, callers: seq<OutgoingMessage>)
    requires FlowOk(c, callers)
    ensures FlowOk(PollOutgoing(w, c).c, callers)
    decreases c.sel.Budget()
  {
    hide HandleClientPayload, FlowOk;
    if c.parked.None? {
      if c.sel.Ev().Item? {
        ItemCosts(c.sel);
        PayloadFrame(w, Dequeue(c), c.sel.Ev().item);
        var r := HandleClientPayload(w, Dequeue(c), c.sel.Ev().item);
        SelectorFlows(c, r.c, callers);
        if r.error.None? {
          OutgoingFlows(w, r.c, callers);
        }
      } else {
        assert c.h.dequeued + [] == c.h.dequeued;
        SelectorFlows(c, PollOutgoing(w, c).c, callers);
      }
    }
  }

  lemma DriveFlows(c: Client, callers: seq<OutgoingMessage>)
    requires FlowOk(c, callers)
    ensures FlowOk(DriveServer(c).c, callers)
  {
    hide FlowOk, PollServer;
    if !c.shuttingDown {
      PollServerFrame(c.server);
      EnqueueFlows(c, DriveServer(c).c, callers, PollServer(c.server).sent);
    }
  }

  lemma HandleMessagesFlows(w: World, c: Client, callers: seq<OutgoingMessage>)
    requires FlowOk(c, callers)
    ensures FlowOk(HandleMessages(w, c).c, callers)
  {
    hide FlowOk, DriveServer, PollTransportRx, PollOutgoing;
    var r1 := RetryParked(c);
    SameFlowOk(c, r1.c, callers);
    if r1.error.None? {
      var r2 := DriveServer(r1.c);
      DriveFlows(r1.c, callers);
      if r2.error.None? {
        var r3 := PollTransportRx(w, r2.c);
        RxFlows(w, r2.c, callers);
        if r3.error.None? {
          var r4 := PollOutgoing(w, r3.c);
          OutgoingFlows(w, r3.c, callers);
          SameFlowOk(r4.c, PollTransportTx(r4.c).c, callers);
        }
      }
    }
  }

  lemma ShutdownFlows(w: World, c: Client, callers: seq<OutgoingMessage>)
    requires FlowOk(c, callers)
    ensures FlowOk(HandleShutdown(w, c), callers)
  {
    hide FlowOk, PollTransportRx;
    RxFlows(w, c, callers);
    SameFlowOk(PollTransportRx(w, c).c, HandleShutdown(w, c), callers);
  }

  lemma PollFlows(w: World, c: Client, callers: seq<OutgoingMessage>)
    requires FlowOk(c, callers)
    ensures FlowOk(Poll(w, c), callers)
  {
    hide FlowOk, HandleMessages, HandleShutdown;
    if ShouldShutDown(c) {
      ShutdownFlows(w, c, callers);
    } else {
      HandleMessagesFlows(w, c, callers);
      var r := HandleMessages(w, c);
      if r.error.None? {
        SameFlowOk(r.c, Poll(w, c), callers);
      } else {
        SameFlowOk(r.c, Enter(r.c, r.error.value), callers);
        ShutdownFlows(w, Enter(r.c, r.error.value), callers);
      }
    }
  }

  lemma FeedFlows(c: Client, f: Supply, callers: seq<OutgoingMessage>)
    requires FlowOk(c, callers)
    ensures FlowOk(Feed(c, f), callers + Items(f.strong))
  {
    hide Selected, Items;
    var made := ServerMessages(c.server.log.enqueued);
    SelectedMore(c.sel, c.h.dequeued, callers, made, f.strong, []);
    NoItems<OutgoingMessage>();
    assert made + [] == made && c.sel.weak.script + [] == c.sel.weak.script;
  }

  lemma StepFlows(w: World, c: Client, m: Move, callers: seq<OutgoingMessage>)
    requires FlowOk(c, callers)
    ensures FlowOk(Step(w, c, m), callers + (if m.DoFeed? then Items(m.supply.strong) else []))
  {
    hide Poll, Feed, FlowOk;
    match m
    case DoPoll =>
      assert callers + [] == callers;
      PollFlows(w, c, callers);
    case DoFeed(f) => FeedFlows(c, f, callers);
  }

  /** Over any run the messages dequeued merge what the callers handed in with the responses the
      server enqueued, each in order; every other message still waits in the selector. */
  lemma {:induction false} DequeuedMerges(w: World, net: Net, strong: Script<OutgoingMessage>,
      chan: Chan<HandlerMsg>, moves: seq<Move>)
    ensures var c := Run(w, InitClient(net, strong, chan), moves);
            Selected(c.sel, c.h.dequeued, MessagesIn(strong, moves), ServerMessages(c.server.log.enqueued))
  {
    var c := Run(w, InitClient(net, strong, chan), moves);
    if moves != [] {
      hide Selected, Step, InitClient;
      var n := |moves| - 1;
      DequeuedMerges(w, net, strong, chan, moves[..n]);
      StepFlows(w, Run(w, InitClient(net, strong, chan), moves[..n]), moves[n], MessagesIn(strong, moves[..n]));
      assert FlowOk(c, MessagesIn(strong, moves));
    }
  }

  // ----- the transport stream -----

  lemma StepReceives(w: World, c: Client, m: Move)
    requires Inv(w, c) && Latch(c)
    ensures var d := Step(w, c, m);
            var fed := if m.DoFeed? then Items(m.supply.rx) else [];
            d.h.received + Items(d.net.rx) == c.h.received + Items(c.net.rx) + fed
  {
    hide Poll, Inv, Latch, Items;
    match m
    case DoPoll =>
      if c.h.progress.Running? {
        PollOk(w, c);
      }
    case DoFeed(f) => ItemsAppend(c.net.rx, f.rx);
  }

  /** Over any run the texts received, followed by those still in the stream, are those handed in. */
  lemma {:induction false} ReceivesAll(w: World, net: Net, strong: Script<OutgoingMessage>, chan: Chan<HandlerMsg>,
      moves: seq<Move>)
    ensures var c := Run(w, InitClient(net, strong, chan), moves);
            c.h.received + Items(c.net.rx) == TextsIn(net.rx, moves)
  {
    if moves != [] {
      hide Step, Inv, Latch, InitClient;
      var n := |moves| - 1;
      ReceivesAll(w, net, strong, chan, moves[..n]);
      InitOk(w, net, strong, chan);
      RunOk(w, InitClient(net, strong, chan), moves[..n]);
      StepReceives(w, Run(w, InitClient(net, strong, chan), moves[..n]), moves[n]);
    }
  }

  // ----- the sink -----

  /** The answers of a sink to `start_send`, without those that only put it off. */
  function Decisive(answers: seq<SendEv>): seq<SendEv> {
    if answers == [] then [] else
      var last := answers[|answers| - 1];
      Decisive(answers[..|answers| - 1]) + (if last.Refuse? then [] else [last])
  }

  function AnswersOf(offers: seq<Offer>): seq<SendEv> {
    seq(|offers|, i requires 0 <= i < |offers| => offers[i].answer)
  }

  /** Everything the sink answers to `start_send`, from the start to the end of a run. */
  function SendsIn(sends: seq<SendEv>, moves: seq<Move>): seq<SendEv> {
    if moves == [] then sends else
      var m := moves[|moves| - 1];
      SendsIn(sends, moves[..|moves| - 1]) + (if m.DoFeed? then m.supply.sends else [])
  }

  /** The answers recorded are those the sink has given of all it has to give. A sink with nothing to
      say refuses, so refusals alone do not tell. */
  ghost predicate SinkHeard(c: Client, all: seq<SendEv>) {
    && Suffix(all, c.net.sends)
    && Decisive(AnswersOf(c.h.offers)) == Decisive(Left(all, c.net.sends))
  }

  lemma DecisiveMore(answers: seq<SendEv>, ev: SendEv)
    ensures Decisive(answers + [ev]) == Decisive(answers) + (if ev.Refuse? then [] else [ev])
  {
    assert (answers + [ev])[..|answers|] == answers;
  }

  lemma OfferHeard(c: Client, d: Client, text: Text, all: seq<SendEv>)
    requires SinkHeard(c, all) && d.net.sends == Tail(c.net.sends)
    requires d.h.offers == c.h.offers + [Offer(text, NextSend(c.net))]
    ensures SinkHeard(d, all)
  {
    hide Decisive;
    DecisiveMore(AnswersOf(c.h.offers), NextSend(c.net));
    assert AnswersOf(d.h.offers) == AnswersOf(c.h.offers) + [NextSend(c.net)];
    if c.net.sends != [] {
      DecisiveMore(Left(all, c.net.sends), c.net.sends[0]);
      assert Left(all, d.net.sends) == Left(all, c.net.sends) + [c.net.sends[0]];
    } else {
      assert c.h.offers + [] == c.h.offers;
    }
  }

  /** Nothing is offered, or one text. */
  ghost predicate OffersOne(c: Client, d: Client) {
    || (d.net.sends == c.net.sends && d.h.offers == c.h.offers)
    || (d.net.sends == Tail(c.net.sends) && exists text :: d.h.offers == c.h.offers + [Offer(text, NextSend(c.net))])
  }

  lemma OneHeard(c: Client, d: Client, all: seq<SendEv>)
    requires SinkHeard(c, all) && OffersOne(c, d)
    ensures SinkHeard(d, all)
  {
    if !(d.net.sends == c.net.sends && d.h.offers == c.h.offers) {
      var text :| d.h.offers == c.h.offers + [Offer(text, NextSend(c.net))];
      OfferHeard(c, d, text, all);
    }
  }

  lemma PayloadOffers(w: World, c: Client, m: OutgoingMessage)
    ensures OffersOne(c, HandleClientPayload(w, c, m).c)
  {
    hide MethodText, NoteText, ResponseToText;
  }

  lemma RetryOffers(c: Client)
    ensures OffersOne(c, RetryParked(c).c)
  {
  }

  lemma {:induction false} OutgoingHeard(w: World, c: Client, all: seq<SendEv>)
    requires SinkHeard(c, all)
    ensures SinkHeard(PollOutgoing(w, c).c, all)
    decreases c.sel.Budget()
  {
    hide HandleClientPayload, SinkHeard, OffersOne;
    if c.parked.None? && c.sel.Ev().Item? {
      ItemCosts(c.sel);
      PayloadFrame(w, Dequeue(c), c.sel.Ev().item);
      PayloadOffers(w, Dequeue(c), c.sel.Ev().item);
      SilentHeard(c, Dequeue(c), all);
      var r := HandleClientPayload(w, Dequeue(c), c.sel.Ev().item);
      OneHeard(Dequeue(c), r.c, all);
      if r.error.None? {
        OutgoingHeard(w, r.c, all);
      }
    } else {
      SilentHeard(c, PollOutgoing(w, c).c, all);
    }
  }

  lemma SilentHeard(c: Client, d: Client, all: seq<SendEv>)
    requires SinkHeard(c, all) && d.net.sends == c.net.sends && d.h.offers == c.h.offers
    ensures SinkHeard(d, all)
  {
  }

  lemma MessagesHeard(w: World, c: Client, all: seq<SendEv>)
    requires SinkHeard(c, all)
    ensures SinkHeard(HandleMessages(w, c).c, all)
  {
    hide SinkHeard, PollServer, PollTransportRx, PollOutgoing, RetryParked, OffersOne;
    var r1 := RetryParked(c);
    RetryOffers(c);
    OneHeard(c, r1.c, all);
    if r1.error.None? {
      var r2 := DriveServer(r1.c);
      SilentHeard(r1.c, r2.c, all);
      if r2.error.None? {
        var r3 := PollTransportRx(w, r2.c);
        RxLeavesOut(w, r2.c);
        SilentHeard(r2.c, r3.c, all);
        if r3.error.None? {
          var r4 := PollOutgoing(w, r3.c);
          OutgoingHeard(w, r3.c, all);
          SilentHeard(r4.c, PollTransportTx(r4.c).c, all);
        }
      }
    }
  }

  /** A parked payload is offered again in every poll outside a shutdown, before anything else. */
  lemma RetriesFirst(w: World, c: Client)
    requires !ShouldShutDown(c) && c.parked.Some?
    ensures var offers := Poll(w, c).h.offers;
            c.h.offers + [Offer(c.parked.value, NextSend(c.net))] <= offers
  {
    hide HandleMessages, PollTransportRx;
    MessagesRetry(w, c);
    var r := HandleMessages(w, c);
    if r.error.Some? {
      RxLeavesOut(w, Enter(r.c, r.error.value));
    }
  }

  lemma MessagesRetry(w: World, c: Client)
    requires !ShouldShutDown(c) && c.parked.Some?
    ensures c.h.offers + [Offer(c.parked.value, NextSend(c.net))] <= HandleMessages(w, c).c.h.offers
  {
    hide PollServer, PollTransportRx, PollOutgoing;
    var r1 := RetryParked(c);
    var r2 := DriveServer(r1.c);
    RxLeavesOut(w, r2.c);
    OutgoingOffers(w, PollTransportRx(w, r2.c).c);
  }

  lemma {:induction false} OutgoingOffers(w: World, c: Client)
    ensures c.h.offers <= PollOutgoing(w, c).c.h.offers
    decreases c.sel.Budget()
  {
    hide HandleClientPayload;
    if c.parked.None? && c.sel.Ev().Item? {
      ItemCosts(c.sel);
      PayloadFrame(w, Dequeue(c), c.sel.Ev().item);
      PayloadOffers(w, Dequeue(c), c.sel.Ev().item);
      var r := HandleClientPayload(w, Dequeue(c), c.sel.Ev().item);
      if r.error.None? {
        OutgoingOffers(w, r.c);
      }
    }
  }

  lemma PollHeard(w: World, c: Client, all: seq<SendEv>)
    requires SinkHeard(c, all)
    ensures SinkHeard(Poll(w, c), all)
  {
    hide SinkHeard, HandleMessages, PollTransportRx;
    if ShouldShutDown(c) {
      RxLeavesOut(w, c);
      SilentHeard(c, Poll(w, c), all);
    } else {
      MessagesHeard(w, c, all);
      var r := HandleMessages(w, c);
      if r.error.Some? {
        RxLeavesOut(w, Enter(r.c, r.error.value));
      }
      SilentHeard(r.c, Poll(w, c), all);
    }
  }

  lemma StepHeard(w: World, c: Client, m: Move, all: seq<SendEv>)
    requires SinkHeard(c, all)
    ensures SinkHeard(Step(w, c, m), all + (if m.DoFeed? then m.supply.sends else []))
  {
    hide Poll;
    match m
    case DoPoll =>
      assert all + [] == all;
      PollHeard(w, c, all);
    case DoFeed(f) => LeftMore(all, c.net.sends, f.sends);
  }

  /** Over any run the answers recorded with the texts offered are those the sink gave, in order, up to
      refusals; what it has not answered yet is still to come. */
  lemma {:induction false} SinkAnswers(w: World, net: Net, strong: Script<OutgoingMessage>, chan: Chan<HandlerMsg>,
      moves: seq<Move>)
    ensures SinkHeard(Run(w, InitClient(net, strong, chan), moves), SendsIn(net.sends, moves))
  {
    if moves != [] {
      hide SinkHeard, Step, InitClient;
      var n := |moves| - 1;
      SinkAnswers(w, net, strong, chan, moves[..n]);
      StepHeard(w, Run(w, InitClient(net, strong, chan), moves[..n]), moves[n], SendsIn(net.sends, moves[..n]));
    }
  }
}
