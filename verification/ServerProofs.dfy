/** What the server part keeps: the registry is a sequential map, every request is accounted for, and
    no finished future is polled again while the server is healthy. */
module ServerProofs {
  import opened Futures
  import opened JsonRpc
  import opened Ids
  import opened ServerModel
  import opened DriverProofs

  // ----- the registry as a sequential map -----

  /** The registry after the messages `msgs`, taken one at a time in channel order. */
  ghost function RegistryAfter(msgs: seq<HandlerMsg>): Handlers {
    if msgs == [] then map[] else Register(RegistryAfter(msgs[..|msgs| - 1]), msgs[|msgs| - 1])
  }

  /** What the sender of a registry message is told: a name that is taken is refused with the handler
      given back, one that is not registered cannot be removed. */
  ghost predicate Told(hs: Handlers, msg: HandlerMsg, reply: Reply) {
    && reply.tx == msg.tx
    && match msg
       case AddHandler(name, handler, _) => reply.answer == (if name in hs then AlreadyExists(handler) else Added)
       case RemoveHandler(name, _) => reply.answer == (if name in hs then Removed(hs[name]) else NoHandler)
  }

  ghost predicate RegistryOk(s: Server) {
    && s.handlers == RegistryAfter(s.log.consumed)
    && |s.log.replies| == |s.log.consumed|
    && (forall i :: 0 <= i < |s.log.consumed| ==>
          Told(RegistryAfter(s.log.consumed[..i]), s.log.consumed[i], s.log.replies[i]))
    && (forall d :: d in s.log.dispatched ==>
          d.seen <= |s.log.consumed| && d.handlers == RegistryAfter(s.log.consumed[..d.seen]))
  }

  lemma AnswerTold(hs: Handlers, msg: HandlerMsg)
    ensures Told(hs, msg, AnswerTo(hs, msg))
  {
  }

  lemma RegistryStep(msgs: seq<HandlerMsg>, msg: HandlerMsg)
    ensures RegistryAfter(msgs + [msg]) == Register(RegistryAfter(msgs), msg)
  {
    assert (msgs + [msg])[..|msgs|] == msgs;
  }

  lemma ConsumeRegistry(s: Server, msg: HandlerMsg)
    requires RegistryOk(s)
    ensures RegistryOk(Consume(s, msg))
  {
    hide RegistryAfter, Register, Told, AnswerTo;
    var t := Consume(s, msg);
    assert t.log.consumed[..|s.log.consumed|] == s.log.consumed;
    RegistryStep(s.log.consumed, msg);
    AnswerTold(s.handlers, msg);
    forall i | 0 <= i < |t.log.consumed|
      ensures Told(RegistryAfter(t.log.consumed[..i]), t.log.consumed[i], t.log.replies[i])
    {
      if i < |s.log.consumed| {
        assert t.log.consumed[..i] == s.log.consumed[..i];
      }
    }
    forall d | d in t.log.dispatched
      ensures d.seen <= |t.log.consumed| && d.handlers == RegistryAfter(t.log.consumed[..d.seen])
    {
      assert t.log.consumed[..d.seen] == s.log.consumed[..d.seen];
    }
  }

  /** A handler is registered under a name exactly when some message added it while the name was
      free and no later message removed the name. */
  lemma {:induction false} RegisteredIff(msgs: seq<HandlerMsg>, name: string, h: Handler)
    ensures (name in RegistryAfter(msgs) && RegistryAfter(msgs)[name] == h)
            <==> exists i :: 0 <= i < |msgs| && AddsAt(msgs, i, name, h)
  {
    if msgs != [] {
      var n := |msgs| - 1;
      var front := msgs[..n];
      RegisteredIff(front, name, h);
      forall i | 0 <= i < n
        ensures AddsAt(msgs, i, name, h) <==> AddsAt(front, i, name, h) && !Removes(msgs[n], name)
      {
        assert msgs[..i] == front[..i];
      }
      if name in RegistryAfter(msgs) && RegistryAfter(msgs)[name] == h {
        if name in RegistryAfter(front) {
          var i :| 0 <= i < n && AddsAt(front, i, name, h);
          assert AddsAt(msgs, i, name, h);
        } else {
          assert AddsAt(msgs, n, name, h);
        }
      }
      if i :| 0 <= i < |msgs| && AddsAt(msgs, i, name, h) {
        if i < n {
          assert AddsAt(front, i, name, h);
        }
      }
    }
  }

  ghost predicate Removes(msg: HandlerMsg, name: string) {
    msg.RemoveHandler? && msg.name == name
  }

  ghost predicate AddsAt(msgs: seq<HandlerMsg>, i: nat, name: string, h: Handler)
    requires i < |msgs|
  {
    && msgs[i].AddHandler? && msgs[i].name == name && msgs[i].handler == h
    && name !in RegistryAfter(msgs[..i])
    && forall j :: i < j < |msgs| ==> !Removes(msgs[j], name)
  }

  // ----- conservation of requests -----

  ghost predicate Ascending(es: seq<Entry>) {
    forall i, j :: 0 <= i < j < |es| ==> es[i].key < es[j].key && es[i].driver.request < es[j].driver.request
  }

  /** The requests split into finished, failed and pending: a request is unsettled exactly when one
      live future in the table drives it; settled requests got the right answer or died for a reason. */
  ghost predicate Accounts(w: World, es: seq<Entry>, log: Log) {
    && |log.fates| == |log.dispatched|
    && (forall e :: e in es ==> EntryOk(w, e, log))
    && (forall r :: 0 <= r < |log.fates| && log.fates[r].Unsettled? ==> exists e :: e in es && e.driver.request == r)
    && (forall r :: 0 <= r < |log.fates| && log.fates[r].Answered? ==>
          RightAnswer(w, log.dispatched[r], r, log.fates[r].sent))
    && (forall r :: 0 <= r < |log.fates| && log.fates[r].Dead? ==>
          Blame(w, log.dispatched[r], r, log.fates[r].error))
  }

  ghost predicate EntryOk(w: World, e: Entry, log: Log) {
    && e.driver.request < |log.dispatched| == |log.fates|
    && (e.driver.Spent() <==> !log.fates[e.driver.request].Unsettled?)
    && (!e.driver.Spent() ==> DriverOk(w, log.dispatched[e.driver.request], e.driver))
  }

  /** The messages enqueued are exactly the answers of the finished requests, one each. */
  ghost predicate QueueOk(log: Log) {
    && (forall q :: q in log.enqueued ==>
          q.request < |log.fates| && log.fates[q.request] == Answered(Some(q.response)))
    && (forall r :: 0 <= r < |log.fates| && log.fates[r].Answered? && log.fates[r].sent.Some? ==>
          Enqueued(r, log.fates[r].sent.value) in log.enqueued)
    && (forall i, j :: 0 <= i < j < |log.enqueued| ==> log.enqueued[i].request != log.enqueued[j].request)
  }

  /** Keys are unique and below the counter. */
  ghost predicate KeysOk(s: Server) {
    && s.nextKey == Nth(s.log.pushes)
    && Ascending(s.pending)
    && forall e :: e in s.pending ==> e.key <= s.log.pushes
  }

  ghost predicate Ledger(w: World, s: Server) {
    KeysOk(s) && Accounts(w, s.pending, s.log) && QueueOk(s.log)
  }

  ghost predicate Healthy(es: seq<Entry>) {
    forall e :: e in es ==> !e.driver.Spent()
  }

  /** The invariant of the server. The bookkeeping by key needs the key counter not to have
      wrapped around. */
  ghost predicate ServerOk(w: World, s: Server) {
    && RegistryOk(s)
    && (s.log.pushes < U64 - 1 ==> Ledger(w, s))
  }

  // ----- draining the registry channel -----

  /** How the drain loop unfolds. */
  lemma DrainStep(s: Server)
    requires s.chan.Some?
    ensures match Next(s.chan.value)
            case Item(msg) =>
              DrainHandlerChan(s) == DrainHandlerChan(Consume(s.(chan := Some(s.chan.value[1..])), msg))
            case Pending => DrainHandlerChan(s) == s.(chan := Some(Rest(s.chan.value)))
            case End => DrainHandlerChan(s) == s.(chan := None)
  {
  }

  /** What a drain consumes, and whether it closes the channel. */
  lemma {:induction false} DrainConsumes(s: Server)
    ensures var t := DrainHandlerChan(s);
            && t.log.consumed == s.log.consumed + Ready(s)
            && (t.chan.None? <==> s.chan.None? || Stop(s.chan.value).End?)
            && (t.chan.Some? ==> Ready(s) + Items(t.chan.value) == Items(s.chan.value))
    decreases if s.chan.Some? then |s.chan.value| else 0
  {
    hide DrainHandlerChan;
    if s.chan.None? {
      NothingToDrain(s);
    } else {
      DrainStep(s);
      if Next(s.chan.value).Item? {
        var msg := s.chan.value[0].item;
        var t := Consume(s.(chan := Some(s.chan.value[1..])), msg);
        DrainConsumes(t);
        assert Ready(s) == [msg] + Ready(t);
        assert s.log.consumed + [msg] + Ready(t) == s.log.consumed + Ready(s);
        var u := DrainHandlerChan(t);
        if u.chan.Some? {
          assert Ready(s) + Items(u.chan.value) == [msg] + (Ready(t) + Items(u.chan.value));
        }
      }
    }
  }

  /** Draining consumes exactly the items of the channel up to the first other answer, in order; it
      closes the channel exactly if that answer is the end, and touches nothing but the registry and
      the channel. */
  lemma {:induction false} DrainFrame(s: Server)
    ensures var t := DrainHandlerChan(s);
            && t.pending == s.pending && t.nextKey == s.nextKey
            && t.log == s.log.(consumed := t.log.consumed, replies := t.log.replies)
            && t.log.consumed == s.log.consumed + Ready(s)
            && (t.chan.None? <==> s.chan.None? || Stop(s.chan.value).End?)
            && (t.chan.Some? ==>
                  && Drained(s.chan.value, t.chan.value)
                  && Ready(s) + Items(t.chan.value) == Items(s.chan.value))
    decreases if s.chan.Some? then |s.chan.value| else 0
  {
    hide DrainHandlerChan, Drained, Ready, Items, Stop;
    DrainConsumes(s);
    if s.chan.None? {
      NothingToDrain(s);
    } else {
      DrainStep(s);
      if Next(s.chan.value).Item? {
        var t := Consume(s.(chan := Some(s.chan.value[1..])), s.chan.value[0].item);
        DrainFrame(t);
        if DrainHandlerChan(t).chan.Some? {
          DrainedOnce(s.chan.value, DrainHandlerChan(t).chan.value);
        }
      } else {
        DrainedPending(s.chan.value);
      }
    }
  }

  /** The registry messages that are ready. */
  ghost function Ready(s: Server): seq<HandlerMsg> {
    if s.chan.Some? then ReadyItems(s.chan.value) else []
  }

  lemma NothingToDrain(s: Server)
    requires s.chan.None?
    ensures DrainHandlerChan(s) == s
  {
  }

  lemma DrainedPending<T>(s: Script<T>)
    requires !Next(s).Item?
    ensures Next(s).Pending? ==> Drained(s, Rest(s))
  {
  }

  lemma {:induction false} DrainRegistry(s: Server)
    requires RegistryOk(s)
    ensures RegistryOk(DrainHandlerChan(s))
    decreases if s.chan.Some? then |s.chan.value| else 0
  {
    if s.chan.Some? {
      DrainStep(s);
      if Next(s.chan.value).Item? {
        var t := s.(chan := Some(s.chan.value[1..]));
        ConsumeRegistry(t, s.chan.value[0].item);
        DrainRegistry(Consume(t, s.chan.value[0].item));
      }
    }
  }

  // ----- one poll of one future -----

  ghost function Driven(s: Server, i: nat): Server
    requires i < |s.pending|
  {
    var e := s.pending[i];
    var p := PollDriver(e.driver);
    s.(pending := s.pending[i := Entry(e.key, p.driver)], log := NotePoll(s.log, e.driver, p))
  }

  lemma DrivenAccounts(w: World, s: Server, i: nat)
    requires i < |s.pending| && !s.pending[i].driver.Spent()
    requires Ascending(s.pending) && Accounts(w, s.pending, s.log)
    ensures Ascending(Driven(s, i).pending) && Accounts(w, Driven(s, i).pending, Driven(s, i).log)
  {
    hide PollDriver, RightAnswer, Blame, DriverOk, Wait, FairNow;
    var e, t := s.pending[i], Driven(s, i);
    assert e in s.pending;
    var request := e.driver.request;
    PollDriverOk(w, s.log.dispatched[request], e.driver);
    var e' := t.pending[i];
    assert e' in t.pending;
    assert EntryOk(w, e', t.log);
    forall x | x in t.pending
      ensures EntryOk(w, x, t.log)
    {
      var j :| 0 <= j < |t.pending| && t.pending[j] == x;
      if j != i {
        assert s.pending[j] in s.pending;
      }
    }
    forall r | 0 <= r < |t.log.fates| && t.log.fates[r].Unsettled?
      ensures exists x :: x in t.pending && x.driver.request == r
    {
      if r != request {
        var x :| x in s.pending && x.driver.request == r;
        var j :| 0 <= j < |s.pending| && s.pending[j] == x;
        assert t.pending[j] == x;
      }
    }
  }

  lemma DrivenQueue(w: World, s: Server, i: nat)
    requires i < |s.pending| && !s.pending[i].driver.Spent()
    requires Accounts(w, s.pending, s.log) && QueueOk(s.log)
    ensures QueueOk(Driven(s, i).log)
  {
    hide PollDriver, RightAnswer, Blame, DriverOk, Wait, FairNow;
    var e, t := s.pending[i], Driven(s, i);
    assert e in s.pending && EntryOk(w, e, s.log);
    PollDriverOk(w, s.log.dispatched[e.driver.request], e.driver);
    forall q | q in t.log.enqueued
      ensures q.request < |t.log.fates| && t.log.fates[q.request] == Answered(Some(q.response))
    {
      if q in s.log.enqueued {
        assert q.request != e.driver.request;
      }
    }
    var p := PollDriver(e.driver);
    if p.sent.Some? {
      assert t.log.enqueued[|s.log.enqueued|] == Enqueued(e.driver.request, p.sent.value);
    }
    forall r | 0 <= r < |t.log.fates| && t.log.fates[r].Answered? && t.log.fates[r].sent.Some?
      ensures Enqueued(r, t.log.fates[r].sent.value) in t.log.enqueued
    {
      if r != e.driver.request {
        assert Enqueued(r, s.log.fates[r].sent.value) in s.log.enqueued;
      }
    }
    forall k, j | 0 <= k < j < |t.log.enqueued|
      ensures t.log.enqueued[k].request != t.log.enqueued[j].request
    {
      assert s.log.enqueued[k] in s.log.enqueued;
      if j == |s.log.enqueued| {
        assert s.log.fates[s.log.enqueued[k].request].Answered?;
      }
    }
  }

  lemma PollKeepsRequest(d: Driver)
    ensures PollDriver(d).driver.request == d.request
  {
  }

  lemma DrivenKeys(s: Server, i: nat)
    requires i < |s.pending| && KeysOk(s)
    ensures KeysOk(Driven(s, i))
  {
    hide NotePoll;
    var t := Driven(s, i);
    DrivenFrame(s, i);
    PollKeepsRequest(s.pending[i].driver);
    forall x | x in t.pending
      ensures x.key <= t.log.pushes
    {
      var j :| 0 <= j < |t.pending| && t.pending[j] == x;
      assert x.key == s.pending[j].key && s.pending[j] in s.pending;
    }
  }

  /** A poll of one live future keeps the books. */
  lemma DrivenOk(w: World, s: Server, i: nat)
    requires i < |s.pending| && !s.pending[i].driver.Spent() && Ledger(w, s)
    ensures Ledger(w, Driven(s, i))
  {
    DrivenAccounts(w, s, i);
    DrivenQueue(w, s, i);
    DrivenKeys(s, i);
  }

  // ----- dropping finished futures from the table -----

  lemma {:induction false} WithoutMembers(es: seq<Entry>, keys: seq<nat>)
    ensures forall e :: e in Without(es, keys) <==> e in es && e.key !in keys
  {
    if es != [] {
      WithoutMembers(es[1..], keys);
      assert es == [es[0]] + es[1..];
    }
  }

  lemma {:induction false} WithoutAscending(es: seq<Entry>, keys: seq<nat>)
    requires Ascending(es)
    ensures Ascending(Without(es, keys))
  {
    if es != [] {
      WithoutAscending(es[1..], keys);
      WithoutMembers(es[1..], keys);
      var rest := Without(es[1..], keys);
      forall j | 0 <= j < |rest|
        ensures es[0].key < rest[j].key && es[0].driver.request < rest[j].driver.request
      {
        assert rest[j] in es[1..];
        var k :| 0 <= k < |es[1..]| && es[1..][k] == rest[j];
        assert es[k + 1] == rest[j];
      }
    }
  }

  /** Entries up to position `i` are in `ready` exactly if finished; later ones are live. */
  ghost predicate ReadyOk(es: seq<Entry>, i: nat, ready: seq<nat>) {
    && (forall j :: 0 <= j < |es| ==> (es[j].driver.Spent() <==> j < i && es[j].key in ready))
    && (forall j :: i <= j < |es| ==> es[j].key !in ready)
  }

  lemma SweepOk(w: World, s: Server, ready: seq<nat>)
    requires Ledger(w, s) && ReadyOk(s.pending, |s.pending|, ready)
    ensures Ledger(w, s.(pending := Without(s.pending, ready)))
  {
    var es := Without(s.pending, ready);
    WithoutMembers(s.pending, ready);
    WithoutAscending(s.pending, ready);
    forall r | 0 <= r < |s.log.fates| && s.log.fates[r].Unsettled?
      ensures exists x :: x in es && x.driver.request == r
    {
      var x :| x in s.pending && x.driver.request == r;
      assert EntryOk(w, x, s.log);
      assert x in es;
    }
  }

  // ----- a round over the table -----

  ghost function ReadyAfter(s: Server, i: nat, ready: seq<nat>): seq<nat>
    requires i < |s.pending|
  {
    if PollDriver(s.pending[i].driver).verdict.Completed? then ready + [s.pending[i].key] else ready
  }

  ghost function SentBy(s: Server, i: nat): seq<Response>
    requires i < |s.pending|
  {
    PollDriver(s.pending[i].driver).sent.ToSeq()
  }

  lemma RoundStep(s: Server, i: nat, ready: seq<nat>, sent: seq<Response>)
    requires i < |s.pending|
    ensures PollFrom(s, i, ready, sent)
         == var v := PollDriver(s.pending[i].driver).verdict;
            if v.Failed? then ServerPoll(Driven(s, i), sent + SentBy(s, i), Some(v.error))
            else PollFrom(Driven(s, i), i + 1, ReadyAfter(s, i, ready), sent + SentBy(s, i))
  {
  }

  lemma RoundEnd(s: Server, i: nat, ready: seq<nat>, sent: seq<Response>)
    requires i >= |s.pending|
    ensures PollFrom(s, i, ready, sent) == ServerPoll(s.(pending := Without(s.pending, ready)), sent, None)
  {
  }

  lemma ReadyStep(s: Server, i: nat, ready: seq<nat>)
    requires i < |s.pending| && Ascending(s.pending) && ReadyOk(s.pending, i, ready)
    requires !PollDriver(s.pending[i].driver).verdict.Failed?
    ensures ReadyOk(Driven(s, i).pending, i + 1, ReadyAfter(s, i, ready))
  {
  }

  lemma {:induction false} PollFromOk(w: World, s: Server, i: nat, ready: seq<nat>, sent: seq<Response>)
    requires i <= |s.pending| && Ledger(w, s) && ReadyOk(s.pending, i, ready)
    ensures Ledger(w, PollFrom(s, i, ready, sent).server)
    decreases |s.pending| - i
  {
    hide PollFrom, PollDriver;
    if i == |s.pending| {
      RoundEnd(s, i, ready, sent);
      SweepOk(w, s, ready);
    } else {
      RoundStep(s, i, ready, sent);
      DrivenOk(w, s, i);
      if !PollDriver(s.pending[i].driver).verdict.Failed? {
        ReadyStep(s, i, ready);
        PollFromOk(w, Driven(s, i), i + 1, ReadyAfter(s, i, ready), sent + SentBy(s, i));
      }
    }
  }

  /** A round polls no finished future and, unless it fails, leaves none in the table. */
  lemma {:induction false} PollFromHealthy(s: Server, i: nat, ready: seq<nat>, sent: seq<Response>)
    requires i <= |s.pending|
    requires forall j :: i <= j < |s.pending| ==> !s.pending[j].driver.Spent()
    requires forall j :: 0 <= j < i && s.pending[j].driver.Spent() ==> s.pending[j].key in ready
    ensures var r := PollFrom(s, i, ready, sent);
            && r.server.log.repolls == s.log.repolls
            && (r.error.None? ==> Healthy(r.server.pending))
    decreases |s.pending| - i
  {
    hide PollFrom;
    if i == |s.pending| {
      RoundEnd(s, i, ready, sent);
      WithoutMembers(s.pending, ready);
    } else {
      RoundStep(s, i, ready, sent);
      if !PollDriver(s.pending[i].driver).verdict.Failed? {
        PollFromHealthy(Driven(s, i), i + 1, ReadyAfter(s, i, ready), sent + SentBy(s, i));
      }
    }
  }

  ghost function Responses(qs: seq<Enqueued>): seq<Response> {
    seq(|qs|, i requires 0 <= i < |qs| => qs[i].response)
  }

  /** From `s` to `t` only the table and the history of fates and messages changed, and `sent` is
      what was enqueued. */
  ghost predicate RoundFrame(s: Server, t: Server, sent: seq<Response>) {
    && t.handlers == s.handlers && t.chan == s.chan && t.nextKey == s.nextKey
    && t.log == s.log.(fates := t.log.fates, enqueued := t.log.enqueued, repolls := t.log.repolls)
    && s.log.enqueued <= t.log.enqueued
    && sent == Responses(t.log.enqueued[|s.log.enqueued|..])
  }

  lemma RoundFrameTwice(s: Server, t: Server, u: Server, a: seq<Response>, b: seq<Response>)
    requires RoundFrame(s, t, a) && RoundFrame(t, u, b)
    ensures RoundFrame(s, u, a + b)
  {
    var n := |s.log.enqueued|;
    assert u.log.enqueued[n..] == t.log.enqueued[n..] + u.log.enqueued[|t.log.enqueued|..];
  }

  lemma DrivenFrame(s: Server, i: nat)
    requires i < |s.pending|
    ensures RoundFrame(s, Driven(s, i), SentBy(s, i))
  {
  }

  /** A round touches only the table and the history of fates and messages; what it sends is what
      it enqueues. */
  lemma {:induction false} PollFromFrame(s: Server, i: nat, ready: seq<nat>,
      sent: seq<Response>) returns (more: seq<Response>)
    ensures PollFrom(s, i, ready, sent).sent == sent + more
    ensures RoundFrame(s, PollFrom(s, i, ready, sent).server, more)
    decreases |s.pending| - i
  {
    hide PollFrom, PollDriver;
    if i >= |s.pending| {
      more := [];
      RoundEnd(s, i, ready, sent);
    } else {
      var t, one := Driven(s, i), SentBy(s, i);
      RoundStep(s, i, ready, sent);
      DrivenFrame(s, i);
      if PollDriver(s.pending[i].driver).verdict.Failed? {
        more := one;
      } else {
        var rest := PollFromFrame(t, i + 1, ReadyAfter(s, i, ready), sent + one);
        var r := PollFrom(t, i + 1, ReadyAfter(s, i, ready), sent + one);
        RoundFrameTwice(s, t, r.server, one, rest);
        more := one + rest;
        assert (sent + one) + rest == sent + more;
      }
    }
  }

  // ----- one poll of the server -----

  /** One poll of a healthy server keeps the books, polls no finished future, and leaves none in
      the table unless it fails. */
  lemma PollServerOk(w: World, s: Server)
    requires ServerOk(w, s) && Healthy(s.pending)
    ensures var r := PollServer(s);
            && ServerOk(w, r.server)
            && r.server.log.repolls == s.log.repolls
            && (r.error.None? ==> Healthy(r.server.pending))
            && r.server.log.pushes == s.log.pushes
  {
    var t := DrainHandlerChan(s);
    DrainFrame(s);
    DrainRegistry(s);
    var more := PollFromFrame(t, 0, [], []);
    PollFromHealthy(t, 0, [], []);
    if s.log.pushes < U64 - 1 {
      assert Ledger(w, t);
      PollFromOk(w, t, 0, [], []);
    }
  }

  /** What a poll sends is what it adds to the history of messages. */
  lemma PollServerFrame(s: Server)
    ensures var r := PollServer(s);
            && s.log.enqueued <= r.server.log.enqueued
            && r.sent == Responses(r.server.log.enqueued[|s.log.enqueued|..])
            && r.server.log.dispatched == s.log.dispatched
            && r.server.log.pushes == s.log.pushes
  {
    DrainFrame(s);
    var more := PollFromFrame(DrainHandlerChan(s), 0, [], []);
    assert [] + more == more;
  }

  // ----- taking a request -----

  lemma {:induction false} PutLast(es: seq<Entry>, e: Entry)
    requires forall i :: 0 <= i < |es| ==> es[i].key < e.key
    ensures Put(es, e) == es + [e]
  {
    if es != [] {
      PutLast(es[1..], e);
    }
  }

  /** Inserting into the table: its keys stay in order, an entry under the same key is replaced, and
      every other entry stays. */
  lemma {:induction false} PutInserts(es: seq<Entry>, e: Entry)
    requires forall i, j :: 0 <= i < j < |es| ==> es[i].key < es[j].key
    ensures var fs := Put(es, e);
            && (forall i, j :: 0 <= i < j < |fs| ==> fs[i].key < fs[j].key)
            && (forall x :: x in fs <==> x == e || (x in es && x.key != e.key))
  {
    if es != [] && e.key > es[0].key {
      PutInserts(es[1..], e);
      var rest := Put(es[1..], e);
      forall j | 0 <= j < |rest|
        ensures es[0].key < rest[j].key
      {
        assert rest[j] in rest;
      }
      assert es == [es[0]] + es[1..];
    }
  }

  lemma {:induction false} PutMembers(es: seq<Entry>, e: Entry)
    ensures forall x :: x in Put(es, e) ==> x == e || x in es
  {
    if es != [] {
      PutMembers(es[1..], e);
    }
  }

  /** Taking a request keeps the books and leaves the table healthy; the request is answered on the
      spot or its driver is put in the table. */
  lemma ProcessRequestOk(w: World, s: Server, req: Request)
    requires ServerOk(w, s)
    ensures ServerOk(w, ProcessRequest(w, s, req).server)
    ensures Healthy(s.pending) ==> Healthy(ProcessRequest(w, s, req).server.pending)
  {
    var r := ProcessRequest(w, s, req);
    ProcessRequestHealthy(w, s, req);
    ProcessRequestRegistry(w, s, req);
    if r.server.log.pushes < U64 - 1 {
      assert s.log.pushes <= r.server.log.pushes;
      ProcessRequestLedger(w, s, req);
    }
  }

  lemma ProcessRequestHealthy(w: World, s: Server, req: Request)
    ensures Healthy(s.pending) ==> Healthy(ProcessRequest(w, s, req).server.pending)
    ensures ProcessRequest(w, s, req).server.log.repolls == s.log.repolls
  {
    var r := ProcessRequest(w, s, req);
    var d := NewDriver(w, s.handlers, req, |s.log.dispatched|);
    PutMembers(s.pending, Entry(s.nextKey, PollDriver(d).driver));
    var v := PollDriver(d).verdict;
    if v.Failed? {
      PutMembers(s.pending, Entry(s.nextKey, d.(phase := Stored(v.error))));
    }
  }

  lemma AdmitRegistry(s: Server, req: Request)
    requires RegistryOk(s)
    ensures RegistryOk(Admit(s, req))
  {
    assert s.log.consumed[..|s.log.consumed|] == s.log.consumed;
  }

  /** The registry part of a server is the same. */
  ghost predicate SameRegistry(s: Server, t: Server) {
    && t.handlers == s.handlers && t.log.consumed == s.log.consumed && t.log.replies == s.log.replies
    && t.log.dispatched == s.log.dispatched
  }

  lemma SameRegistryOk(s: Server, t: Server)
    requires RegistryOk(s) && SameRegistry(s, t)
    ensures RegistryOk(t)
  {
  }

  lemma ProcessRequestRegistry(w: World, s: Server, req: Request)
    requires RegistryOk(s)
    ensures RegistryOk(ProcessRequest(w, s, req).server)
  {
    hide NewDriver, PollDriver, RegistryOk;
    AdmitRegistry(s, req);
    SameRegistryOk(Admit(s, req), ProcessRequest(w, s, req).server);
  }

  lemma ProcessRequestFrame(w: World, s: Server, req: Request)
    ensures var r := ProcessRequest(w, s, req);
            && s.log.enqueued <= r.server.log.enqueued
            && r.sent == Responses(r.server.log.enqueued[|s.log.enqueued|..])
            && r.server.log.dispatched == s.log.dispatched + [Dispatch(req, s.handlers, |s.log.consumed|)]
            && s.log.pushes <= r.server.log.pushes
            && r.error.None?
  {
    NoSendOnFailure(NewDriver(w, s.handlers, req, |s.log.dispatched|));
  }

  lemma NoSendOnFailure(d: Driver)
    ensures PollDriver(d).verdict.Failed? ==> PollDriver(d).sent == None
  {
  }

  /** The books with request number `request` admitted, its fate set to `fate`, and `e` its entry. */
  lemma AdmitAccounts(w: World, s: Server, req: Request, fate: Fate, entry: Option<Driver>)
    requires Ascending(s.pending) && Accounts(w, s.pending, s.log)
    requires forall e :: e in s.pending ==> e.key < s.nextKey
    requires var d := Dispatch(req, s.handlers, |s.log.consumed|);
             var request := |s.log.dispatched|;
             match fate
             case Unsettled => entry.Some? && entry.value.request == request && !entry.value.Spent() && DriverOk(w,
                 d, entry.value)
             case Answered(sent) => entry.None? && RightAnswer(w, d, request, sent)
             case Dead(e) => false
    ensures var es := s.pending + (if entry.Some? then [Entry(s.nextKey, entry.value)] else []);
            var log := Admit(s, req).log.(fates := s.log.fates + [fate]);
            Ascending(es) && Accounts(w, es, log)
  {
    hide RightAnswer, Blame, DriverOk;
    var more := if entry.Some? then [Entry(s.nextKey, entry.value)] else [];
    var es := s.pending + more;
    var log := Admit(s, req).log.(fates := s.log.fates + [fate]);
    forall e | e in es
      ensures EntryOk(w, e, log)
    {
      if e in s.pending {
        assert EntryOk(w, e, s.log);
      }
    }
    forall i, j | 0 <= i < j < |es|
      ensures es[i].key < es[j].key && es[i].driver.request < es[j].driver.request
    {
      assert es[i] in s.pending && EntryOk(w, es[i], s.log);
    }
    forall r | 0 <= r < |log.fates| && log.fates[r].Unsettled?
      ensures exists x :: x in es && x.driver.request == r
    {
      if r < |s.log.fates| {
        var x :| x in s.pending && x.driver.request == r;
        assert x in es;
      } else {
        assert es[|s.pending|] in es;
      }
    }
  }

  lemma PushedKeys(s: Server, d: Driver)
    requires KeysOk(s) && s.log.pushes + 1 < U64 - 1
    requires forall e :: e in s.pending ==> e.driver.request < d.request
    ensures KeysOk(PushFuture(s, d))
    ensures PushFuture(s, d).pending == s.pending + [Entry(s.nextKey, d)]
  {
    PutLast(s.pending, Entry(s.nextKey, d));
    BumpCounts(s.log.pushes);
    var es := s.pending + [Entry(s.nextKey, d)];
    forall i, j | 0 <= i < j < |es|
      ensures es[i].key < es[j].key && es[i].driver.request < es[j].driver.request
    {
      assert es[i] in s.pending;
    }
  }

  /** A request whose driver goes into the table. */
  lemma PushedOk(w: World, s: Server, req: Request, v: Driver)
    requires Ledger(w, s) && s.log.pushes + 1 < U64 - 1
    requires v.request == |s.log.dispatched| && !v.Spent() && DriverOk(w, Dispatch(req, s.handlers,
        |s.log.consumed|), v)
    ensures Ledger(w, PushFuture(Admit(s, req), v))
  {
    hide RightAnswer, Blame, DriverOk;
    assert forall e :: e in s.pending ==> EntryOk(w, e, s.log);
    AdmitAccounts(w, s, req, Unsettled, Some(v));
    PushedKeys(Admit(s, req), v);
    AdmitQueue(s.log, Admit(s, req).log);
  }

  lemma AdmitQueue(log: Log, log': Log)
    requires QueueOk(log) && log'.fates == log.fates + [Unsettled] && log'.enqueued == log.enqueued
    ensures QueueOk(log')
  {
  }

  /** A request answered on the spot. */
  lemma AnsweredOk(w: World, s: Server, req: Request, v: Driver, p: Polled)
    requires Ledger(w, s) && s.log.pushes < U64 - 1
    requires v.request == |s.log.dispatched| && !v.Spent() && p.verdict.Completed?
    requires RightAnswer(w, Dispatch(req, s.handlers, |s.log.consumed|), v.request, p.sent)
    ensures Ledger(w, Admit(s, req).(log := NotePoll(Admit(s, req).log, v, p)))
  {
    hide RightAnswer, Blame, DriverOk, QueueOk;
    var log := NotePoll(Admit(s, req).log, v, p);
    assert forall e :: e in s.pending ==> EntryOk(w, e, s.log);
    AdmitAccounts(w, s, req, Answered(p.sent), None);
    assert s.pending + [] == s.pending;
    assert log.fates == s.log.fates + [Answered(p.sent)];
    AnsweredQueue(s.log, log, p.sent);
  }

  lemma AnsweredQueue(log: Log, log': Log, sent: Option<Response>)
    requires QueueOk(log) && log'.fates == log.fates + [Answered(sent)]
    requires log'.enqueued == log.enqueued + (if sent.Some? then [Enqueued(|log.fates|, sent.value)] else [])
    ensures QueueOk(log')
  {
    if sent.Some? {
      assert log'.enqueued[|log.enqueued|] == Enqueued(|log.fates|, sent.value);
    }
  }

  lemma ProcessRequestLedger(w: World, s: Server, req: Request)
    requires Ledger(w, s) && s.log.pushes < U64 - 1
    requires ProcessRequest(w, s, req).server.log.pushes < U64 - 1
    ensures Ledger(w, ProcessRequest(w, s, req).server)
  {
    var request := |s.log.dispatched|;
    var v := NewDriver(w, s.handlers, req, request);
    var p := PollDriver(v);
    var d := Dispatch(req, s.handlers, |s.log.consumed|);
    NewDriverOk(w, s.handlers, req, request, |s.log.consumed|);
    PollDriverOk(w, d, v);
    match p.verdict {
      case NotYet =>
        assert NotePoll(Admit(s, req).log, v, p) == Admit(s, req).log;
        PushedOk(w, s, req, p.driver);
      case Completed =>
        AnsweredOk(w, s, req, v, p);
      case Failed(e) =>
        PushedOk(w, s, req, v.(phase := Stored(e)));
    }
  }
}
