/** Every request gets its answer in time: at once if all its futures are ready, else after as many
    polls as they ask for, unless a poll of the server fails. And when a poll fails, which future it was. */
module ServerProgress {
  import opened Futures
  import opened JsonRpc
  import opened Ids
  import opened ServerModel
  import opened DriverProofs
  import opened ServerProofs

  // ----- requests answered on the spot -----

  /** Every future of the request is ready and succeeds, and so does the channel. */
  ghost predicate AllReady(w: World, d: Dispatch, request: nat) {
    var calls := CallsOf(d.request);
    && (forall i :: 0 <= i < |calls| ==> DelayOf(w, d.handlers, calls[i], request, i) == 0)
    && (forall e :: !SomeBreaks(w, d, request, e))
    && w.send(request) == SendPlan(0, true)
    && (d.request.Batch? ==>
          w.order(request) != [] && forall i :: 0 <= i < |calls| ==> i in w.order(request)[0])
  }

  lemma NewDriverFair(w: World, d: Dispatch, request: nat)
    requires AllReady(w, d, request)
    ensures FairNow(NewDriver(w, d.handlers, d.request, request))
  {
    hide Gives, Breaks, DelayOf;
    DispatchIs(w, d.handlers, d.request, request);
  }

  lemma ReadyDriver(w: World, d: Dispatch, request: nat)
    requires AllReady(w, d, request)
    ensures var p := PollDriver(NewDriver(w, d.handlers, d.request, request));
            p.verdict.Completed? && AnswerIs(w, d, request, p.sent)
  {
    var v := NewDriver(w, d.handlers, d.request, request);
    NewDriverOk(w, d.handlers, d.request, request, d.seen);
    NewDriverFair(w, d, request);
    PollDriverOk(w, d, v);
    WaitBound(w, d, v, 0);
    hide NewDriver, PollDriver, DriverOk, RightAnswer, Blame, AnswerIs, SomeBreaks;
    var p := PollDriver(v);
    if p.verdict.Completed? {
      RightAnswerIs(w, d, request, p.sent);
    } else if p.verdict.Failed? {
      BlameIs(w, d, request, p.verdict.error);
    }
  }

  /** A request all of whose futures are ready is answered when it is taken: what its calls give is
      enqueued, nothing is left in the table. */
  lemma AnsweredAtOnce(w: World, s: Server, req: Request)
    requires |s.log.fates| == |s.log.dispatched|
    requires AllReady(w, Dispatch(req, s.handlers, |s.log.consumed|), |s.log.dispatched|)
    ensures var n, r := |s.log.dispatched|, ProcessRequest(w, s, req);
            exists sent ::
              && AnswerIs(w, Dispatch(req, s.handlers, |s.log.consumed|), n, sent)
              && r.sent == sent.ToSeq()
              && r.server.log.fates == s.log.fates + [Answered(sent)]
              && r.server.log.enqueued == s.log.enqueued + (if sent.Some? then [Enqueued(n, sent.value)] else [])
              && r.server.pending == s.pending
  {
    var n, d := |s.log.dispatched|, Dispatch(req, s.handlers, |s.log.consumed|);
    ReadyDriver(w, d, n);
    hide PollDriver, AnswerIs, AllReady;
    var v := NewDriver(w, s.handlers, req, n);
    assert AnswerIs(w, d, n, PollDriver(v).sent);
  }

  /** For a single call: its output goes out as it is; a notification is done and nothing goes out. */
  lemma CallAnsweredAtOnce(w: World, s: Server, call: Call, out: Option<Output>)
    requires |s.log.fates| == |s.log.dispatched| && w.send(|s.log.dispatched|) == SendPlan(0, true)
    requires DelayOf(w, s.handlers, call, |s.log.dispatched|, 0) == 0
    requires Gives(w, s.handlers, call, |s.log.dispatched|, 0, out)
    ensures var r := ProcessRequest(w, s, Single(call));
            var sent: Option<Response> := if out.Some? then Some(One(out.value)) else None;
            && r.sent == sent.ToSeq() && r.server.pending == s.pending
            && r.server.log.fates == s.log.fates + [Answered(sent)]
  {
    var n, d := |s.log.dispatched|, Dispatch(Single(call), s.handlers, |s.log.consumed|);
    assert AllReady(w, d, n);
    AnsweredAtOnce(w, s, Single(call));
    hide ProcessRequest, AllReady;
    var sent: Option<Response> :| AnswerIs(w, d, n, sent) && ProcessRequest(w, s, Single(call)).sent == sent.ToSeq()
                && ProcessRequest(w, s, Single(call)).server.log.fates == s.log.fates + [Answered(sent)];
    var outs: seq<Option<Output>> :| OutsOf(w, d, n, outs) && Carries(d.request, outs, sent);
    assert outs == [outs[0]] && outs[..0] == [];
    assert Present(outs) == outs[0].ToSeq();
    assert outs[0] == out;
  }

  // ----- one round over the table -----

  /** Position `k` is the first from `i` on whose future fails, with `e`. */
  ghost predicate FailsFirst(es: seq<Entry>, i: nat, k: nat, e: Error) {
    && i <= k < |es| && PollDriver(es[k].driver).verdict == Failed(e)
    && forall j :: i <= j < k ==> !PollDriver(es[j].driver).verdict.Failed?
  }

  /** A round fails exactly if some future does, with the error of the first one, whose request is
      dead then. */
  lemma {:induction false} RoundError(s: Server, i: nat, ready: seq<nat>, sent: seq<Response>)
    ensures var r := PollFrom(s, i, ready, sent);
            match r.error
            case None => forall k :: i <= k < |s.pending| ==> !PollDriver(s.pending[k].driver).verdict.Failed?
            case Some(e) => exists k :: FailsFirst(s.pending, i, k, e) && Died(s, r.server, k, e)
    decreases |s.pending| - i
  {
    hide PollFrom, PollDriver;
    if i >= |s.pending| {
      RoundEnd(s, i, ready, sent);
    } else {
      RoundStep(s, i, ready, sent);
      var t := Driven(s, i);
      if PollDriver(s.pending[i].driver).verdict.Failed? {
        assert FailsFirst(s.pending, i, i, PollDriver(s.pending[i].driver).verdict.error);
      } else {
        var r := PollFrom(t, i + 1, ReadyAfter(s, i, ready), sent + SentBy(s, i));
        RoundError(t, i + 1, ReadyAfter(s, i, ready), sent + SentBy(s, i));
        assert forall j :: i < j < |s.pending| ==> t.pending[j] == s.pending[j];
        if r.error.Some? {
          var e := r.error.value;
          var k :| FailsFirst(t.pending, i + 1, k, e) && Died(t, r.server, k, e);
          assert FailsFirst(s.pending, i, k, e);
          assert Died(s, r.server, k, e);
        }
      }
    }
  }

  /** The request driven at position `k` is dead in `t`. */
  ghost predicate Died(s: Server, t: Server, k: nat, e: Error) {
    && k < |s.pending|
    && var r := s.pending[k].driver.request; r < |s.log.fates| ==> r < |t.log.fates| && t.log.fates[r] == Dead(e)
  }

  /** Only the fate of the request driven at position `i` changes. */
  lemma DrivenFates(s: Server, i: nat)
    requires i < |s.pending|
    ensures var t, e := Driven(s, i), s.pending[i];
            var r, p := e.driver.request, PollDriver(e.driver);
            && |t.pending| == |s.pending| && |t.log.fates| == |s.log.fates|
            && (forall q :: 0 <= q < |s.log.fates| && q != r ==> t.log.fates[q] == s.log.fates[q])
            && (r < |s.log.fates| && p.verdict.Completed? ==> t.log.fates[r] == Answered(p.sent))
            && (r < |s.log.fates| && p.verdict.NotYet? ==> t.log.fates[r] == s.log.fates[r])
  {
    hide PollDriver;
  }

  /** A round that does not fail kills no request. */
  lemma {:induction false} NobodyDies(s: Server, i: nat, ready: seq<nat>, sent: seq<Response>)
    ensures var r := PollFrom(s, i, ready, sent);
            r.error.None? ==>
              && |r.server.log.fates| == |s.log.fates|
              && forall q :: 0 <= q < |s.log.fates| && r.server.log.fates[q].Dead? ==> s.log.fates[q].Dead?
    decreases |s.pending| - i
  {
    hide PollFrom, PollDriver, Driven;
    if i >= |s.pending| {
      RoundEnd(s, i, ready, sent);
    } else {
      RoundStep(s, i, ready, sent);
      if !PollDriver(s.pending[i].driver).verdict.Failed? {
        DrivenFates(s, i);
        NobodyDies(Driven(s, i), i + 1, ReadyAfter(s, i, ready), sent + SentBy(s, i));
      }
    }
  }

  lemma DrivenAscending(s: Server, i: nat)
    requires i < |s.pending| && Ascending(s.pending)
    ensures Ascending(Driven(s, i).pending) && |Driven(s, i).pending| == |s.pending|
    ensures forall j :: 0 <= j < |s.pending| && j != i ==> Driven(s, i).pending[j] == s.pending[j]
    ensures Driven(s, i).pending[i] == Entry(s.pending[i].key, PollDriver(s.pending[i].driver).driver)
    ensures Driven(s, i).pending[i].driver.request == s.pending[i].driver.request
  {
    PollKeepsRequest(s.pending[i].driver);
  }

  ghost function Before(es: seq<Entry>, i: nat): seq<Entry> {
    if i <= |es| then es[..i] else es
  }

  /** The rest of a round leaves the entries before it alone, and the fates of requests they drive. */
  lemma {:induction false} RestOfRound(s: Server, i: nat, ready: seq<nat>, sent: seq<Response>, q: nat)
    requires Ascending(s.pending) && q < |s.log.fates|
    requires forall j :: i <= j < |s.pending| ==> s.pending[j].driver.request != q
    ensures var r := PollFrom(s, i, ready, sent);
            r.error.None? ==>
              && q < |r.server.log.fates| && r.server.log.fates[q] == s.log.fates[q]
              && forall e :: e in Before(s.pending, i) && e.key !in ready && e.driver.request == q ==>
                   e in r.server.pending
    decreases |s.pending| - i
  {
    hide PollFrom, PollDriver, Driven;
    if i >= |s.pending| {
      RoundEnd(s, i, ready, sent);
      WithoutMembers(s.pending, ready);
    } else {
      RoundStep(s, i, ready, sent);
      if !PollDriver(s.pending[i].driver).verdict.Failed? {
        DrivenFates(s, i);
        DrivenAscending(s, i);
        RestOfRound(Driven(s, i), i + 1, ReadyAfter(s, i, ready), sent + SentBy(s, i), q);
      }
    }
  }

  /** What a round that does not fail makes of the future polled as `p`. */
  ghost predicate PolledOnce(t: Server, e: Entry) {
    var p := PollDriver(e.driver);
    && e.driver.request < |t.log.fates|
    && (p.verdict.NotYet? ==> Entry(e.key, p.driver) in t.pending)
    && (p.verdict.Completed? ==> t.log.fates[e.driver.request] == Answered(p.sent))
    && !p.verdict.Failed?
  }

  lemma {:induction false} PolledInRound(s: Server, i: nat, ready: seq<nat>, sent: seq<Response>, j: nat)
    requires i <= j < |s.pending| && Ascending(s.pending) && ReadyOk(s.pending, i, ready)
    requires s.pending[j].driver.request < |s.log.fates|
    ensures var r := PollFrom(s, i, ready, sent);
            r.error.None? ==> PolledOnce(r.server, s.pending[j])
    decreases |s.pending| - i
  {
    hide PollFrom, PollDriver, Driven;
    RoundStep(s, i, ready, sent);
    if !PollDriver(s.pending[i].driver).verdict.Failed? {
      var t := Driven(s, i);
      DrivenFates(s, i);
      DrivenAscending(s, i);
      if i < j {
        ReadyStep(s, i, ready);
        PolledInRound(t, i + 1, ReadyAfter(s, i, ready), sent + SentBy(s, i), j);
      } else {
        RestOfRound(t, i + 1, ReadyAfter(s, i, ready), sent + SentBy(s, i), s.pending[j].driver.request);
      }
    }
  }

  // ----- a request on its way -----

  /** The future behind `e` drives request `r` and is done after at most `k` more polls that find it
      waiting. */
  ghost predicate DoneWithin(e: Entry, r: nat, k: int) {
    && e.driver.request == r && !e.driver.Spent()
    && Wait(e.driver) <= k && Fair(e.driver, k + 1)
  }

  ghost predicate OnTheWay(s: Server, r: nat, k: int) {
    && r < |s.log.fates|
    && (s.log.fates[r].Answered? || exists e :: e in s.pending && DoneWithin(e, r, k))
  }

  lemma AnsweredStays(w: World, s: Server, r: nat)
    requires Ledger(w, s) && Healthy(s.pending) && r < |s.log.fates| && s.log.fates[r].Answered?
    ensures var t := PollFrom(s, 0, [], []);
            t.error.None? ==> r < |t.server.log.fates| && t.server.log.fates[r].Answered?
  {
    hide PollFrom, DriverOk, RightAnswer, Blame;
    forall j | 0 <= j < |s.pending|
      ensures s.pending[j].driver.request != r
    {
      assert s.pending[j] in s.pending && EntryOk(w, s.pending[j], s.log);
    }
    RestOfRound(s, 0, [], [], r);
  }

  lemma WaitingAdvances(w: World, s: Server, e: Entry, r: nat, k: int)
    requires Ledger(w, s) && Healthy(s.pending) && e in s.pending && DoneWithin(e, r, k)
    ensures var t := PollFrom(s, 0, [], []);
            t.error.None? ==> OnTheWay(t.server, r, k - 1)
  {
    hide PollFrom, PollDriver, DriverOk, RightAnswer, Blame, Wait, FairNow;
    assert EntryOk(w, e, s.log);
    var j :| 0 <= j < |s.pending| && s.pending[j] == e;
    assert forall x :: x in s.pending ==> !x.driver.Spent();
    PolledInRound(s, 0, [], [], j);
    PollDriverOk(w, s.log.dispatched[r], e.driver);
    var t := PollFrom(s, 0, [], []);
    var p := PollDriver(e.driver);
    if t.error.None? && p.verdict.NotYet? {
      assert DoneWithin(Entry(e.key, p.driver), r, k - 1);
    }
  }

  /** A poll of the server that does not fail brings every request one poll closer to its answer. */
  lemma PollAdvances(w: World, s: Server, r: nat, k: int)
    requires ServerOk(w, s) && s.log.pushes < U64 - 1 && Healthy(s.pending) && OnTheWay(s, r, k)
    ensures PollServer(s).error.None? ==> OnTheWay(PollServer(s).server, r, k - 1)
  {
    hide PollFrom, DrainHandlerChan, DriverOk, RightAnswer, Blame, DoneWithin;
    var t := DrainHandlerChan(s);
    DrainFrame(s);
    assert Ledger(w, t);
    if s.log.fates[r].Answered? {
      AnsweredStays(w, t, r);
    } else {
      var e :| e in s.pending && DoneWithin(e, r, k);
      WaitingAdvances(w, t, e, r, k);
    }
  }

  lemma PushAppends(w: World, s: Server, v: Driver)
    requires Ledger(w, s) && s.log.pushes < U64 - 1
    ensures s.pending <= Put(s.pending, Entry(s.nextKey, v))
  {
    PutLast(s.pending, Entry(s.nextKey, v));
  }

  lemma NoteOneFate(log: Log, v: Driver, p: Polled)
    requires v.request == |log.fates|
    ensures var more := NotePoll(log.(fates := log.fates + [Unsettled]), v, p).fates;
            && log.fates <= more && |more| == |log.fates| + 1
            && (more[|log.fates|].Dead? <==> p.verdict.Failed?)
  {
  }

  /** Taking another request changes nothing about those already there. */
  lemma TakenAppends(w: World, s: Server, req: Request)
    requires ServerOk(w, s) && ProcessRequest(w, s, req).server.log.pushes < U64 - 1
    ensures var t := ProcessRequest(w, s, req).server;
            && s.pending <= t.pending && s.log.fates <= t.log.fates
            && |t.log.fates| == |s.log.fates| + 1 && !t.log.fates[|s.log.fates|].Dead?
  {
    var n := |s.log.dispatched|;
    var v := NewDriver(w, s.handlers, req, n);
    NewDriverOk(w, s.handlers, req, n, |s.log.consumed|);
    hide NewDriver, PollDriver, NotePoll, DriverOk, Put;
    var p := PollDriver(v);
    ProcessRequestFrame(w, s, req);
    assert Ledger(w, s);
    hide Ledger;
    PushAppends(w, s, p.driver);
    if p.verdict.Failed? {
      PushAppends(w, s, v.(phase := Stored(p.verdict.error)));
    }
    NoteOneFate(Admit(s, req).log.(fates := s.log.fates), v, p);
  }
}
