/** What a request comes to: its answer is the one its handlers gave, whatever the completion order,
    and it comes in as many polls as its futures ask for. */
module DriverProofs {
  import opened Futures
  import opened JsonRpc
  import opened ServerModel

  // ----- what is called, and what it gives -----

  function CallsOf(req: Request): seq<Call> {
    match req
    case Single(call) => [call]
    case Batch(calls) => calls
  }

  /** The call calls the method handler registered under its name. */
  predicate HasHandler(hs: Handlers, call: Call) {
    match call
    case Method(m) => m.name in hs && hs[m.name].MethodHandler?
    case Note(n) => n.name in hs && hs[n.name].NotificationHandler?
    case Invalid(_) => false
  }

  /** A call that succeeds comes to `out`: a method call to the output of its handler, or to
      method-not-found; an invalid call to invalid-request; a notification to nothing. */
  ghost predicate Gives(w: World, hs: Handlers, call: Call, request: nat, ix: nat, out: Option<Output>) {
    match call
    case Method(m) =>
      if HasHandler(hs, call) then out.Some? && w.onMethod(hs[m.name].h, m, request, ix).result == Ok(out.value)
      else out == Some(Failure(true, MethodNotFound, m.id))
    case Note(n) =>
      out == None && (HasHandler(hs, call) ==> w.onNote(hs[n.name].h, n, request, ix).result.Ok?)
    case Invalid(id) => out == Some(Failure(true, InvalidRequest, id))
  }

  /** The handler of a call fails with `e`. */
  ghost predicate Breaks(w: World, hs: Handlers, call: Call, request: nat, ix: nat, e: Error) {
    && HasHandler(hs, call)
    && match call
       case Method(m) => w.onMethod(hs[m.name].h, m, request, ix).result == Err(e)
       case Note(n) => w.onNote(hs[n.name].h, n, request, ix).result == Err(e)
  }

  /** How often the handler of a call answers that it is not ready; a call without one never does. */
  ghost function DelayOf(w: World, hs: Handlers, call: Call, request: nat, ix: nat): nat {
    if !HasHandler(hs, call) then 0 else
    match call
    case Method(m) => w.onMethod(hs[m.name].h, m, request, ix).delay
    case Note(n) => w.onNote(hs[n.name].h, n, request, ix).delay
    case Invalid(_) => 0
  }

  /** Every call is dispatched to its handler, if it has one, and to nothing else. */
  lemma DispatchIs(w: World, hs: Handlers, req: Request, request: nat)
    ensures var calls, futs := CallsOf(req), Futs(w, hs, req, request);
            && |futs| == |calls|
            && (forall i :: 0 <= i < |futs| ==> futs[i].delay == DelayOf(w, hs, calls[i], request, i))
            && (forall i, out :: 0 <= i < |futs| ==>
                  (futs[i].result == Ok(out) <==> Gives(w, hs, calls[i], request, i, out)))
            && (forall i, e :: 0 <= i < |futs| ==>
                  (futs[i].result == Err(e) <==> Breaks(w, hs, calls[i], request, i, e)))
  {
    var calls, futs := CallsOf(req), Futs(w, hs, req, request);
    forall i | 0 <= i < |calls|
      ensures futs[i] == HandleSingleCall(w, hs, calls[i], request, i)
    {
    }
    forall i | 0 <= i < |calls|
      ensures futs[i].delay == DelayOf(w, hs, calls[i], request, i)
      ensures forall out :: futs[i].result == Ok(out) <==> Gives(w, hs, calls[i], request, i, out)
      ensures forall e :: futs[i].result == Err(e) <==> Breaks(w, hs, calls[i], request, i, e)
    {
      OneDispatched(w, hs, calls[i], request, i);
    }
  }

  lemma OneDispatched(w: World, hs: Handlers, call: Call, request: nat, ix: nat)
    ensures var fut := HandleSingleCall(w, hs, call, request, ix);
            && fut.delay == DelayOf(w, hs, call, request, ix)
            && (forall out :: fut.result == Ok(out) <==> Gives(w, hs, call, request, ix, out))
            && (forall e :: fut.result == Err(e) <==> Breaks(w, hs, call, request, ix, e))
  {
  }

  // ----- what a request must be answered with -----

  /** The outputs of futures that all succeed. Order does not matter. */
  ghost function Outputs(futs: seq<Fut<Option<Output>>>): multiset<Output> {
    if futs == [] then multiset{} else Outputs(futs[..|futs| - 1]) + OutputOf(futs[|futs| - 1])
  }

  ghost function OutputOf(fut: Fut<Option<Output>>): multiset<Output> {
    if fut.result.Ok? && fut.result.value.Some? then multiset{fut.result.value.value} else multiset{}
  }

  /** The outputs of the members of a batch that are done. */
  ghost function Produced(futs: seq<Fut<Option<Output>>>, children: seq<Child>): multiset<Output>
    requires |children| == |futs|
  {
    if futs == [] then multiset{}
    else
      var n := |futs| - 1;
      Produced(futs[..n], children[..n]) + (if children[n].Gone? then OutputOf(futs[n]) else multiset{})
  }

  ghost function FutsOf(w: World, d: Dispatch, request: nat): seq<Fut<Option<Output>>> {
    Futs(w, d.handlers, d.request, request)
  }

  /** `sent` is the right answer: all handlers succeeded and it carries exactly their outputs; no
      message at all if there are none. */
  ghost predicate RightAnswer(w: World, d: Dispatch, request: nat, sent: Option<Response>) {
    var futs := FutsOf(w, d, request);
    && (forall i :: 0 <= i < |futs| ==> futs[i].result.Ok?)
    && (sent.None? <==> Outputs(futs) == multiset{})
    && (sent.Some? ==>
          if d.request.Single? then
            sent.value.One? && Outputs(futs) == multiset{sent.value.output}
          else
            sent.value.Many? && Outputs(futs) == multiset(sent.value.outputs))
  }

  /** `e` is why the request died: a handler's error, or the response channel is closed. */
  ghost predicate Blame(w: World, d: Dispatch, request: nat, e: Error) {
    var futs := FutsOf(w, d, request);
    || (exists i :: 0 <= i < |futs| && futs[i].result == Err(e))
    || (e == Shutdown && !w.send(request).open)
  }

  ghost predicate DriverOk(w: World, d: Dispatch, v: Driver) {
    var futs := FutsOf(w, d, v.request);
    && v.open == w.send(v.request).open && v.sendDelay == w.send(v.request).delay
    && match v.phase
       case AwaitOne(fut) => d.request.Single? && fut.result == futs[0].result && fut.delay <= futs[0].delay
       case AwaitAll(children, got, _) =>
         d.request.Batch? && ChildrenOk(futs, children) && multiset(got) == Produced(futs, children)
       case Sending(response, left) => RightAnswer(w, d, v.request, Some(response)) && left <= v.sendDelay
       case Stored(e) => Blame(w, d, v.request, e)
       case _ => true
  }

  ghost predicate ChildrenOk(futs: seq<Fut<Option<Output>>>, children: seq<Child>) {
    && |children| == |futs|
    && forall i :: 0 <= i < |futs| ==>
         if children[i].Live? then
           children[i].fut.result == futs[i].result && children[i].fut.delay <= futs[i].delay
         else
           futs[i].result.Ok?
  }

  lemma {:induction false} ProducedNone(futs: seq<Fut<Option<Output>>>, children: seq<Child>)
    requires |children| == |futs| && forall i :: 0 <= i < |children| ==> children[i].Live?
    ensures Produced(futs, children) == multiset{}
  {
    if futs != [] {
      var n := |futs| - 1;
      ProducedNone(futs[..n], children[..n]);
    }
  }

  lemma {:induction false} ProducedAll(futs: seq<Fut<Option<Output>>>, children: seq<Child>)
    requires |children| == |futs| && forall i :: 0 <= i < |children| ==> children[i].Gone?
    ensures Produced(futs, children) == Outputs(futs)
  {
    if futs != [] {
      var n := |futs| - 1;
      ProducedAll(futs[..n], children[..n]);
    }
  }

  lemma {:induction false} ProducedSame(futs: seq<Fut<Option<Output>>>, a: seq<Child>, b: seq<Child>)
    requires |a| == |futs| == |b| && forall i :: 0 <= i < |a| ==> a[i].Gone? == b[i].Gone?
    ensures Produced(futs, a) == Produced(futs, b)
  {
    if futs != [] {
      var n := |futs| - 1;
      ProducedSame(futs[..n], a[..n], b[..n]);
    }
  }

  lemma {:induction false} ProducedOneMore(futs: seq<Fut<Option<Output>>>, children: seq<Child>, k: nat)
    requires k < |children| == |futs| && children[k].Live?
    ensures Produced(futs, children[k := Gone]) == Produced(futs, children) + OutputOf(futs[k])
  {
    var n := |futs| - 1;
    var after := children[k := Gone];
    if k == n {
      assert after[..n] == children[..n];
    } else {
      assert after[..n] == children[..n][k := Gone] && after[n] == children[n];
      ProducedOneMore(futs[..n], children[..n], k);
    }
    assert Produced(futs, after)
        == Produced(futs[..n], after[..n]) + (if after[n].Gone? then OutputOf(futs[n]) else multiset{});
  }

  lemma {:induction false} OutputsGrow(children: seq<Child>, got: seq<Output>, order: seq<nat>)
    ensures got <= PollChildren(children, got, order).got
    decreases |order|
  {
    if order != [] {
      if order[0] >= |children| || children[order[0]].Gone? {
        OutputsGrow(children, got, order[1..]);
      } else {
        var i, fut := order[0], children[order[0]].fut;
        if fut.delay > 0 {
          OutputsGrow(children[i := Live(fut.(delay := fut.delay - 1))], got, order[1..]);
        } else if fut.result.Ok? {
          OutputsGrow(children[i := Gone], got + fut.result.value.ToSeq(), order[1..]);
        }
      }
    }
  }

  /** Confluence of one round: whatever the polling order, the outputs collected are those of the
      members that are done, new ones behind earlier ones. */
  lemma {:induction false} PollChildrenOk(futs: seq<Fut<Option<Output>>>, children: seq<Child>, got: seq<Output>,
                                         order: seq<nat>)
    requires ChildrenOk(futs, children) && multiset(got) == Produced(futs, children)
    ensures var r := PollChildren(children, got, order);
            && ChildrenOk(futs, r.children) && multiset(r.got) == Produced(futs, r.children) && got <= r.got
            && (r.error.Some? ==> exists i :: 0 <= i < |futs| && futs[i].result == Err(r.error.value))
    decreases |order|
  {
    hide Produced;
    OutputsGrow(children, got, order);
    if order != [] {
      if order[0] >= |children| || children[order[0]].Gone? {
        PollChildrenOk(futs, children, got, order[1..]);
      } else {
        var i, fut := order[0], children[order[0]].fut;
        if fut.delay > 0 {
          var next := children[i := Live(fut.(delay := fut.delay - 1))];
          ProducedSame(futs, children, next);
          PollChildrenOk(futs, next, got, order[1..]);
        } else if fut.result.Err? {
          assert futs[i].result == Err(fut.result.error);
        } else {
          ProducedOneMore(futs, children, i);
          var out := fut.result.value.ToSeq();
          assert multiset(got + out) == multiset(got) + OutputOf(futs[i]);
          PollChildrenOk(futs, children[i := Gone], got + out, order[1..]);
        }
      }
    }
  }

  /** The fate of a request after its driver was polled once. */
  ghost predicate PolledOk(w: World, d: Dispatch, p: Polled, request: nat) {
    && p.driver.request == request
    && match p.verdict
       case NotYet => p.sent == None && !p.driver.Spent() && DriverOk(w, d, p.driver)
       case Completed => p.driver.phase.Finished? && RightAnswer(w, d, request, p.sent)
       case Failed(e) => p.sent == None && p.driver.phase.Broken? && Blame(w, d, request, e)
  }

  lemma PollSendOk(w: World, d: Dispatch, v: Driver, response: Response, left: nat)
    requires v.open == w.send(v.request).open && v.sendDelay == w.send(v.request).delay
    requires RightAnswer(w, d, v.request, Some(response)) && left <= v.sendDelay
    ensures PolledOk(w, d, PollSend(v, response, left), v.request)
  {
  }

  lemma AwaitOneOk(w: World, d: Dispatch, v: Driver)
    requires v.phase.AwaitOne? && DriverOk(w, d, v)
    ensures PolledOk(w, d, PollDriver(v), v.request)
  {
    var futs, fut := FutsOf(w, d, v.request), v.phase.fut;
    assert futs[..0] == [];
    assert Outputs(futs) == OutputOf(futs[0]);
    if fut.delay == 0 && fut.result.Err? {
      assert futs[0].result == Err(fut.result.error);
    } else if fut.delay == 0 && fut.result.value.Some? {
      PollSendOk(w, d, v, One(fut.result.value.value), v.sendDelay);
    }
  }

  lemma AwaitAllOk(w: World, d: Dispatch, v: Driver)
    requires v.phase.AwaitAll? && DriverOk(w, d, v)
    ensures PolledOk(w, d, PollDriver(v), v.request)
  {
    hide PollChildren, RightAnswer, Produced, FutsOf;
    var futs := FutsOf(w, d, v.request);
    var AwaitAll(children, got, order) := v.phase;
    var now := if order == [] then [] else order[0];
    PollChildrenOk(futs, children, got, now);
    var round := PollChildren(children, got, now);
    if round.error.None? && !AnyLive(round.children) {
      AllGoneAnswer(w, d, v.request, round.children, round.got);
      if round.got != [] {
        PollSendOk(w, d, v, Many(round.got), v.sendDelay);
      }
    }
  }

  lemma AllGoneAnswer(w: World, d: Dispatch, request: nat, children: seq<Child>, got: seq<Output>)
    requires d.request.Batch? && !AnyLive(children)
    requires ChildrenOk(FutsOf(w, d, request), children) && multiset(got) == Produced(FutsOf(w, d, request), children)
    ensures RightAnswer(w, d, request, if got == [] then None else Some(Many(got)))
  {
    ProducedAll(FutsOf(w, d, request), children);
    if got != [] {
      assert got[0] in multiset(got);
    }
  }

  // ----- how long it takes -----

  /** The longest any member of a batch still has to wait for. */
  ghost function Longest(children: seq<Child>): nat {
    if children == [] then 0 else
      var n := |children| - 1;
      var rest := Longest(children[..n]);
      if children[n].Live? && children[n].fut.delay > rest then children[n].fut.delay else rest
  }

  /** How many more polls of a driver may find it waiting: for its handlers, then for the channel. */
  ghost function Wait(v: Driver): nat {
    match v.phase
    case AwaitOne(fut) => fut.delay + (if fut.result.Ok? && fut.result.value.Some? then v.sendDelay else 0)
    case AwaitAll(children, _, _) => Longest(children) + v.sendDelay
    case Sending(_, left) => left
    case _ => 0
  }

  /** The next round of a batch reaches every member that is still live. */
  ghost predicate FairNow(v: Driver) {
    v.phase.AwaitAll? ==>
      && v.phase.order != []
      && forall i :: 0 <= i < |v.phase.children| && v.phase.children[i].Live? ==> i in v.phase.order[0]
  }

  /** So do the next `n` rounds. */
  ghost predicate Fair(v: Driver, n: nat)
    decreases n
  {
    n == 0 || (FairNow(v) && Fair(PollDriver(v).driver, n - 1))
  }

  lemma {:induction false} LongestIs(children: seq<Child>, k: nat)
    ensures Longest(children) <= k <==>
              forall i :: 0 <= i < |children| && children[i].Live? ==> children[i].fut.delay <= k
  {
    if children != [] {
      var n := |children| - 1;
      LongestIs(children[..n], k);
      assert forall i :: 0 <= i < n ==> children[..n][i] == children[i];
    }
  }

  /** A round brings every live member it reaches closer to its result. */
  lemma {:induction false} RoundCloser(children: seq<Child>, got: seq<Output>, order: seq<nat>)
    ensures var r := PollChildren(children, got, order);
            && |r.children| == |children|
            && (r.error.None? ==> forall i :: 0 <= i < |children| && r.children[i].Live? ==>
                  && children[i].Live? && r.children[i].fut.delay <= children[i].fut.delay
                  && (i in order ==> r.children[i].fut.delay < children[i].fut.delay))
    decreases |order|
  {
    if order != [] {
      if order[0] >= |children| || children[order[0]].Gone? {
        RoundCloser(children, got, order[1..]);
      } else {
        var i, fut := order[0], children[order[0]].fut;
        if fut.delay > 0 {
          RoundCloser(children[i := Live(fut.(delay := fut.delay - 1))], got, order[1..]);
        } else if fut.result.Ok? {
          RoundCloser(children[i := Gone], got + fut.result.value.ToSeq(), order[1..]);
        }
      }
    }
  }

  lemma AllCloser(before: seq<Child>, after: seq<Child>)
    requires |after| == |before| && AnyLive(after)
    requires forall i :: 0 <= i < |after| && after[i].Live? ==>
               before[i].Live? && after[i].fut.delay < before[i].fut.delay
    ensures Longest(after) < Longest(before)
  {
    var i :| 0 <= i < |after| && after[i].Live?;
    LongestIs(before, Longest(before));
    LongestIs(after, Longest(before) - 1);
  }

  /** A driver that is not a batch waits exactly as often as its future and the channel ask for; a
      batch at most that often, if its rounds reach its live members. */
  lemma PollCloser(v: Driver)
    requires !v.Spent()
    ensures var p := PollDriver(v);
            && (FairNow(v) && p.verdict.NotYet? ==> Wait(p.driver) < Wait(v))
            && (!v.phase.AwaitAll? ==> (p.verdict.NotYet? <==> Wait(v) > 0))
            && (!v.phase.AwaitAll? && p.verdict.NotYet? ==> Wait(p.driver) == Wait(v) - 1)
  {
    if v.phase.AwaitAll? && FairNow(v) {
      hide PollChildren, Longest;
      var AwaitAll(children, got, order) := v.phase;
      RoundCloser(children, got, order[0]);
      var round := PollChildren(children, got, order[0]);
      if round.error.None? && AnyLive(round.children) {
        AllCloser(children, round.children);
      }
    }
  }

  /** A driver in the table has to wait no longer than its handlers and the channel made it. */
  lemma WaitBound(w: World, d: Dispatch, v: Driver, k: nat)
    requires !v.Spent() && DriverOk(w, d, v)
    requires var calls := CallsOf(d.request);
             forall i :: 0 <= i < |calls| ==> DelayOf(w, d.handlers, calls[i], v.request, i) <= k
    ensures Wait(v) <= k + w.send(v.request).delay
  {
    hide RightAnswer, Blame, Produced, Futs, Gives, Breaks, DelayOf, Longest;
    DispatchIs(w, d.handlers, d.request, v.request);
    var futs := FutsOf(w, d, v.request);
    if v.phase.AwaitAll? {
      LongestIs(v.phase.children, k);
    }
  }

  /** One poll of a driver: it goes on waiting, in good order, only if its futures make it; else it is
      done with the right answer sent, or broken for a reason. */
  lemma PollDriverOk(w: World, d: Dispatch, v: Driver)
    requires !v.Spent() && DriverOk(w, d, v)
    ensures var p := PollDriver(v);
            && PolledOk(w, d, p, v.request)
            && (FairNow(v) && p.verdict.NotYet? ==> Wait(p.driver) < Wait(v))
            && (!v.phase.AwaitAll? ==> (p.verdict.NotYet? <==> Wait(v) > 0))
  {
    hide Wait, FairNow;
    PollCloser(v);
    match v.phase
    case AwaitOne(_) => AwaitOneOk(w, d, v);
    case AwaitAll(_, _, _) => AwaitAllOk(w, d, v);
    case Sending(response, left) => PollSendOk(w, d, v, response, left);
    case _ =>
  }

  lemma NewDriverOk(w: World, hs: Handlers, req: Request, request: nat, seen: nat)
    ensures DriverOk(w, Dispatch(req, hs, seen), NewDriver(w, hs, req, request))
    ensures !NewDriver(w, hs, req, request).Spent()
    ensures NewDriver(w, hs, req, request).request == request
  {
    var v := NewDriver(w, hs, req, request);
    if req.Batch? {
      ProducedNone(Futs(w, hs, req, request), v.phase.children);
    }
  }

  /** Handlers answer with the id of the call they were given. */
  ghost predicate Echoes(w: World) {
    forall h, m, request, ix :: w.onMethod(h, m, request, ix).result.Ok? ==>
      w.onMethod(h, m, request, ix).result.value.id == m.id
  }

  /** The outputs in the order of the calls. */
  ghost function InOrder(futs: seq<Fut<Option<Output>>>): seq<Output> {
    if futs == [] then [] else
      var last := futs[|futs| - 1];
      InOrder(futs[..|futs| - 1]) + (if last.result.Ok? then last.result.value.ToSeq() else [])
  }

  lemma {:induction false} InOrderIsOutputs(futs: seq<Fut<Option<Output>>>)
    ensures multiset(InOrder(futs)) == Outputs(futs)
  {
    if futs != [] {
      InOrderIsOutputs(futs[..|futs| - 1]);
    }
  }

  function IdOf(call: Call): Id
    requires !call.Note?
  {
    match call
    case Method(m) => m.id
    case Invalid(id) => id
  }

  /** `outputs` answers `calls` one by one, and with their ids if `echo`. */
  ghost predicate Answers(outputs: seq<Output>, calls: seq<Call>, echo: bool) {
    && |outputs| == |calls|
    && forall i :: 0 <= i < |calls| && echo ==> !calls[i].Note? && outputs[i].id == IdOf(calls[i])
  }

  /** As section 6 of the JSON-RPC 2.0 specification has it, a batch answer holds one output for
      each method call and each invalid member, with its id if the handlers echo it, and none for a
      notification. */
  lemma OneOutputPerCall(w: World, hs: Handlers, calls: seq<Call>, request: nat)
    requires forall i :: 0 <= i < |calls| ==> HandleSingleCall(w, hs, calls[i], request, i).result.Ok?
    ensures Answers(InOrder(Futs(w, hs, Batch(calls), request)), NonNotes(calls), Echoes(w))
  {
    var futs := Futs(w, hs, Batch(calls), request);
    forall i | 0 <= i < |calls|
      ensures futs[i].result.Ok? && (futs[i].result.value.None? <==> calls[i].Note?)
      ensures Echoes(w) && !calls[i].Note? ==> futs[i].result.value.value.id == IdOf(calls[i])
    {
      EchoOne(w, hs, calls[i], request, i);
    }
    OneByOne(futs, calls, Echoes(w));
  }

  lemma EchoOne(w: World, hs: Handlers, call: Call, request: nat, ix: nat)
    ensures var r := HandleSingleCall(w, hs, call, request, ix).result;
            r.Ok? ==> (r.value.None? <==> call.Note?)
                      && (Echoes(w) && !call.Note? ==> r.value.value.id == IdOf(call))
  {
  }

  lemma {:induction false} OneByOne(futs: seq<Fut<Option<Output>>>, calls: seq<Call>, echo: bool)
    requires |futs| == |calls|
    requires forall i :: 0 <= i < |calls| ==> futs[i].result.Ok? && (futs[i].result.value.None? <==> calls[i].Note?)
    requires forall i :: 0 <= i < |calls| && echo && !calls[i].Note? ==> futs[i].result.value.value.id == IdOf(calls[i])
    ensures Answers(InOrder(futs), NonNotes(calls), echo)
  {
    if calls != [] {
      var n := |calls| - 1;
      OneByOne(futs[..n], calls[..n], echo);
    }
  }

  ghost function NonNotes(calls: seq<Call>): seq<Call> {
    if calls == [] then [] else
      var n := |calls| - 1;
      NonNotes(calls[..n]) + (if calls[n].Note? then [] else [calls[n]])
  }

  // ----- the answer, call by call -----

  function Present(outs: seq<Option<Output>>): seq<Output> {
    if outs == [] then [] else Present(outs[..|outs| - 1]) + outs[|outs| - 1].ToSeq()
  }

  /** `outs` is what the calls of a request give, one by one. */
  ghost predicate OutsOf(w: World, d: Dispatch, request: nat, outs: seq<Option<Output>>) {
    var calls := CallsOf(d.request);
    && |outs| == |calls|
    && forall i :: 0 <= i < |calls| ==> Gives(w, d.handlers, calls[i], request, i, outs[i])
  }

  /** `sent` carries `outs`: a single output as it is, those of a batch in one message and in any
      order; nothing is sent if there are none. */
  ghost predicate Carries(req: Request, outs: seq<Option<Output>>, sent: Option<Response>) {
    if Present(outs) == [] then sent == None
    else if req.Single? then sent == Some(One(Present(outs)[0]))
    else sent.Some? && sent.value.Many? && multiset(sent.value.outputs) == multiset(Present(outs))
  }

  /** `sent` is what the calls of the request give. */
  ghost predicate AnswerIs(w: World, d: Dispatch, request: nat, sent: Option<Response>) {
    exists outs :: OutsOf(w, d, request, outs) && Carries(d.request, outs, sent)
  }

  /** Some call of the request fails with `e`. */
  ghost predicate SomeBreaks(w: World, d: Dispatch, request: nat, e: Error) {
    var calls := CallsOf(d.request);
    exists i :: 0 <= i < |calls| && Breaks(w, d.handlers, calls[i], request, i, e)
  }

  lemma {:induction false} PresentIs(futs: seq<Fut<Option<Output>>>, outs: seq<Option<Output>>)
    requires |futs| == |outs| && forall i :: 0 <= i < |futs| ==> futs[i].result == Ok(outs[i])
    ensures InOrder(futs) == Present(outs)
  {
    if futs != [] {
      var n := |futs| - 1;
      PresentIs(futs[..n], outs[..n]);
    }
  }

  lemma OutsGiven(w: World, d: Dispatch, request: nat) returns (outs: seq<Option<Output>>)
    requires var futs := FutsOf(w, d, request); forall i :: 0 <= i < |futs| ==> futs[i].result.Ok?
    ensures var futs := FutsOf(w, d, request);
            |outs| == |futs| && forall i :: 0 <= i < |futs| ==> futs[i].result == Ok(outs[i])
    ensures OutsOf(w, d, request, outs)
  {
    hide Gives, Breaks, Futs, DelayOf;
    DispatchIs(w, d.handlers, d.request, request);
    var futs := FutsOf(w, d, request);
    outs := seq(|futs|, i requires 0 <= i < |futs| => futs[i].result.value);
  }

  lemma RightAnswerIs(w: World, d: Dispatch, request: nat, sent: Option<Response>)
    requires RightAnswer(w, d, request, sent)
    ensures AnswerIs(w, d, request, sent)
  {
    hide FutsOf, OutsOf, Present, Outputs, InOrder;
    var futs := FutsOf(w, d, request);
    var outs := OutsGiven(w, d, request);
    PresentIs(futs, outs);
    InOrderIsOutputs(futs);
    SameCarried(d.request, Present(outs), sent);
    assert Carries(d.request, outs, sent);
  }

  lemma SameCarried(req: Request, outputs: seq<Output>, sent: Option<Response>)
    requires sent.None? <==> multiset(outputs) == multiset{}
    requires sent.Some? ==> if req.Single? then sent.value.One? && multiset(outputs) == multiset{sent.value.output}
                            else sent.value.Many? && multiset(outputs) == multiset(sent.value.outputs)
    ensures sent.None? <==> outputs == []
    ensures sent.Some? && req.Single? ==> sent == Some(One(outputs[0]))
  {
    if outputs != [] {
      assert outputs[0] in multiset(outputs);
    }
  }

  lemma BlameIs(w: World, d: Dispatch, request: nat, e: Error)
    requires Blame(w, d, request, e)
    ensures SomeBreaks(w, d, request, e) || (e == Shutdown && !w.send(request).open)
  {
    hide Gives, Breaks, Futs;
    DispatchIs(w, d.handlers, d.request, request);
  }
}
