/** The notification handler: it routes notifications to subscribers, one send at a time. */
module PubSub {
  import opened Futures
  import opened JsonRpc
  import opened SelectWeak

  datatype SubscriptionId = NumId(n: nat) | StrId(s: string)
  type ChannelId = nat  // names the sending half of one subscriber's channel

  datatype SubscriberMsg =
    | NewMessage(id: SubscriptionId, result: Json)
    | NewSubscriber(id: SubscriptionId, chan: ChannelId)
    | RemoveSubscriber(id: SubscriptionId)

  type Subscribers = map<SubscriptionId, ChannelId>

  /** What a future in `current_future` does. */
  datatype Job = Deliver(chan: ChannelId, value: Json) | Unsubscribe

  datatype Current = Current(job: Job, left: nat, polls: nat)

  datatype Progress = Running | Resolved | Crashed

  datatype History = History(
    consumed: seq<SubscriberMsg>,
    started: seq<Job>,   // jobs polled at least once, in that order
    finished: seq<Job>,
    progress: Progress)

  datatype State = State(
    subscribers: Subscribers,
    sel: Sel<SubscriberMsg>,
    current: Option<Current>,
    shouldShutDown: bool,
    h: History)

  /** For each job, by its number, how often its future answers `NotReady`. */
  type Patience = nat -> nat

  function Init(messages: Script<SubscriberMsg>, control: Script<SubscriberMsg>): State {
    State(map[], Sel(Fused(messages, false), Fused(control, false), false, false), None, false,
          History([], [], [], Running))
  }

  // ----- one poll -----

  /** Poll the current future, if any, and let go of it once it is done. */
  function Advance(s: State): State {
    if s.current.None? then s else
    var cur := s.current.value;
    var h := if cur.polls == 0 then s.h.(started := s.h.started + [cur.job]) else s.h;
    if cur.left > 0 then s.(current := Some(Current(cur.job, cur.left - 1, cur.polls + 1)), h := h)
    else s.(current := None, h := h.(finished := h.finished + [cur.job]))
  }

  function SetCurrent(p: Patience, s: State, job: Job): State {
    s.(current := Some(Current(job, p(|s.h.finished|), 0)))
  }

  function HandleMsg(p: Patience, s: State, m: SubscriberMsg): State {
    match m
    case NewSubscriber(id, chan) => s.(subscribers := s.subscribers[id := chan])
    case NewMessage(id, result) =>
      if id in s.subscribers then SetCurrent(p, s, Deliver(s.subscribers[id], result)) else s
    case RemoveSubscriber(id) =>
      var subscribers := s.subscribers - {id};
      SetCurrent(p, s.(subscribers := subscribers, shouldShutDown := |subscribers| < 1), Unsubscribe)
  }

  function Take(s: State): State
    requires s.sel.Ev().Item?
  {
    s.(sel := s.sel.Step(), h := s.h.(consumed := s.h.consumed + [s.sel.Ev().item]))
  }

  function Finish(s: State): State {
    s.(h := s.h.(progress := if s.shouldShutDown then Resolved else Running))
  }

  function Poll(p: Patience, s: State): State
    decreases s.sel.Budget()
  {
    var t := Advance(s);
    if t.current.Some? then Finish(t) else
    match t.sel.Ev()
    case Pending => Finish(t.(sel := t.sel.Step()))
    case End => t.(sel := t.sel.Step(), h := t.h.(progress := Resolved))
    case Fail(_) => t.(sel := t.sel.Step(), h := t.h.(progress := Crashed))
    case Item(m) => ItemCosts(t.sel); Poll(p, HandleMsg(p, Take(t), m))
  }

  // ----- runs -----

  datatype Move = DoPoll | DoFeed(messages: Script<SubscriberMsg>, control: Script<SubscriberMsg>)

  function Step(p: Patience, s: State, m: Move): State {
    match m
    case DoPoll => if s.h.progress.Running? then Poll(p, s) else s
    case DoFeed(messages, control) =>
      s.(sel := s.sel.(strong := s.sel.strong.(script := s.sel.strong.script + messages),
                       weak := s.sel.weak.(script := s.sel.weak.script + control)))
  }

  function Run(p: Patience, s: State, moves: seq<Move>): State {
    if moves == [] then s else Step(p, Run(p, s, moves[..|moves| - 1]), moves[|moves| - 1])
  }

  // ----- what the consumed messages ask for -----

  function Subscribe(subscribers: Subscribers, m: SubscriberMsg): Subscribers {
    match m
    case NewSubscriber(id, chan) => subscribers[id := chan]
    case RemoveSubscriber(id) => subscribers - {id}
    case NewMessage(_, _) => subscribers
  }

  function JobFor(subscribers: Subscribers, m: SubscriberMsg): seq<Job> {
    match m
    case NewMessage(id, result) => if id in subscribers then [Deliver(subscribers[id], result)] else []
    case RemoveSubscriber(_) => [Unsubscribe]
    case NewSubscriber(_, _) => []
  }

  function SubscribersAfter(ms: seq<SubscriberMsg>): Subscribers {
    if ms == [] then map[] else Subscribe(SubscribersAfter(ms[..|ms| - 1]), ms[|ms| - 1])
  }

  /** The jobs the messages call for, in order. */
  function Jobs(ms: seq<SubscriberMsg>): seq<Job> {
    if ms == [] then [] else
      var n := |ms| - 1;
      Jobs(ms[..n]) + JobFor(SubscribersAfter(ms[..n]), ms[n])
  }

  /** The latest removal left no subscriber. */
  ghost predicate LatestRemovalEmptied(ms: seq<SubscriberMsg>) {
    exists i :: 0 <= i < |ms| && LatestRemoval(ms, i) && SubscribersAfter(ms[..i + 1]) == map[]
  }

  ghost predicate LatestRemoval(ms: seq<SubscriberMsg>, i: nat)
    requires i < |ms|
  {
    ms[i].RemoveSubscriber? && forall j :: i < j < |ms| ==> !ms[j].RemoveSubscriber?
  }

  /** The results addressed to a channel while an id mapped to it. */
  function Routed(ms: seq<SubscriberMsg>, chan: ChannelId): seq<Json> {
    if ms == [] then [] else
      var n := |ms| - 1;
      var subscribers := SubscribersAfter(ms[..n]);
      Routed(ms[..n], chan)
      + (if ms[n].NewMessage? && ms[n].id in subscribers && subscribers[ms[n].id] == chan then [ms[n].result] else [])
  }

  /** The values sent on a channel. */
  function SendsOn(jobs: seq<Job>, chan: ChannelId): seq<Json> {
    if jobs == [] then [] else
      var n := |jobs| - 1;
      SendsOn(jobs[..n], chan) + (if jobs[n].Deliver? && jobs[n].chan == chan then [jobs[n].value] else [])
  }

  lemma OneMore(ms: seq<SubscriberMsg>, m: SubscriberMsg)
    ensures SubscribersAfter(ms + [m]) == Subscribe(SubscribersAfter(ms), m)
    ensures Jobs(ms + [m]) == Jobs(ms) + JobFor(SubscribersAfter(ms), m)
  {
    assert (ms + [m])[..|ms|] == ms;
  }

  lemma RemovalStep(ms: seq<SubscriberMsg>, m: SubscriberMsg)
    ensures LatestRemovalEmptied(ms + [m])
        <==> if m.RemoveSubscriber? then SubscribersAfter(ms + [m]) == map[] else LatestRemovalEmptied(ms)
  {
    var n := |ms|;
    assert (ms + [m])[..n + 1] == ms + [m];
    if m.RemoveSubscriber? {
      assert LatestRemoval(ms + [m], n);
    } else {
      forall i | 0 <= i < n
        ensures LatestRemoval(ms + [m], i) <==> LatestRemoval(ms, i)
        ensures (ms + [m])[..i + 1] == ms[..i + 1]
      {
        if LatestRemoval(ms + [m], i) {
          assert forall j :: i < j < n ==> ms[j] == (ms + [m])[j];
        }
      }
      if LatestRemovalEmptied(ms) {
        var i :| 0 <= i < |ms| && LatestRemoval(ms, i) && SubscribersAfter(ms[..i + 1]) == map[];
        assert LatestRemoval(ms + [m], i);
      }
    }
  }

  lemma {:induction false} SendsAppend(a: seq<Job>, j: Job, chan: ChannelId)
    ensures SendsOn(a + [j], chan) == SendsOn(a, chan) + (if j.Deliver? && j.chan == chan then [j.value] else [])
  {
    assert (a + [j])[..|a|] == a;
  }

  /** The jobs called for send on each channel exactly what is routed to it. */
  lemma {:induction false} JobsRoute(ms: seq<SubscriberMsg>, chan: ChannelId)
    ensures SendsOn(Jobs(ms), chan) == Routed(ms, chan)
  {
    if ms != [] {
      var n := |ms| - 1;
      JobsRoute(ms[..n], chan);
      var job := JobFor(SubscribersAfter(ms[..n]), ms[n]);
      if job == [] {
        assert Jobs(ms) == Jobs(ms[..n]);
      } else {
        SendsAppend(Jobs(ms[..n]), job[0], chan);
      }
    }
  }

  // ----- the invariant -----

  function CurrentJob(current: Option<Current>): seq<Job> {
    if current.Some? then [current.value.job] else []
  }

  /** The jobs called for are the finished ones followed by the current one: none was overwritten,
      none overtook. */
  ghost predicate Inv(s: State) {
    && s.subscribers == SubscribersAfter(s.h.consumed)
    && s.h.finished + CurrentJob(s.current) == Jobs(s.h.consumed)
    && (s.shouldShutDown <==> LatestRemovalEmptied(s.h.consumed))
    && s.h.started == s.h.finished + (if s.current.Some?
        && s.current.value.polls > 0 then [s.current.value.job] else [])
  }

  /** Between polls the current future has been polled. */
  ghost predicate Rested(s: State) {
    s.current.Some? ==> s.current.value.polls > 0
  }

  lemma AdvanceOk(s: State)
    requires Inv(s)
    ensures Inv(Advance(s)) && Rested(Advance(s))
    ensures Advance(s).sel == s.sel && Advance(s).h.consumed == s.h.consumed
  {
  }

  lemma HandleOk(p: Patience, s: State)
    requires Inv(s) && s.current == None && s.sel.Ev().Item?
    ensures Inv(HandleMsg(p, Take(s), s.sel.Ev().item))
  {
    hide SubscribersAfter, Jobs, LatestRemovalEmptied;
    OneMore(s.h.consumed, s.sel.Ev().item);
    RemovalStep(s.h.consumed, s.sel.Ev().item);
  }

  lemma HandleKeepsSel(p: Patience, s: State)
    requires s.sel.Ev().Item?
    ensures var t := HandleMsg(p, Take(s), s.sel.Ev().item);
            t.h.finished == s.h.finished && t.sel == s.sel.Step() && t.h.consumed == s.h.consumed + [s.sel.Ev().item]
  {
  }

  /** How a poll ends. */
  ghost predicate PollEnd(s: State) {
    && Inv(s) && Rested(s)
    && (s.h.progress == Running ==> !s.shouldShutDown)
    && (s.h.progress == Resolved ==> s.shouldShutDown || s.sel.strong.done)
  }

  /** A poll that finds a message ready handles it and goes on. */
  lemma PollItem(p: Patience, s: State)
    requires Advance(s).current.None? && Advance(s).sel.Ev().Item?
    ensures Poll(p, s) == Poll(p, HandleMsg(p, Take(Advance(s)), Advance(s).sel.Ev().item))
  {
  }

  /** Any other poll ends: because of the current future, or of what the selector answers. */
  lemma PollStop(p: Patience, s: State)
    requires Advance(s).current.Some? || !Advance(s).sel.Ev().Item?
    ensures var t := Advance(s);
            var u := t.(sel := t.sel.Step());
            Poll(p, s) == if t.current.Some? then Finish(t)
                          else if t.sel.Ev().Pending? then Finish(u)
                          else u.(h := t.h.(progress := if t.sel.Ev().End? then Resolved else Crashed))
  {
  }

  lemma StopOk(p: Patience, s: State)
    requires Inv(s) && (Advance(s).current.Some? || !Advance(s).sel.Ev().Item?)
    ensures PollEnd(Poll(p, s))
  {
    hide Poll, SubscribersAfter, Jobs, LatestRemovalEmptied, Advance;
    AdvanceOk(s);
    PollStop(p, s);
    EndMeansDone(s.sel);
  }

  lemma EndMeansDone<T>(sel: Sel<T>)
    ensures sel.Ev().End? ==> sel.Step().strong.done
  {
  }

  lemma {:induction false} PollOk(p: Patience, s: State)
    requires Inv(s)
    ensures PollEnd(Poll(p, s))
    decreases s.sel.Budget()
  {
    hide Poll, Inv, PollEnd, HandleMsg, Advance;
    var t := Advance(s);
    AdvanceOk(s);
    if t.current.None? && t.sel.Ev().Item? {
      PollItem(p, s);
      HandleOk(p, t);
      ItemCosts(t.sel);
      HandleKeepsSel(p, t);
      PollOk(p, HandleMsg(p, Take(t), t.sel.Ev().item));
    } else {
      StopOk(p, s);
    }
  }

  lemma InitOk(messages: Script<SubscriberMsg>, control: Script<SubscriberMsg>)
    ensures PollEnd(Init(messages, control))
  {
  }

  lemma {:induction false} RunOk(p: Patience, s: State, moves: seq<Move>)
    requires PollEnd(s)
    ensures PollEnd(Run(p, s, moves))
  {
    if moves != [] {
      var n := |moves| - 1;
      RunOk(p, s, moves[..n]);
      var t := Run(p, s, moves[..n]);
      if moves[n].DoPoll? && t.h.progress.Running? {
        PollOk(p, t);
      }
    }
  }

  // ----- the promises -----

  ghost predicate Reached(p: Patience, s: State) {
    exists messages, control, moves :: s == Run(p, Init(messages, control), moves)
  }

  lemma ReachedOk(p: Patience, s: State)
    requires Reached(p, s)
    ensures PollEnd(s)
  {
    var messages, control, moves :| s == Run(p, Init(messages, control), moves);
    InitOk(messages, control);
    RunOk(p, Init(messages, control), moves);
  }

  lemma InitReached(p: Patience, messages: Script<SubscriberMsg>, control: Script<SubscriberMsg>)
    ensures Reached(p, Init(messages, control))
  {
    assert Run(p, Init(messages, control), []) == Init(messages, control);
  }

  lemma StepReached(p: Patience, s: State, m: Move)
    requires Reached(p, s)
    ensures Reached(p, Step(p, s, m))
  {
    hide Step;
    var messages, control, moves :| s == Run(p, Init(messages, control), moves);
    assert (moves + [m])[..|moves|] == moves;
    assert Step(p, s, m) == Run(p, Init(messages, control), moves + [m]);
  }

  /** Delivery: after any run the sends attempted on a channel are exactly, in order, the results of
      the notifications consumed while their id mapped to it; at most the last one is unfinished. */
  lemma Delivery(p: Patience, s: State, chan: ChannelId)
    requires Reached(p, s)
    ensures SendsOn(s.h.started, chan) == Routed(s.h.consumed, chan)
    ensures s.h.started == Jobs(s.h.consumed) == s.h.finished + CurrentJob(s.current)
  {
    ReachedOk(p, s);
    JobsRoute(s.h.consumed, chan);
  }

  /** Life cycle: the subscribers are those of the consumed messages; the handler wants to shut down
      exactly if the latest removal left none; it resolves only then or when its messages end; and
      by then every job, the last unsubscribe included, has been polled. */
  lemma LifeCycle(p: Patience, s: State)
    requires Reached(p, s)
    ensures s.subscribers == SubscribersAfter(s.h.consumed)
    ensures s.shouldShutDown <==> LatestRemovalEmptied(s.h.consumed)
    ensures s.h.progress == Running ==> !s.shouldShutDown
    ensures s.h.progress == Resolved ==> s.shouldShutDown || s.sel.strong.done
    ensures s.h.started == Jobs(s.h.consumed)
  {
    ReachedOk(p, s);
  }

  /** Message `i` subscribes `chan` to `id`, and no later message is about the subscription `id`. */
  ghost predicate SubscribesTo(ms: seq<SubscriberMsg>, i: nat, id: SubscriptionId, chan: ChannelId)
    requires i < |ms|
  {
    && ms[i] == NewSubscriber(id, chan)
    && forall j :: i < j < |ms| ==> ms[j].NewMessage? || ms[j].id != id
  }

  lemma SubscribesStep(ms: seq<SubscriberMsg>, m: SubscriberMsg, i: nat, id: SubscriptionId, chan: ChannelId)
    requires i <= |ms|
    ensures SubscribesTo(ms + [m], i, id, chan)
        <==> if i == |ms| then m == NewSubscriber(id, chan)
             else SubscribesTo(ms, i, id, chan) && (m.NewMessage? || m.id != id)
  {
    if i < |ms| && SubscribesTo(ms + [m], i, id, chan) {
      assert forall j :: i < j < |ms| ==> ms[j] == (ms + [m])[j];
      assert (ms + [m])[|ms|] == m;
    }
  }

  ghost predicate HasSubscription(ms: seq<SubscriberMsg>, id: SubscriptionId, chan: ChannelId) {
    exists i :: 0 <= i < |ms| && SubscribesTo(ms, i, id, chan)
  }

  lemma SubscriptionStep(ms: seq<SubscriberMsg>, m: SubscriberMsg, id: SubscriptionId, chan: ChannelId)
    ensures HasSubscription(ms + [m], id, chan)
        <==> m == NewSubscriber(id, chan) || (HasSubscription(ms, id, chan) && (m.NewMessage? || m.id != id))
  {
    hide SubscribesTo;
    var n := |ms|;
    SubscribesStep(ms, m, n, id, chan);
    if HasSubscription(ms + [m], id, chan) {
      var i :| 0 <= i < |ms + [m]| && SubscribesTo(ms + [m], i, id, chan);
      SubscribesStep(ms, m, i, id, chan);
    }
    if HasSubscription(ms, id, chan) && (m.NewMessage? || m.id != id) {
      var i :| 0 <= i < |ms| && SubscribesTo(ms, i, id, chan);
      SubscribesStep(ms, m, i, id, chan);
    }
  }

  /** A channel is subscribed to an id exactly if some message subscribed it and no later message
      subscribed that id again or removed it. */
  lemma {:induction false} SubscribedIff(ms: seq<SubscriberMsg>, id: SubscriptionId, chan: ChannelId)
    ensures id in SubscribersAfter(ms) && SubscribersAfter(ms)[id] == chan <==> HasSubscription(ms, id, chan)
  {
    if ms != [] {
      hide HasSubscription, SubscribersAfter;
      var n := |ms| - 1;
      SubscribedIff(ms[..n], id, chan);
      assert ms == ms[..n] + [ms[n]];
      OneMore(ms[..n], ms[n]);
      SubscriptionStep(ms[..n], ms[n], id, chan);
    }
  }

  /** Message `i` is a subscription, and no removal comes after it. */
  ghost predicate LateSubscriber(ms: seq<SubscriberMsg>, i: nat)
    requires i < |ms|
  {
    ms[i].NewSubscriber? && forall j :: i < j < |ms| ==> !ms[j].RemoveSubscriber?
  }

  ghost predicate HasLateSubscriber(ms: seq<SubscriberMsg>) {
    exists i :: 0 <= i < |ms| && LateSubscriber(ms, i)
  }

  lemma LateStep(ms: seq<SubscriberMsg>, m: SubscriberMsg)
    ensures HasLateSubscriber(ms + [m]) <==> m.NewSubscriber? || (m.NewMessage? && HasLateSubscriber(ms))
  {
    var n := |ms|;
    if m.NewSubscriber? {
      assert LateSubscriber(ms + [m], n);
    }
    forall i | 0 <= i < n
      ensures LateSubscriber(ms + [m], i) <==> LateSubscriber(ms, i) && !m.RemoveSubscriber?
    {
      if LateSubscriber(ms + [m], i) {
        assert forall j :: i < j < n ==> ms[j] == (ms + [m])[j];
        assert (ms + [m])[n] == m;
      }
    }
    if HasLateSubscriber(ms) && m.NewMessage? {
      var i :| 0 <= i < |ms| && LateSubscriber(ms, i);
      assert LateSubscriber(ms + [m], i);
    }
    if HasLateSubscriber(ms + [m]) && !m.NewSubscriber? {
      var i :| 0 <= i < |ms + [m]| && LateSubscriber(ms + [m], i);
      assert i < n;
    }
  }

  /** After a removal that left nobody, the subscribers are those who came later. */
  lemma {:induction false} LateOnesOnly(ms: seq<SubscriberMsg>)
    requires LatestRemovalEmptied(ms)
    ensures SubscribersAfter(ms) != map[] <==> HasLateSubscriber(ms)
  {
    hide LatestRemovalEmptied, HasLateSubscriber, SubscribersAfter;
    if ms == [] {
      NoRemoval();
    } else {
      var n := |ms| - 1;
      var front, m := ms[..n], ms[n];
      assert ms == front + [m];
      OneMore(front, m);
      RemovalStep(front, m);
      LateStep(front, m);
      if m.NewSubscriber? {
        assert m.id in SubscribersAfter(ms);
      } else if m.NewMessage? {
        LateOnesOnly(front);
      }
    }
  }

  lemma NoRemoval()
    ensures !LatestRemovalEmptied([])
  {
  }

  /** When the handler ends with a live subscriber: one that resolves while its messages go on does
      so exactly if a subscription was consumed after the last removal. */
  lemma EndsWithSubscribersIff(p: Patience, s: State)
    requires Reached(p, s) && s.h.progress == Resolved && !s.sel.strong.done
    ensures s.subscribers != map[]
        <==> exists i :: 0 <= i < |s.h.consumed| && LateSubscriber(s.h.consumed, i)
  {
    LifeCycle(p, s);
    LateOnesOnly(s.h.consumed);
  }

  /** A subscription that comes after the wish to shut down is taken by the poll that resolves. */
  lemma LateSubscription(p: Patience, s: State, id: SubscriptionId, chan: ChannelId)
    requires s.shouldShutDown && Advance(s).current == None
    requires s.sel.Ev() == Item(NewSubscriber(id, chan)) && s.sel.Step().Ev() == Pending
    ensures Poll(p, s).h.progress == Resolved && id in Poll(p, s).subscribers
  {
    hide Poll;
    PollItem(p, s);
    PollStop(p, HandleMsg(p, Take(Advance(s)), NewSubscriber(id, chan)));
  }

  /** The wish to shut down survives a new subscription, so such a run exists. */
  lemma MayEndWithSubscribers()
    ensures exists p, s :: Reached(p, s) && s.h.progress == Resolved && s.subscribers != map[]
  {
    hide Poll;
    var p: Patience := _ => 0;
    var one, two := NumId(1), NumId(2);
    var control := [Item(RemoveSubscriber(one)), Item(NewSubscriber(two, 1))];
    var s0 := Init([], control);
    PollItem(p, s0);
    var s1 := HandleMsg(p, Take(s0), RemoveSubscriber(one));
    assert s1.sel.weak.script == [Item(NewSubscriber(two, 1))];
    assert s1.sel.Ev() == Item(NewSubscriber(two, 1)) && s1.sel.Step().Ev() == Pending;
    LateSubscription(p, s1, two, 1);
    InitReached(p, [], control);
    StepReached(p, s0, DoPoll);
  }

  // ----- where the consumed messages come from -----

  /** The notifications, and the control messages, handed in up to the end of a run. */
  function MessagesIn(messages: Script<SubscriberMsg>, moves: seq<Move>): seq<SubscriberMsg> {
    if moves == [] then Items(messages) else
      var m := moves[|moves| - 1];
      MessagesIn(messages, moves[..|moves| - 1]) + (if m.DoFeed? then Items(m.messages) else [])
  }

  function ControlIn(control: Script<SubscriberMsg>, moves: seq<Move>): seq<SubscriberMsg> {
    if moves == [] then Items(control) else
      var m := moves[|moves| - 1];
      ControlIn(control, moves[..|moves| - 1]) + (if m.DoFeed? then Items(m.control) else [])
  }

  /** A poll consumes what it takes from the selector, and nothing else. */
  lemma {:induction false} PollSelects(p: Patience, s: State, a: seq<SubscriberMsg>, b: seq<SubscriberMsg>)
    requires Selected(s.sel, s.h.consumed, a, b)
    ensures Selected(Poll(p, s).sel, Poll(p, s).h.consumed, a, b)
    decreases s.sel.Budget()
  {
    hide Selected, Poll, HandleMsg;
    var t := Advance(s);
    SelectedStep(s.sel, s.h.consumed, a, b);
    if t.current.None? && t.sel.Ev().Item? {
      PollItem(p, s);
      ItemCosts(t.sel);
      HandleKeepsSel(p, t);
      PollSelects(p, HandleMsg(p, Take(t), t.sel.Ev().item), a, b);
    } else {
      PollStop(p, s);
      assert s.h.consumed + [] == s.h.consumed;
    }
  }

  lemma StepSelects(p: Patience, s: State, m: Move, a: seq<SubscriberMsg>, b: seq<SubscriberMsg>)
    requires Selected(s.sel, s.h.consumed, a, b)
    ensures var t := Step(p, s, m);
            Selected(t.sel, t.h.consumed, a + (if m.DoFeed? then Items(m.messages) else []),
                     b + (if m.DoFeed? then Items(m.control) else []))
  {
    hide Selected, Poll, Items;
    match m
    case DoPoll =>
      assert a + [] == a && b + [] == b;
      PollSelects(p, s, a, b);
    case DoFeed(moreA, moreB) => SelectedMore(s.sel, s.h.consumed, a, b, moreA, moreB);
  }

  /** Over any run, the messages consumed merge the notifications and the control messages handed in,
      each in order; what is not yet consumed is still in its stream. */
  lemma {:induction false} ConsumedMerges(p: Patience, messages: Script<SubscriberMsg>,
      control: Script<SubscriberMsg>, moves: seq<Move>)
    ensures var s := Run(p, Init(messages, control), moves);
            Selected(s.sel, s.h.consumed, MessagesIn(messages, moves), ControlIn(control, moves))
  {
    if moves != [] {
      hide Selected, Step, Items, Init;
      var n := |moves| - 1;
      ConsumedMerges(p, messages, control, moves[..n]);
      StepSelects(p, Run(p, Init(messages, control), moves[..n]), moves[n],
                  MessagesIn(messages, moves[..n]), ControlIn(control, moves[..n]));
    }
  }

  // ----- how a poll goes -----

  lemma {:induction false} FinishedGrows(p: Patience, s: State)
    ensures s.h.finished <= Poll(p, s).h.finished
    decreases s.sel.Budget()
  {
    hide Poll, HandleMsg;
    var t := Advance(s);
    if t.current.None? && t.sel.Ev().Item? {
      PollItem(p, s);
      ItemCosts(t.sel);
      HandleKeepsSel(p, t);
      FinishedGrows(p, HandleMsg(p, Take(t), t.sel.Ev().item));
    } else {
      PollStop(p, s);
    }
  }

  /** Every poll brings the current future one step further: it takes as many polls as it asks for, and
      until it is done no message is taken. */
  lemma JobAdvances(p: Patience, s: State)
    requires s.current.Some?
    ensures var Current(job, left, polls) := s.current.value;
            var t := Poll(p, s);
            if left > 0 then
              t.current == Some(Current(job, left - 1, polls + 1)) && t.h.consumed == s.h.consumed && t.sel == s.sel
            else
              s.h.finished + [job] <= t.h.finished
  {
    hide Poll, HandleMsg;
    var t := Advance(s);
    if t.current.None? && t.sel.Ev().Item? {
      PollItem(p, s);
      HandleKeepsSel(p, t);
      FinishedGrows(p, HandleMsg(p, Take(t), t.sel.Ev().item));
    } else {
      PollStop(p, s);
    }
  }

  /** The polls a current future has had and those it still asks for are what its job asked for. */
  ghost predicate Paced(p: Patience, s: State) {
    s.current.Some? ==> s.current.value.polls + s.current.value.left == p(|s.h.finished|)
  }

  lemma {:induction false} PollPaced(p: Patience, s: State)
    requires Paced(p, s)
    ensures Paced(p, Poll(p, s))
    decreases s.sel.Budget()
  {
    hide Poll;
    var t := Advance(s);
    if t.current.None? && t.sel.Ev().Item? {
      PollItem(p, s);
      ItemCosts(t.sel);
      HandleKeepsSel(p, t);
      PollPaced(p, HandleMsg(p, Take(t), t.sel.Ev().item));
    } else {
      PollStop(p, s);
    }
  }

  lemma {:induction false} RunPaced(p: Patience, s: State, moves: seq<Move>)
    requires Paced(p, s)
    ensures Paced(p, Run(p, s, moves))
  {
    hide Poll;
    if moves != [] {
      var n := |moves| - 1;
      RunPaced(p, s, moves[..n]);
      PollPaced(p, Run(p, s, moves[..n]));
    }
  }

  /** A job is done with the poll after those that find it waiting, in every run. */
  lemma JobsArePaced(p: Patience, s: State)
    requires Reached(p, s) && s.current.Some?
    ensures 0 < s.current.value.polls && s.current.value.polls + s.current.value.left == p(|s.h.finished|)
  {
    ReachedOk(p, s);
    var messages, control, moves :| s == Run(p, Init(messages, control), moves);
    hide Run;
    RunPaced(p, Init(messages, control), moves);
  }

  /** The poll takes `n` answers of the selector, and all but the last are messages. It ends where a
      future is not done yet, or with the last answer: with the end of the selector the handler
      resolves, with its failure it crashes; otherwise the wish to shut down decides. */
  ghost predicate ConsumesUntil(s: State, t: State, n: nat) {
    var answers := s.sel.Answers(n);
    var wished := if t.shouldShutDown then Resolved else Running;
    && |answers| == n && t.sel == s.sel.Run(n) && t.h.consumed == s.h.consumed + Items(answers)
    && (forall j :: 0 <= j < n - 1 ==> answers[j].Item?)
    && if t.current.Some? then
         (n > 0 ==> answers[n - 1].Item?) && t.h.progress == wished
       else
         n > 0 &&
         match answers[n - 1]
         case Pending => t.h.progress == wished
         case End => t.h.progress == Resolved
         case Fail(_) => t.h.progress == Crashed
         case Item(_) => false
  }

  lemma TakesOne(sel: Sel<SubscriberMsg>, n: nat)
    ensures sel.Answers(n + 1) == [sel.Ev()] + sel.Step().Answers(n)
    ensures sel.Run(n + 1) == sel.Step().Run(n)
    ensures Items(sel.Answers(n + 1)) == (if sel.Ev().Item? then [sel.Ev().item] else []) + Items(sel.Step().Answers(n))
  {
    assert ([sel.Ev()] + sel.Step().Answers(n))[1..] == sel.Step().Answers(n);
  }

  lemma ConsumesMore(s: State, u: State, t: State, n: nat)
    requires s.sel.Ev().Item? && u.sel == s.sel.Step() && u.h.consumed == s.h.consumed + [s.sel.Ev().item]
    requires ConsumesUntil(u, t, n)
    ensures ConsumesUntil(s, t, n + 1)
  {
    hide Items;
    TakesOne(s.sel, n);
    var answers, rest := s.sel.Answers(n + 1), u.sel.Answers(n);
    assert forall j :: 0 < j <= n ==> answers[j] == rest[j - 1];
    assert s.h.consumed + ([s.sel.Ev().item] + Items(rest)) == u.h.consumed + Items(rest);
  }

  lemma ConsumesNone(p: Patience, s: State)
    requires Advance(s).current.Some? || !Advance(s).sel.Ev().Item?
    ensures ConsumesUntil(s, Poll(p, s), if Advance(s).current.Some? then 0 else 1)
  {
    hide Poll;
    PollStop(p, s);
    TakesOne(s.sel, 0);
    assert s.sel.Step().Answers(0) == [] && s.sel.Step().Run(0) == s.sel.Step();
    assert Items<SubscriberMsg>([]) == [] && s.h.consumed + [] == s.h.consumed;
  }

  /** What a poll comes to is decided by what the selector answers and by the wish to shut down. */
  lemma {:induction false} PollOutcome(p: Patience, s: State) returns (n: nat)
    ensures ConsumesUntil(s, Poll(p, s), n)
    decreases s.sel.Budget()
  {
    hide Poll, HandleMsg, ConsumesUntil;
    var t := Advance(s);
    if t.current.None? && t.sel.Ev().Item? {
      PollItem(p, s);
      ItemCosts(t.sel);
      HandleKeepsSel(p, t);
      var u := HandleMsg(p, Take(t), t.sel.Ev().item);
      var k := PollOutcome(p, u);
      ConsumesMore(s, u, Poll(p, s), k);
      n := k + 1;
    } else {
      n := if t.current.Some? then 0 else 1;
      ConsumesNone(p, s);
    }
  }

  // ----- quiescence -----

  /** A poll that is not done waits for its current future, or has nothing left to read. */
  lemma {:induction false} WaitsForSomething(p: Patience, s: State)
    requires Poll(p, s).h.progress == Running
    ensures Poll(p, s).current.Some? || NothingReady(s.sel, Poll(p, s).sel)
    decreases s.sel.Budget()
  {
    hide NothingReady, HandleMsg, Take;
    var t := Advance(s);
    if t.current.None? {
      if t.sel.Ev().Item? {
        ItemCosts(t.sel);
        PollItem(p, s);
        HandleKeepsSel(p, t);
        var u := HandleMsg(p, Take(t), t.sel.Ev().item);
        WaitsForSomething(p, u);
        if Poll(p, u).current.None? {
          NothingReadyOnce(t.sel, Poll(p, u).sel);
        }
      } else {
        PendingMeansNothing(t.sel);
      }
    }
  }
}
