/** The notification handler as an object. Its methods do what the state machine of `PubSub` does. */
module NotificationMachine {
  import opened Futures
  import opened JsonRpc
  import opened SelectWeak
  import opened PubSub
  import Model = PubSub

  class NotificationHandler {
    const patience: Patience
    const messages: SelectWithWeak<SubscriberMsg>
    var subscribers: Subscribers
    var currentFuture: Option<Current>
    var shouldShutDown: bool
    var done: nat  // futures that are done; `patience` goes by this number
    ghost var h: History

    constructor (patience: Patience, notifications: Fuse<SubscriberMsg>, control: Fuse<SubscriberMsg>)
      requires notifications != control
      requires !notifications.done && !control.done
      ensures Valid() && this.patience == patience
      ensures State() == Init(notifications.script, control.script)
      ensures Reached(patience, State())
    {
      this.patience := patience;
      messages := new SelectWithWeak(notifications, control);
      subscribers, currentFuture, shouldShutDown, done := map[], None, false, 0;
      h := History([], [], [], Running);
      InitReached(patience, notifications.script, control.script);
    }

    ghost const Repr: set<object> := {this, messages, messages.strong, messages.weak}

    ghost predicate Valid()
      reads Repr
    {
      messages.Valid() && done == |h.finished|
    }

    ghost function State(): Model.State
      reads Repr
    {
      Model.State(subscribers, messages.State(), currentFuture, shouldShutDown, h)
    }

    method HandleNewSubscription(id: SubscriptionId, chan: ChannelId)
      requires Valid()
      modifies this
      ensures Valid() && State() == HandleMsg(patience, old(State()), NewSubscriber(id, chan))
    {
      subscribers := subscribers[id := chan];
    }

    method HandleRemoval(id: SubscriptionId)
      requires Valid()
      modifies this
      ensures Valid() && State() == HandleMsg(patience, old(State()), RemoveSubscriber(id))
    {
      subscribers := subscribers - {id};
      shouldShutDown := |subscribers| < 1;
      currentFuture := Some(Current(Unsubscribe, patience(done), 0));
    }

    method HandleNewMessage(id: SubscriptionId, message: Json)
      requires Valid()
      modifies this
      ensures Valid() && State() == HandleMsg(patience, old(State()), NewMessage(id, message))
    {
      if id in subscribers {
        currentFuture := Some(Current(Deliver(subscribers[id], message), patience(done), 0));
      }
    }

    /** Poll the current future, if there is one; ready once there is none. */
    method ReadyForNextConnection() returns (ready: bool)
      requires Valid()
      modifies this
      ensures Valid() && State() == Advance(old(State()))
      ensures ready <==> State().current.None?
    {
      if currentFuture.None? {
        return true;
      }
      var cur := currentFuture.value;
      currentFuture := None;
      if cur.polls == 0 {
        h := h.(started := h.started + [cur.job]);
      }
      if cur.left > 0 {
        currentFuture := Some(Current(cur.job, cur.left - 1, cur.polls + 1));
        return false;
      }
      done := done + 1;
      h := h.(finished := h.finished + [cur.job]);
      ready := true;
    }

    method Poll() returns (progress: Progress)
      requires Valid()
      modifies Repr
      ensures Valid() && State() == Model.Poll(patience, old(State()))
      ensures old(Reached(patience, State()) && h.progress == Running) ==> Reached(patience, State())
      ensures progress == State().h.progress
    {
      hide Reached;
      if Reached(patience, State()) {
        StepReached(patience, State(), DoPoll);
      }
      ghost var before := State();
      var ready := ReadyForNextConnection();
      while ready
        invariant Valid() && State() == Advance(before) && (ready <==> State().current.None?)
        invariant Model.Poll(patience, old(State())) == Model.Poll(patience, before)
        decreases messages.State().Budget()
      {
        ghost var at := State();
        if at.sel.Ev().Item? {
          ItemCosts(at.sel);
        }
        var ev := messages.Poll();
        match ev {
          case Pending =>
            break;
          case End =>
            h := h.(progress := Resolved);
            return Resolved;
          case Fail(_) =>
            h := h.(progress := Crashed);
            return Crashed;
          case Item(m) =>
            h := h.(consumed := h.consumed + [m]);
            assert State() == Take(at);
            match m {
              case NewMessage(id, message) => HandleNewMessage(id, message);
              case NewSubscriber(id, chan) => HandleNewSubscription(id, chan);
              case RemoveSubscriber(id) => HandleRemoval(id);
            }
            before := State();
            ready := ReadyForNextConnection();
        }
      }
      progress := if shouldShutDown then Resolved else Running;
      h := h.(progress := progress);
    }
  }
}
