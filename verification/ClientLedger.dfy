/** The table of pending calls: which calls are waiting, which were answered, and with what. */
module ClientLedger {
  import opened Futures
  import opened JsonRpc
  import opened Ids
  import opened ClientModel

  // ----- what a call is answered with -----

  function CallId(i: nat): Id {
    Num(Nth(i))
  }

  /** The first response with the given id at position `from` or later. */
  function FirstAnswer(heard: seq<Output>, from: nat, id: Id): Option<nat>
    decreases |heard| - from
  {
    if from >= |heard| then None
    else if heard[from].id == id then Some(from)
    else FirstAnswer(heard, from + 1, id)
  }

  lemma {:induction false} FirstAnswerIs(heard: seq<Output>, from: nat, id: Id)
    ensures match FirstAnswer(heard, from, id)
            case None => forall k :: from <= k < |heard| ==> heard[k].id != id
            case Some(j) => from <= j < |heard| && heard[j].id == id && forall k :: from <= k < j ==> heard[k].id != id
    decreases |heard| - from
  {
    if from < |heard| && heard[from].id != id {
      FirstAnswerIs(heard, from + 1, id);
    }
  }

  lemma {:induction false} FirstAnswerGrows(heard: seq<Output>, o: Output, from: nat, id: Id)
    requires from <= |heard|
    ensures FirstAnswer(heard + [o], from, id)
         == if FirstAnswer(heard, from, id).Some? then FirstAnswer(heard, from, id)
            else if o.id == id then Some(|heard|) else None
    decreases |heard| - from
  {
    if from < |heard| {
      if heard[from].id != id {
        FirstAnswerGrows(heard, o, from + 1, id);
      }
    } else {
      assert FirstAnswer(heard + [o], from + 1, id) == None;
    }
  }

  /** The first response with the given id at position `from` or later is at `k`. */
  ghost predicate IsFirst(heard: seq<Output>, from: nat, id: Id, k: nat) {
    && from <= k < |heard| && heard[k].id == id
    && forall j :: from <= j < k ==> heard[j].id != id
  }

  /** What a response tells the caller: the value it carries, or its error. */
  predicate Tells(o: Output, result: CallResult) {
    match o
    case Success(_, value, _) => result == Ok(value)
    case Failure(_, error, _) => result == Err(JsonRpcError(error))
  }

  lemma ResultTells(o: Output, result: CallResult)
    ensures Tells(o, result) <==> result == ResultOf(o)
  {
  }

  predicate Encodes(call: OutgoingMessage)
    requires call.RpcCall?
  {
    CleanParams(call.params)
  }

  /** What call number `i` must have been completed with: rejected if its parameters do not
      serialise, else the first response with its id processed after it was registered. */
  function Due(calls: seq<CallRec>, heard: seq<Output>, i: nat): Option<CallResult>
    requires i < |calls| && calls[i].call.RpcCall?
  {
    if !Encodes(calls[i].call) then Some(Err(SerializeError)) else
    match FirstAnswer(heard, calls[i].since, CallId(i))
    case None => None
    case Some(j) => FirstAnswerIs(heard, calls[i].since, CallId(i)); Some(ResultOf(heard[j]))
  }

  // ----- the ledger -----

  ghost predicate CallOk(calls: seq<CallRec>, heard: seq<Output>, pending: map<Id, Token>, outcomes: seq<Outcome>,
      i: nat)
    requires i < |calls| && calls[i].call.RpcCall?
  {
    match Due(calls, heard, i)
    case None =>
      && CallId(i) in pending && pending[CallId(i)] == calls[i].call.completion
      && (forall o :: o in outcomes ==> o.id != CallId(i))
    case Some(result) =>
      CallId(i) !in pending && Outcome(CallId(i), calls[i].call.completion, result) in outcomes
  }

  ghost predicate Issued(calls: seq<CallRec>, id: Id) {
    exists i :: 0 <= i < |calls| && CallId(i) == id
  }

  /** Every call that got an id is either waiting in the table or was completed once with what it
      was due; nothing else is in the table, and nothing else was completed. */
  ghost predicate CallsOk(calls: seq<CallRec>, heard: seq<Output>, pending: map<Id, Token>, outcomes: seq<Outcome>) {
    && (forall i :: 0 <= i < |calls| ==> calls[i].call.RpcCall? && calls[i].since <= |heard|)
    && (forall i :: 0 <= i < |calls| ==> CallOk(calls, heard, pending, outcomes, i))
    && (forall id :: id in pending ==> Issued(calls, id))
    && (forall o :: o in outcomes ==> Issued(calls, o.id))
    && (forall i, j :: 0 <= i < j < |outcomes| ==> outcomes[i].id != outcomes[j].id)
  }

  ghost predicate LedgerOk(nextId: nat, calls: seq<CallRec>, heard: seq<Output>, pending: map<Id, Token>,
      outcomes: seq<Outcome>) {
    && nextId == Nth(|calls|)
    && (|calls| < U64 - 1 ==> CallsOk(calls, heard, pending, outcomes))
  }

  /** A response for a call nobody waits for changes nothing. */
  lemma StrayResponse(nextId: nat, calls: seq<CallRec>, heard: seq<Output>, pending: map<Id, Token>,
      outcomes: seq<Outcome>, o: Output)
    requires LedgerOk(nextId, calls, heard, pending, outcomes) && o.id !in pending
    ensures LedgerOk(nextId, calls, heard + [o], pending, outcomes)
  {
    if |calls| < U64 - 1 {
      forall i | 0 <= i < |calls|
        ensures CallOk(calls, heard + [o], pending, outcomes, i)
      {
        DueGrows(calls, heard, o, i);
        assert CallOk(calls, heard, pending, outcomes, i);
      }
    }
  }

  lemma DueGrows(calls: seq<CallRec>, heard: seq<Output>, o: Output, i: nat)
    requires i < |calls| && calls[i].call.RpcCall? && calls[i].since <= |heard|
    ensures Due(calls, heard + [o], i)
         == if Due(calls, heard, i).Some? then Due(calls, heard, i)
            else if o.id == CallId(i) then Some(ResultOf(o)) else None
  {
    FirstAnswerGrows(heard, o, calls[i].since, CallId(i));
    FirstAnswerIs(heard, calls[i].since, CallId(i));
  }

  /** The response a call waits for completes it. */
  lemma AwaitedResponse(nextId: nat, calls: seq<CallRec>, heard: seq<Output>, pending: map<Id, Token>,
      outcomes: seq<Outcome>, o: Output)
    requires LedgerOk(nextId, calls, heard, pending, outcomes) && o.id in pending
    ensures LedgerOk(nextId, calls, heard + [o], pending - {o.id},
                     outcomes + [Outcome(o.id, pending[o.id], ResultOf(o))])
  {
    if |calls| < U64 - 1 {
      assert Issued(calls, o.id);
      var k :| 0 <= k < |calls| && CallId(k) == o.id;
      assert CallOk(calls, heard, pending, outcomes, k);
      var pending', outcomes' := pending - {o.id}, outcomes + [Outcome(o.id, pending[o.id], ResultOf(o))];
      assert outcomes'[|outcomes|] in outcomes';
      forall i | 0 <= i < |calls|
        ensures CallOk(calls, heard + [o], pending', outcomes', i)
      {
        DueGrows(calls, heard, o, i);
        assert CallOk(calls, heard, pending, outcomes, i);
        if i != k {
          assert CallId(i) != CallId(k) by {
            FreshBelowBound(if i < k then i else k, if i < k then k else i);
          }
        }
      }
      forall i, j | 0 <= i < j < |outcomes'|
        ensures outcomes'[i].id != outcomes'[j].id
      {
        assert outcomes[i] in outcomes;
      }
    }
  }

  lemma {:induction false} NoAnswerYet(heard: seq<Output>, id: Id)
    ensures FirstAnswer(heard, |heard|, id) == None
  {
  }

  lemma FreshId(calls: seq<CallRec>)
    requires |calls| < U64 - 1
    ensures !Issued(calls, CallId(|calls|))
  {
    forall i | 0 <= i < |calls|
      ensures CallId(i) != CallId(|calls|)
    {
      FreshBelowBound(i, |calls|);
    }
  }

  /** Issuing an id to a call registers it under a fresh id: no live completion is overwritten. */
  lemma NewCall(nextId: nat, calls: seq<CallRec>, heard: seq<Output>, pending: map<Id, Token>,
      outcomes: seq<Outcome>, call: OutgoingMessage)
    requires LedgerOk(nextId, calls, heard, pending, outcomes) && call.RpcCall?
    ensures |calls| < U64 - 1 ==> Num(nextId) !in pending
    ensures var calls' := calls + [CallRec(call, |heard|)];
            if Encodes(call) then
              LedgerOk(Bump(nextId), calls', heard, pending[Num(nextId) := call.completion], outcomes)
            else
              LedgerOk(Bump(nextId), calls', heard, pending, outcomes + [Outcome(Num(nextId), call.completion,
                  Err(SerializeError))])
  {
    BumpCounts(|calls|);
    if |calls| < U64 - 1 {
      var n := |calls|;
      var calls' := calls + [CallRec(call, |heard|)];
      var pending' := if Encodes(call) then pending[Num(nextId) := call.completion] else pending;
      var outcomes' := if Encodes(call) then outcomes else outcomes + [Outcome(Num(nextId), call.completion,
          Err(SerializeError))];
      FreshId(calls);
      NoAnswerYet(heard, CallId(n));
      assert CallId(n) == Num(nextId);
      assert !Encodes(call) ==> outcomes'[|outcomes|] in outcomes';
      forall i | 0 <= i < |calls'|
        ensures CallOk(calls', heard, pending', outcomes', i)
      {
        if i < n {
          assert Due(calls', heard, i) == Due(calls, heard, i);
          assert CallOk(calls, heard, pending, outcomes, i);
          assert Issued(calls, CallId(i));
        } else {
          assert forall o :: o in outcomes ==> o.id != CallId(n);
        }
      }
      IssuedGrows(calls, CallRec(call, |heard|));
      assert CallId(|calls|) == Num(nextId) && Issued(calls', Num(nextId)) by {
        assert CallId(n) == Num(nextId);
      }
      forall i, j | 0 <= i < j < |outcomes'|
        ensures outcomes'[i].id != outcomes'[j].id
      {
        assert outcomes[i] in outcomes;
      }
    }
  }

  lemma IssuedGrows(calls: seq<CallRec>, rec: CallRec)
    ensures forall id :: Issued(calls, id) ==> Issued(calls + [rec], id)
    ensures Issued(calls + [rec], CallId(|calls|))
  {
  }
}
