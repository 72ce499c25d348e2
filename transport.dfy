/** The transport: JSON-RPC requests travel over a work queue and their
    responses come back over pattern-subscribe, on a channel named by the
    request's id. */
module Transport {
  import opened Values
  import opened Redis
  import opened JsonRpc
  import PubSub
  import Queue

  /** A `register` call: a listener on the queue channel for `queue`, bound to `methodName`. */
  datatype Registration = Registration(queue: string, methodName: string)

  /** A call of the handler of registration number `registration`: the request's
      params, followed in the call by a completion callback that answers on
      channel `replyTo`. */
  datatype HandlerCall = HandlerCall(registration: nat, params: seq<Value>, replyTo: string)

  /** An `invoke` waiting for its response: its once-listener, with the callback
      it was given. */
  datatype Pending = Pending(callback: Option<Value>)

  /** How the once-listener of request `id` ended; `callback` is told the same. */
  datatype Outcome = Outcome(id: string, settlement: Settlement, callback: Option<Value>)

  /** The handler calls caused by a request `req` popped from `queue`: every
      listener of that queue sees it, in registration order, and each one bound to
      the method it names calls its handler once with its params, answering on
      its id (ReactionsReachEveryMatch adds that none of them is missed). */
  function Reactions(regs: seq<Registration>, queue: string, req: Request): (r: seq<HandlerCall>)
    ensures |r| <= |regs|
    ensures forall j :: 0 <= j < |r| ==>
      && r[j].registration < |regs|
      && regs[r[j].registration] == Registration(queue, req.methodName)
      && r[j] == HandlerCall(r[j].registration, req.params, req.id)
    ensures forall j, k :: 0 <= j < k < |r| ==> r[j].registration < r[k].registration
  {
    if regs == [] then []
    else
      var n := |regs| - 1;
      var prior := Reactions(regs[..n], queue, req);
      assert forall k :: 0 <= k < n ==> regs[..n][k] == regs[k];
      if regs[n] == Registration(queue, req.methodName) then prior + [HandlerCall(n, req.params, req.id)]
      else prior
  }

  /** Every listener bound to the request's queue and method calls its handler. */
  lemma {:induction false} ReactionsReachEveryMatch(regs: seq<Registration>, queue: string, req: Request, k: nat)
    requires k < |regs| && regs[k] == Registration(queue, req.methodName)
    ensures exists j :: 0 <= j < |Reactions(regs, queue, req)| && Reactions(regs, queue, req)[j].registration == k
  {
    var n := |regs| - 1;
    var prior := Reactions(regs[..n], queue, req);
    var r := Reactions(regs, queue, req);
    if k == n {
      assert r[|r| - 1].registration == k;
    } else {
      assert regs[..n][k] == regs[k];
      ReactionsReachEveryMatch(regs[..n], queue, req, k);
      var j :| 0 <= j < |prior| && prior[j].registration == k;
      assert r[j] == prior[j];
    }
  }

  /** The handler calls caused by an item `msg` popped from `queue`: none when the
      listeners drop it, the reactions to the request otherwise. */
  function Calls(regs: seq<Registration>, queue: string, msg: Value): (r: seq<HandlerCall>)
    ensures CheckRequest(msg).Err? ==> r == []
    ensures r != [] ==> WellFormed(msg)
    ensures |r| <= |regs|
    ensures forall j :: 0 <= j < |r| ==>
      && r[j].registration < |regs|
      && regs[r[j].registration].queue == queue
      && Get(msg, "method") == Str(regs[r[j].registration].methodName)
      && Get(msg, "id") == Str(r[j].replyTo)
      && (Get(msg, "params") == Arr(r[j].params) || (Get(msg, "params").Undefined? && r[j].params == []))
  {
    AcceptsExactlyWellFormed(msg);
    match CheckRequest(msg)
    case Ok(req) => Reactions(regs, queue, req)
    case Err(_) => []
  }

  /** A request for a method no listener of its queue is bound to calls no handler. */
  lemma UnknownMethodCallsNothing(regs: seq<Registration>, queue: string, req: Request)
    requires forall k :: 0 <= k < |regs| && regs[k].queue == queue ==> regs[k].methodName != req.methodName
    ensures Reactions(regs, queue, req) == []
  {
  }

  class Transport {
    const pubsub: PubSub.Channel
    const queue: Queue.Channel
    var registrations: seq<Registration>
    /** The handler calls made so far. */
    var calls: seq<HandlerCall>
    /** The once-listeners on the pattern-subscribe channel, by request id. */
    var pending: map<string, Pending>
    var outcomes: seq<Outcome>

    /** Both channels are consistent, and every waiting invocation is subscribed
        to its response channel. */
    ghost predicate Valid()
      reads this, pubsub, queue
    {
      pubsub.Valid() && queue.Valid() && pending.Keys <= pubsub.channels
    }

    constructor ()
      ensures Valid() && fresh(pubsub) && fresh(queue)
      ensures pubsub.channels == {} && queue.channels == [] && queue.lists == map[] && queue.pops == []
      ensures registrations == [] && calls == [] && pending == map[] && outcomes == []
    {
      pubsub := new PubSub.Channel();
      queue := new Queue.Channel();
      registrations := [];
      calls := [];
      pending := map[];
      outcomes := [];
    }

    /** Adds a listener for `methodName` on queue `channel`, then subscribes the
        queue channel to `channel`. */
    method Register(channel: string, methodName: string)
      requires Valid()
      modifies this, queue
      ensures Valid()
      ensures registrations == old(registrations) + [Registration(channel, methodName)]
      ensures calls == old(calls) && pending == old(pending) && outcomes == old(outcomes)
      ensures channel in old(queue.channels) ==> unchanged(queue)
      ensures channel !in old(queue.channels) ==>
        && queue.channels == old(queue.channels) + [channel]
        && (old(queue.bClient).Some? ==> queue.bClient == old(queue.bClient) && queue.duplicates == old(queue.duplicates))
        && (old(queue.bClient).None? ==> queue.bClient == Some(Conn(old(queue.duplicates))) && queue.duplicates == old(queue.duplicates) + 1)
        && queue.pops == old(queue.pops) + [Queue.Pop(queue.bClient.value, queue.channels)]
        && queue.log == old(queue.log) + (if old(queue.bClient).Some? then [] else [Duplicate(queue.bClient.value)])
                                       + [BRPop(queue.bClient.value, queue.channels)]
        && queue.lists == old(queue.lists)
        && queue.loopsStarted == old(queue.loopsStarted) + 1 && queue.loopsEnded == old(queue.loopsEnded)
    {
      registrations := registrations + [Registration(channel, methodName)];
      queue.Subscribe(channel);
    }

    /** `invoke` with request id `freshId`. Arguments the checks refuse throw a
        TypeError before anything is done. Otherwise the once-listener for the id
        is added and the id subscribed to before the request envelope is pushed
        onto the queue, so the response cannot arrive unheard. */
    method Invoke(channel: Value, methodName: Value, params: Value, callback: Value, freshId: string)
      returns (r: Result<string, TypeError>)
      requires Valid() && freshId !in pending
      modifies this`pending, pubsub, queue`lists, queue`log
      ensures Valid()
      ensures CheckInvoke(channel, methodName, params, callback).Err? ==>
        && r == Err(CheckInvoke(channel, methodName, params, callback).error)
        && unchanged(this) && unchanged(pubsub) && unchanged(queue)
      ensures CheckInvoke(channel, methodName, params, callback).Ok? ==>
        var inv := CheckInvoke(channel, methodName, params, callback).value;
        var envelope := RequestEnvelope(freshId, inv.methodName, inv.params);
        && r == Ok(freshId)
        && pending == old(pending)[freshId := Pending(inv.callback)]
        && pubsub.channels == old(pubsub.channels) + {freshId}
        && (old(pubsub.isConnected) ==> pubsub.bClient == old(pubsub.bClient) && pubsub.duplicates == old(pubsub.duplicates))
        && (!old(pubsub.isConnected) ==>
              pubsub.bClient == Some(Conn(old(pubsub.duplicates))) && pubsub.duplicates == old(pubsub.duplicates) + 1)
        && pubsub.log == old(pubsub.log) + (if freshId in old(pubsub.channels) then [] else
             (if old(pubsub.isConnected) then [] else [Duplicate(pubsub.bClient.value)]) + [PSubscribe(pubsub.bClient.value, freshId)])
        && queue.lists == PushHead(old(queue.lists), inv.queue, envelope)
        && Backlog(queue.lists, inv.queue) == Backlog(old(queue.lists), inv.queue) + [envelope]
        && queue.log == old(queue.log) + [LPush(inv.queue, envelope)]
        && queue.channels == old(queue.channels) && queue.pops == old(queue.pops)
        && registrations == old(registrations) && calls == old(calls) && outcomes == old(outcomes)
    {
      var checked := CheckInvoke(channel, methodName, params, callback);
      if checked.Err? {
        return Err(checked.error);
      }
      var inv := checked.value;
      AwaitResponse(freshId, inv.callback);
      queue.PostMessage(inv.queue, RequestEnvelope(freshId, inv.methodName, inv.params));
      r := Ok(freshId);
    }

    /** The first half of an accepted `invoke`: the once-listener for `id` is
        added and `id` is subscribed to, as `subscribe` does it. */
    method AwaitResponse(id: string, callback: Option<Value>)
      requires Valid() && id !in pending
      modifies this`pending, pubsub
      ensures Valid()
      ensures pending == old(pending)[id := Pending(callback)]
      ensures pubsub.channels == old(pubsub.channels) + {id}
      ensures old(pubsub.isConnected) ==> pubsub.bClient == old(pubsub.bClient) && pubsub.duplicates == old(pubsub.duplicates)
      ensures !old(pubsub.isConnected) ==>
        pubsub.bClient == Some(Conn(old(pubsub.duplicates))) && pubsub.duplicates == old(pubsub.duplicates) + 1
      ensures pubsub.log == old(pubsub.log) + (if id in old(pubsub.channels) then [] else
        (if old(pubsub.isConnected) then [] else [Duplicate(pubsub.bClient.value)]) + [PSubscribe(pubsub.bClient.value, id)])
    {
      pending := pending[id := Pending(callback)];
      pubsub.Subscribe(id);
    }

    /** A pop of the queue channel completes as in Queue.Channel.CompletePop, and
        the popped item, if any, goes to the registered listeners: a failed pop
        calls no handler, and an item the checks drop calls none either, while
        the loop re-arms all the same. */
    method ServeQueue(i: nat, failed: bool) returns (item: Option<(string, Value)>, completed: bool)
      requires Valid() && i < |queue.pops| && Queue.FirstOnItsConn(queue.pops, i)
      modifies this`calls, queue`pops, queue`lists, queue`log, queue`loopsEnded
      ensures Valid()
      ensures !completed ==>
        && unchanged(this) && unchanged(queue) && item.None? && !failed
        && PopTail(queue.lists, queue.pops[i].keys).None?
      ensures failed ==> completed && item.None? && queue.lists == old(queue.lists)
      ensures completed && !failed ==>
        && PopTail(old(queue.lists), old(queue.pops)[i].keys).Some?
        && var p := PopTail(old(queue.lists), old(queue.pops)[i].keys).value;
           item == Some((p.key, p.item)) && queue.lists == p.lists
      ensures completed ==>
        var rearm := queue.channels != [];
        && queue.pops == old(queue.pops)[..i] + old(queue.pops)[i + 1..]
             + (if rearm then [Queue.Pop(queue.bClient.value, queue.channels)] else [])
        && queue.log == old(queue.log) + (if rearm then [BRPop(queue.bClient.value, queue.channels)] else [])
        && queue.loopsEnded == old(queue.loopsEnded) + (if rearm then 0 else 1)
      ensures calls == old(calls) + (if item.Some? then Calls(registrations, item.value.0, item.value.1) else [])
      ensures item.Some? && CheckRequest(item.value.1).Err? ==> calls == old(calls)
      ensures registrations == old(registrations) && pending == old(pending) && outcomes == old(outcomes)
      ensures queue.channels == old(queue.channels) && queue.bClient == old(queue.bClient)
    {
      item, completed := queue.CompletePop(i, failed);
      assert pubsub.Valid() && queue.Valid();
      if item.Some? {
        calls := calls + Calls(registrations, item.value.0, item.value.1);
      }
    }

    /** The completion callback of handler call `k`: publishes the response
        envelope on the request's id. */
    method Complete(k: nat, error: Value, result: Value, freshId: string)
      requires Valid() && k < |calls|
      modifies pubsub`log
      ensures Valid()
      ensures pubsub.log == old(pubsub.log) + [Publish(calls[k].replyTo, ResponseEnvelope(error, result, freshId))]
    {
      pubsub.PostMessage(calls[k].replyTo, ResponseEnvelope(error, result, freshId));
    }

    /** An inbound message for `pattern`. It is dispatched only when `pattern` is
        registered, and is heard only by a waiting invocation's once-listener:
        the listener is removed, the invocation settles (see Settle), and the
        id is unsubscribed unless reading the response threw. A second response
        on the same id finds no listener. */
    method Receive(pattern: string, message: Value) returns (s: Option<Settlement>)
      requires Valid()
      modifies this, pubsub
      ensures Valid()
      ensures pattern !in old(pending) ==> s.None? && unchanged(this) && unchanged(pubsub)
      ensures pattern in old(pending) ==>
        && s == Some(Settle(message))
        && pending == old(pending) - {pattern}
        && outcomes == old(outcomes) + [Outcome(pattern, Settle(message), old(pending)[pattern].callback)]
        && (Settle(message) != Threw ==>
              && pubsub.channels == old(pubsub.channels) - {pattern}
              && pubsub.duplicates == old(pubsub.duplicates)
              && pubsub.bClient == (if pubsub.channels == {} then None else old(pubsub.bClient))
              && pubsub.log == old(pubsub.log) + [PUnsubscribe(old(pubsub.bClient).value, pattern)]
                                               + (if pubsub.channels == {} then [Quit(old(pubsub.bClient).value)] else []))
        && (Settle(message) == Threw ==> unchanged(pubsub))
      ensures registrations == old(registrations) && calls == old(calls)
    {
      var d := pubsub.Dispatch(pattern, message);
      if d.None? || pattern !in pending {
        return None;
      }
      var listener := pending[pattern];
      pending := pending - {pattern};
      var settlement := Settle(d.value);
      outcomes := outcomes + [Outcome(pattern, settlement, listener.callback)];
      if settlement != Threw {
        pubsub.Unsubscribe(Some(pattern));
      }
      s := Some(settlement);
    }
  }

  /** `register('foobar', 'add')` followed by `invoke('foobar', 'add', [1, 2])`
      under the request id "request": the envelope waits in the queue and one
      pop is in flight across ["foobar"]. */
  method RequestQueued() returns (t: Transport)
    ensures fresh(t) && fresh(t.pubsub) && fresh(t.queue) && t.Valid()
    ensures t.registrations == [Registration("foobar", "add")] && t.calls == [] && "request" in t.pending
    ensures |t.queue.pops| == 1 && t.queue.pops[0].keys == ["foobar"]
    ensures ListAt(t.queue.lists, "foobar") == [RequestEnvelope("request", "add", [Num(1), Num(2)])]
  {
    t := new Transport();
    t.Register("foobar", "add");
    assert t.queue.lists == map[] && |t.queue.pops| == 1 && t.queue.pops[0].keys == ["foobar"];
    var params := [Num(1), Num(2)];
    assert CheckInvoke(Str("foobar"), Str("add"), Arr(params), Undefined) == Ok(Invocation("foobar", "add", params, None));
    var r := t.Invoke(Str("foobar"), Str("add"), Arr(params), Undefined, "request");
  }

  /** A handler registered for "add" on queue "foobar" and an invocation of "add"
      with [1, 2] on that queue: the listen loop started by `register` pops the
      request and the handler is called with 1 and 2, answering on the request id. */
  method AddRequestReachesHandler() returns (t: Transport)
    ensures fresh(t) && fresh(t.pubsub) && fresh(t.queue) && t.Valid()
    ensures t.calls == [HandlerCall(0, [Num(1), Num(2)], "request")]
    ensures "request" in t.pending
  {
    t := RequestQueued();
    var params := [Num(1), Num(2)];
    var envelope := RequestEnvelope("request", "add", params);
    assert PopTail(t.queue.lists, ["foobar"]).Some?;
    var item, completed := t.ServeQueue(0, false);
    assert item == Some(("foobar", envelope));
    RequestRoundTrip("request", "add", params);
    var req := Request("request", "add", params);
    var regs := [Registration("foobar", "add")];
    assert regs[..0] == [];
    assert Reactions(regs, "foobar", req) == [HandlerCall(0, params, "request")];
  }

  /** The handler above reports the sum of its two arguments; the response the
      store delivers on the request id resolves the invocation with 3. */
  method AddOverRpc() returns (s: Option<Settlement>)
    ensures s == Some(Resolved(Num(3)))
  {
    var t := AddRequestReachesHandler();
    var sum := Num(t.calls[0].params[0].n + t.calls[0].params[1].n);
    assert sum == Num(3) && t.calls[0].replyTo == "request";
    var response := ResponseEnvelope(Null, sum, "response");
    var before := t.pubsub.log;
    t.Complete(0, Null, sum, "response");
    var c := t.pubsub.bClient.value;
    assert "request" in SubscribedOn(before, c);
    DeliveredSnoc(before, c, Publish("request", response));
    var inbound := Delivered(t.pubsub.log, c);
    var last := inbound[|inbound| - 1];
    assert last == ("request", response);
    ResultRoundTrip(Null, sum, "response");
    s := t.Receive(last.0, last.1);
  }
}
