# redis-micro-transport, modelled in Dafny

The transport connects worker processes through a Redis store. It has three parts:

- a **pattern-subscribe channel** (`PubSub`). It keeps a registry of channel names, multiplexed onto one dedicated connection duplicated from the primary client.
- a **work-queue channel** (`Queue`). It keeps a registry of queue names, consumed by blocking pops (BRPOP) on a dedicated connection. Every listen loop re-arms after each pop for as long as a name is registered.
- a **JSON-RPC 2.0 transport** (`Transport`) built on the two channels:
  - `register` listens on a queue, checks each popped request, and calls the handler bound to the method the request names. The handler's completion callback publishes a response envelope on the channel named by the request id.
  - `invoke` checks its arguments and normalises `params`. It adds a one-shot listener on a fresh request id and subscribes to that id before pushing the request. The first response settles the invocation.

The model is in six files, each of them one module:

- `values.dfy` (`Values`): JavaScript values, truthiness and property reads.
- `redis.dfy` (`Redis`): the store and its client as a log of commands. It has:
  - folds over the log: which duplicated connections are still open, which patterns a connection is subscribed to, and what PUBLISH delivers;
  - the store's lists, with LPUSH and BRPOP.
- `pubsub.dfy` (`PubSub`): class `Channel`, modelled on `src/PubSub.js`.
- `queue.dfy` (`Queue`): class `Channel`, modelled on `src/Queue.js`.
- `jsonrpc.dfy` (`JsonRpc`): the pure parts of `src/Transport.js`. These are the request checks, the envelopes, the `invoke` argument checks and params normalisation, and how a response settles an invocation.
- `transport.dfy` (`Transport`): class `Transport`, with `register`, `invoke`, the serving of queue pops, handler completion and response delivery.

Each asynchronous step is one atomic method. The two channel classes have a `Valid()` invariant, and every public operation preserves it. The helpers `Connect` and `Listen` are only steps inside an operation, so they do not. For the `PubSub` channel, the invariant says:

- it is connected exactly when it holds a dedicated connection, and exactly when its registry is not empty;
- that connection is the only one the channel has opened and not quit;
- that connection is subscribed to exactly the registered names.

The `Queue` channel has the same connection invariant. It also keeps ghost loop counters: the active loops (pops in flight) are the loops started minus the loops ended.

## Model

| member | source | states |
|---|---|---|
| `PubSub.Channel.constructor` | src/PubSub.js:7-17 | A new channel has an empty registry and no dedicated connection, is not connected, and has sent no command. |
| `PubSub.Channel.Subscribe` | src/PubSub.js:19-54 | Registering a name that is already registered changes nothing and sends nothing. Otherwise the registry gains the name, the channel is connected, and it sends one PSUBSCRIBE for the name. A connection is duplicated only when there was none; if there was one, it is reused. The invariant is kept, so at most one dedicated connection is open. |
| `PubSub.Channel.Connect` | src/PubSub.js:29-42 | When the channel is not connected, it duplicates the primary client into a new connection, numbered after all earlier ones. That connection is then the only open one and is subscribed to nothing, and the channel is connected. |
| `PubSub.Channel.Unsubscribe` | src/PubSub.js:56-91 | With an empty registry, or with a name that is not registered, nothing changes. Otherwise the name is removed (all names when none is given), and one PUNSUBSCRIBE is sent (for the empty pattern when no name is given). The connection is quit and dropped exactly when the registry becomes empty; otherwise it is kept. |
| `PubSub.Channel.PostMessage` | src/PubSub.js:93-95 | Publishes on the primary connection. Only the command log changes, so no subscription is needed and the registry and connection are left alone. |
| `PubSub.Channel.Dispatch` | src/PubSub.js:34-38 | An inbound message for a pattern is emitted exactly when the pattern is registered. When it is emitted, the dedicated connection exists and is subscribed to that pattern. |
| `PubSub.PostedMessageComesBack` | test/transport.js:41-53 | After subscribing to "foobar" and posting an object on it, the store delivers the object to the dedicated connection, and the guard passes it to the listeners. |
| `Queue.Channel.constructor` | src/Queue.js:7-15 | A new channel has an empty registry, no connection, no pops in flight and no loops. |
| `Queue.Channel.Listen` | src/Queue.js:17-18 | One listen cycle starts: a blocking pop is sent on the dedicated connection, across exactly the registered names in insertion order. |
| `Queue.Channel.Subscribe` | src/Queue.js:31-49 | Registering a name that is already registered changes nothing and starts no loop. Otherwise a connection is duplicated only if there is none, the name is appended, and one more listen loop starts (loops started + 1), whether or not a pop is already in flight. |
| `Queue.Channel.Connect` | src/Queue.js:38-40 | When there is no dedicated connection, it duplicates the primary client into a new connection, numbered after all earlier ones. That connection is then the only open one. |
| `Queue.Channel.CompletePop` | src/Queue.js:17-28 | The oldest pop in flight on a connection completes. Without a client error, the store answers it with the tail item of the first non-empty list among its keys; if all those lists are empty, the pop stays blocked and nothing changes. A client error completes the pop with no item. After a completed pop, the loop re-arms across the names registered now if there are any, and ends otherwise. |
| `Queue.Channel.Unsubscribe` | src/Queue.js:51-76 | A name that is not registered changes nothing. Otherwise exactly that name is removed (all names when none is given) and the others keep their order. The connection is quit and dropped exactly when the registry becomes empty; otherwise it is kept. |
| `Queue.Channel.PostMessage` | src/Queue.js:78-80 | LPUSH on the primary connection: the item joins the back of that queue's backlog. |
| `Queue.Without` | src/Queue.js:64 | Deleting a name keeps every other name, drops that one, and keeps the names distinct. |
| `Queue.ItemWaiting` | test/transport.js:18-31 | After an object is posted on "foobar" and "foobar" is subscribed to, the object waits in that list, and one pop across ["foobar"] is in flight. |
| `Queue.PostedItemIsConsumed` | test/transport.js:18-37 | An object posted on "foobar" before anyone listens is handed over under "foobar" by the first pop after subscribing. Unsubscribing afterwards drops the dedicated connection. |
| `Queue.LoopPerName` | src/Queue.js:46 | Subscribing to "a", then "b", then "a" again leaves two pops in flight on the same connection: one loop per new name. |
| `Redis.PopTail` | src/Queue.js:18-21 | BRPOP answered at once: it returns nothing exactly when every key's list is empty. Otherwise it returns a key from the list of keys, that list's last item, and the lists with that item removed. |
| `Redis.PopTakesFirstNonEmpty` | src/Queue.js:18 | The popped key is the first key, in the order given, whose list is not empty. |
| `Redis.PushJoinsBack` | src/Queue.js:78-80 | LPUSH appends the item to the back of that queue's backlog and leaves other queues alone. |
| `Redis.PopTakesFront` | src/Queue.js:18-21 | BRPOP removes and returns the front of the popped queue's backlog and leaves other queues alone. With PushJoinsBack, each queue is first in, first out. |
| `Redis.UntargetedIsIdle` | src/PubSub.js:31 | A connection that no command has targeted is not open and has no subscriptions, so a newly duplicated connection starts clean. |
| `JsonRpc.CheckRequest` | src/Transport.js:39-62 | The listener's checks run in order, and the first failure decides the drop: a null item, then `jsonrpc` not "2.0", then `id` not a string, then `method` not a string, then `params` not an array. When the request is accepted, its id, method and params are the item's, and a missing `params` reads as `[]`. |
| `JsonRpc.AcceptsExactlyWellFormed` | src/Transport.js:39-62 | The listener accepts an item exactly when it has the request shape this transport accepts: `jsonrpc` is "2.0", `id` and `method` are strings, and `params` is absent or an array. This is stricter than JSON-RPC 2.0, which also allows a numeric or null `id` and `params` given by name. |
| `JsonRpc.RequestRoundTrip` | src/Transport.js:123 | The envelope `invoke` pushes passes the listener's checks and reads back the same id, method and params. |
| `JsonRpc.NormaliseParams` | src/Transport.js:91-100 | The params argument becomes an array, or else a TypeError. A function or undefined gives `[]`. A plain object, number, string or date gives a one-element array. An array is kept. Null, a boolean or any other object that is not plain gives a TypeError; boxed numbers and strings are not part of the model. |
| `JsonRpc.CheckInvoke` | src/Transport.js:79-100 | A channel that is not a string is a TypeError; then a method that is not a string is a TypeError; then params are normalised. A function in the params position becomes the callback. |
| `JsonRpc.ResultRoundTrip` | src/Transport.js:65-71 | A response whose error is falsy resolves the invocation with the result the handler reported. |
| `JsonRpc.PlainErrorRoundTrip` | src/Transport.js:107-113 | A truthy error without the Boom tag rejects the invocation with that error unchanged. |
| `JsonRpc.BoomRoundTrip` | src/Transport.js:107-113 | A Boom error reported by the handler is rebuilt with the same status code, message and data, so a 404 stays a 404. |
| `JsonRpc.Rebuild` | src/Transport.js:107-111 | An error without the Boom tag is kept unchanged. A Boom-tagged error is rebuilt from `output.payload.statusCode`, `output.payload.message` and `data`. Reading it throws (no failure) exactly when it is tagged and `output` or `output.payload` is null or undefined. |
| `JsonRpc.Settle` | src/Transport.js:105-116 | The invocation resolves exactly when the response is readable and its `error` is falsy, and then it resolves with `result`. It rejects only on a truthy error, with that error as `Rebuild` gives it. Reading throws exactly when the response is null or undefined, or when a Boom-tagged error has no `output.payload`. ResultRoundTrip, PlainErrorRoundTrip and BoomRoundTrip apply this to the envelope a handler publishes. |
| `Transport.Calls` | src/Transport.js:39-73 | The handler calls one popped item causes. An item the checks drop calls nothing. Each call belongs to a listener of this queue whose method is the item's `method`. The call answers on the item's `id`, with the item's `params` (or `[]` when they are missing). Any call at all means the item has the accepted request shape. |
| `Transport.Reactions` | src/Transport.js:39-73 | Every listener of the request's queue sees the request, in registration order. Only a listener bound to that queue and to the method the request names calls its handler: once, with the request's params, answering on the request id. Listeners bound to other methods or other queues call nothing. |
| `Transport.ReactionsReachEveryMatch` | src/Transport.js:39-73 | No listener is missed: every listener bound to the request's queue and method calls its handler. |
| `Transport.UnknownMethodCallsNothing` | src/Transport.js:64 | A request for a method that no listener of its queue is bound to calls no handler. |
| `Transport.Transport.constructor` | src/Transport.js:14-24 | A new transport owns two fresh, empty channels and has no registrations, calls or waiting invocations. |
| `Transport.Transport.Register` | src/Transport.js:38-77 | Adds the listener for the method, then subscribes the queue channel to the queue. A known queue name leaves the queue channel unchanged. A new one reuses the existing connection, or duplicates one when there is none. It starts one more listen loop: a BRPOP across the registered names, logged after the optional duplication. |
| `Transport.Transport.Invoke` | src/Transport.js:79-126 | Refused arguments give the TypeError and change nothing. Otherwise the once-listener for the fresh id is added and the id is subscribed, and then the envelope `{id, method, params, jsonrpc: "2.0"}` is pushed to the back of the queue's backlog. The pubsub channel sends nothing more than `subscribe` does: nothing when the id is already registered, otherwise an optional duplication and one PSUBSCRIBE for the id. Its connection is kept when it was connected. On the queue channel only the lists and the log change. Every waiting id stays subscribed. |
| `Transport.Transport.AwaitResponse` | src/Transport.js:105-121 | The first half of an accepted `invoke`. The once-listener for the id is added, and the pubsub channel subscribes to the id exactly as `subscribe` does: nothing is sent when the id is already registered; otherwise an optional duplication and one PSUBSCRIBE are sent, and an existing connection is kept. |
| `Transport.Transport.ServeQueue` | src/Queue.js:17-28 | A pop completes as in CompletePop. A blocked pop changes nothing. A failed pop yields no item, leaves the lists alone and calls no handler. Otherwise the pop takes the store's answer. The loop re-arms across the registered names when there are any, and ends otherwise; the registry and connection stay as they were. The popped item calls exactly the handlers `Reactions` gives for it, and none when the checks drop it. |
| `Transport.Transport.Complete` | src/Transport.js:65-71 | The completion callback publishes `{error, result, id: fresh, jsonrpc: "2.0"}` on the channel named by the request id. |
| `Transport.Transport.Receive` | src/Transport.js:106-119 | A response for an id with no waiting listener changes nothing, including a second response on the same id. Otherwise the once-listener is removed and the invocation settles as `Settle` says. The id is then unsubscribed, unless reading the response threw: one PUNSUBSCRIBE for the id is sent, followed by QUIT and the loss of the connection exactly when no name remains. Otherwise the connection is kept. |
| `Transport.RequestQueued` | test/transport.js:62-69 | After `register('foobar','add')` and `invoke('foobar','add',[1,2])`, the request envelope waits in "foobar", one pop across ["foobar"] is in flight, and the invocation is waiting. |
| `Transport.AddRequestReachesHandler` | test/transport.js:62-74 | `register('foobar','add')` and then `invoke('foobar','add',[1,2])`: the first pop calls the handler with 1 and 2, answering on the request id. |
| `Transport.AddOverRpc` | test/transport.js:62-74 | The handler above reports the sum of its arguments. The response the store delivers on the request id resolves the invocation with 3. |

## Behaviour of the code kept by the model

- The transport has no open or closed state and no not-connected error. `test/transport.js:10` calls an `open` method that `src/Transport.js` does not define.
- Every new queue name starts another listen loop (src/Queue.js:46), even while a pop is in flight. So several pops can be queued on one connection. The model counts the loops (`Queue.LoopPerName`) and does not assume there is at most one.
- `unsubscribe()` with no name sends PUNSUBSCRIBE for the empty pattern (src/PubSub.js:68). On the store, this drops only the pattern "". The subscriptions end because the connection is then quit.
- A pop that is still in flight when its names are unregistered can still return an item. That item is handed to the listeners of a name that is no longer registered.
- The invoker rejects on a *truthy* `error`. A falsy error such as `0` or `""` resolves the invocation instead.
- Destructuring a null item throws. A `register` listener then calls no handler (`Unreadable`). The once-listener of `invoke` is already removed by then, so the invocation never settles and its id stays subscribed (`Threw`). The same happens when a Boom-tagged error has no `output.payload`.

## Left out

- Redis client I/O (`duplicate`, `psubscribeAsync`, `punsubscribeAsync`, `brpopAsync`, `lpushAsync`, `publishAsync`, `quit`, `quitAsync`, `monitor`): each becomes a command appended to a log. Its effect is given by folds over the log. A pattern matches a channel only when the two are the same string; glob patterns are not modelled.
- JSON serialisation: payloads travel as values and reach the other side unchanged. This matches the code only for JSON values, that is, values built from `Null`, `Bool`, `Num`, `Str`, `Arr` and `Obj`. For other payloads the code behaves differently, and the model does not capture it:
  - a `Date` arrives as its ISO string;
  - a function, or `undefined`, inside an array arrives as `null`, and inside an object it is dropped;
  - an `Instance` arrives as its own enumerable properties, so an `Error` passed to a handler's callback arrives as `{}`.
- A JSON parse failure is not caught anywhere in the code, so no recovery from it is modelled.
- Boxed numbers and strings (`new Number(1)`, `new String('a')`) are not modelled. `Instance` stands for the other objects that are not plain. `invoke` would wrap a boxed number or string in a one-element array, as it does a number or string.
- `uuid.v4`: the fresh id is a parameter. `Invoke` requires that no waiting invocation already uses it, which stands for the uniqueness of the generated ids.
- `Boom.create`: only the decision to rebuild a tagged error, and the three fields it is rebuilt from, are modelled (`Structured`).
- Promise interleavings: every step is atomic. Two `PubSub.subscribe` calls for one name in the same tick could both send PSUBSCRIBE, and the model does not show this. An `invoke` response is heard only after `invoke` completes.
- PubSub.Channel.Subscribe, PubSub.Channel.Unsubscribe, Transport.Transport.Invoke: PSUBSCRIBE and PUNSUBSCRIBE never fail in the model, so the invariant that the dedicated connection is subscribed to exactly the registered names always holds. In the code, the name is registered before PSUBSCRIBE is sent (src/PubSub.js:46-53). If PSUBSCRIBE then fails, the name stays registered without a subscription, and a later `subscribe` of that name does nothing. If the subscription made by `invoke` fails, the request is never pushed (src/Transport.js:121-124).
- Queue.Channel.CompletePop: a blocked BRPOP is answered only when `CompletePop` is called for it, from the first non-empty list among its keys at that moment. Redis answers a blocked pop as soon as an item is pushed, from the list that was pushed to, and serves blocked connections in the order they blocked. Several pushes can pile up in the model before a pop is answered, so the model may take an item from an earlier key that Redis would not have handed to that pop.
- The store answers the pops on one connection in the order they were sent (`Queue.FirstOnItsConn`). A QUIT waits behind them, so the model answers a pop even after its connection was asked to quit. A client error on a pop is the `failed` input.
- The lists of the store live in the queue channel. Only this process pushes and pops; other processes' traffic is not modelled.
- Event emitters: only the transport's own listeners are modelled, that is, its `register` listeners and the once-listeners of `invoke`. Other local listeners, `removeAllListeners` and `setMaxListeners` are not modelled. An exception thrown by a handler is not modelled.
- Handlers are external. A handler call is recorded (`HandlerCall`), and its completion callback is `Complete`, which may be called any number of times. The `invoke` callback is recorded in the `Outcome`; calling it is not modelled.
- `register` takes its queue and method names as strings; the code does not check them.
- `close` only quits the primary client, which has no state in this model. Debug monitor logging and the `console.error` messages are not modelled; only the drop decisions are kept.
- Numbers are integers, so floating point and NaN are not modelled. A date is its timestamp. The properties of objects other than plain objects are not modelled.
