/** The work-queue channel: a registry of queue names consumed by blocking pops
    on one dedicated connection, which exists exactly while the registry is not
    empty. Every listen loop keeps one pop in flight. */
module Queue {
  import opened Values
  import opened Redis

  /** A blocking pop in flight, sent on `conn` across `keys`. */
  datatype Pop = Pop(conn: Conn, keys: seq<string>)

  predicate Distinct(s: seq<string>) {
    forall i, j :: 0 <= i < j < |s| ==> s[i] != s[j]
  }

  /** `s` with `x` deleted, the other names kept in their order. */
  function Without(s: seq<string>, x: string): (r: seq<string>)
    ensures forall y :: y in r <==> y in s && y != x
    ensures Distinct(s) ==> Distinct(r)
    ensures |r| <= |s|
  {
    if s == [] then []
    else if s[0] == x then Without(s[1..], x)
    else
      var rest := Without(s[1..], x);
      assert Distinct(s) ==> s[0] !in s[1..] && Distinct(s[1..]);
      [s[0]] + rest
  }

  /** The store answers the pops sent on one connection in the order they were sent. */
  predicate FirstOnItsConn(pops: seq<Pop>, i: nat)
    requires i < |pops|
  {
    forall j :: 0 <= j < i ==> pops[j].conn != pops[i].conn
  }

  class Channel {
    /** The registered queue names: a JavaScript Set, whose insertion order is the
        order in which a pop is given the keys. */
    var channels: seq<string>
    /** The dedicated connection; None stands for null. */
    var bClient: Option<Conn>
    /** How many connections this channel has duplicated from the primary client. */
    var duplicates: nat
    /** The pops in flight, one per active listen loop, oldest first. */
    var pops: seq<Pop>
    /** The lists of the store. */
    var lists: map<string, seq<Value>>
    /** The commands this channel has sent to the store, in order. */
    var log: seq<Command>
    /** Listen loops started (by subscribe) and ended (a pop completed while the
        registry was empty). */
    ghost var loopsStarted: nat
    ghost var loopsEnded: nat

    /** The active loops are those started and not ended. */
    ghost predicate Valid()
      reads this
    {
      Wired() && loopsStarted == |pops| + loopsEnded
    }

    /** The dedicated connection exists exactly while a name is registered and is
        then the only one not asked to quit; no pop is ever sent with an empty key
        list. */
    ghost predicate Wired()
      reads this
    {
      && Distinct(channels)
      && (bClient.Some? <==> channels != [])
      && Open(log) == (if bClient.Some? then {bClient.value} else {})
      && (bClient.Some? ==> bClient.value.serial < duplicates)
      && NumberedBelow(log, duplicates)
      && (forall i :: 0 <= i < |pops| ==> pops[i].keys != [])
    }

    constructor ()
      ensures Valid()
      ensures channels == [] && bClient == None && duplicates == 0 && pops == []
      ensures lists == map[] && log == [] && loopsStarted == 0 && loopsEnded == 0
    {
      channels := [];
      bClient := None;
      duplicates := 0;
      pops := [];
      lists := map[];
      log := [];
      loopsStarted := 0;
      loopsEnded := 0;
    }

    /** `_listen`, first half: one blocking pop across the names registered now. */
    method Listen()
      requires Wired() && channels != []
      modifies this`pops, this`log
      ensures Wired()
      ensures pops == old(pops) + [Pop(bClient.value, channels)]
      ensures log == old(log) + [BRPop(bClient.value, channels)]
    {
      Issue(log, BRPop(bClient.value, channels), duplicates);
      pops := pops + [Pop(bClient.value, channels)];
      log := log + [BRPop(bClient.value, channels)];
    }

    /** Registers `name`. A name already registered changes nothing and starts no
        loop. Otherwise the dedicated connection is duplicated only if there is
        none, the name is added, and one more listen loop starts. */
    method Subscribe(name: string)
      requires Valid()
      modifies this
      ensures Valid()
      ensures name in old(channels) ==> unchanged(this)
      ensures name !in old(channels) ==>
        && channels == old(channels) + [name]
        && (old(bClient).Some? ==> bClient == old(bClient) && duplicates == old(duplicates))
        && (old(bClient).None? ==> bClient == Some(Conn(old(duplicates))) && duplicates == old(duplicates) + 1)
        && pops == old(pops) + [Pop(bClient.value, channels)]
        && log == old(log) + (if old(bClient).Some? then [] else [Duplicate(bClient.value)]) + [BRPop(bClient.value, channels)]
        && lists == old(lists)
        && loopsStarted == old(loopsStarted) + 1 && loopsEnded == old(loopsEnded)
    {
      if name in channels {
        return;
      }
      if bClient.None? {
        Connect();
      }
      assert Distinct(channels + [name]);
      channels := channels + [name];
      loopsStarted := loopsStarted + 1;
      Listen();
    }

    /** Duplicates the primary client into a new dedicated connection, which
        starts as the only one open; the registry is still empty. */
    method Connect()
      requires Valid() && bClient.None?
      modifies this`log, this`bClient, this`duplicates
      ensures bClient == Some(Conn(old(duplicates))) && duplicates == old(duplicates) + 1
      ensures log == old(log) + [Duplicate(bClient.value)]
      ensures Open(log) == {bClient.value} && NumberedBelow(log, duplicates) && channels == []
    {
      var c := Conn(duplicates);
      UntargetedIsIdle(log, duplicates);
      Issue(log, Duplicate(c), duplicates + 1);
      log := log + [Duplicate(c)];
      bClient := Some(c);
      duplicates := duplicates + 1;
    }

    /** `_listen`, second half: the oldest pop in flight on its connection
        completes. Unless the client reports an error (`failed`), the store answers
        it from the first non-empty list among its keys; when all are empty it
        stays blocked and nothing changes. A completed pop hands its item, if any,
        to the listeners of the queue it came from; then the loop re-arms across
        the names registered now if there are any, and ends otherwise. */
    method CompletePop(i: nat, failed: bool) returns (item: Option<(string, Value)>, completed: bool)
      requires Valid() && i < |pops| && FirstOnItsConn(pops, i)
      modifies this`pops, this`lists, this`log, this`loopsEnded
      ensures Valid()
      ensures !completed ==> unchanged(this) && !failed && item.None? && PopTail(lists, pops[i].keys).None?
      ensures failed ==> completed && item.None? && lists == old(lists)
      ensures completed && !failed ==>
        && PopTail(old(lists), old(pops)[i].keys).Some?
        && var p := PopTail(old(lists), old(pops)[i].keys).value;
           item == Some((p.key, p.item)) && lists == p.lists
      ensures completed ==>
        && pops == old(pops)[..i] + old(pops)[i + 1..] + (if channels != [] then [Pop(bClient.value, channels)] else [])
        && log == old(log) + (if channels != [] then [BRPop(bClient.value, channels)] else [])
        && loopsEnded == old(loopsEnded) + (if channels != [] then 0 else 1)
    {
      item := None;
      if !failed {
        var r := PopTail(lists, pops[i].keys);
        if r.None? {
          completed := false;
          return;
        }
        lists := r.value.lists;
        item := Some((r.value.key, r.value.item));
      }
      completed := true;
      var rest := pops[..i] + pops[i + 1..];
      forall j | 0 <= j < |rest|
        ensures rest[j].keys != []
      {
        assert rest[j] == if j < i then pops[j] else pops[j + 1];
      }
      pops := rest;
      if channels != [] {
        Listen();
      } else {
        loopsEnded := loopsEnded + 1;
      }
    }

    /** Unregisters `name`, or every name when `name` is None; a name that is not
        registered changes nothing. Once the registry is empty the dedicated
        connection is quit and dropped; pops already in flight stay in flight. */
    method Unsubscribe(name: Option<string>)
      requires Valid()
      modifies this`channels, this`bClient, this`log
      ensures Valid()
      ensures name.Some? && name.value !in old(channels) ==> unchanged(this)
      ensures name.None? || name.value in old(channels) ==>
        && channels == (if name.None? then [] else Without(old(channels), name.value))
        && bClient == (if channels == [] then None else old(bClient))
        && log == old(log) + (if channels == [] && old(bClient).Some? then [Quit(old(bClient).value)] else [])
    {
      if name.Some? && name.value !in channels {
        return;
      }
      if name.None? {
        channels := [];
      } else {
        channels := Without(channels, name.value);
      }
      if channels == [] && bClient.Some? {
        var c := bClient.value;
        Issue(log, Quit(c), duplicates);
        log := log + [Quit(c)];
        bClient := None;
      }
    }

    /** Pushes `message` onto the list `name` through the primary connection; it
        joins the back of that queue's backlog. */
    method PostMessage(name: string, message: Value)
      requires Valid()
      modifies this`lists, this`log
      ensures Valid()
      ensures lists == PushHead(old(lists), name, message)
      ensures Backlog(lists, name) == Backlog(old(lists), name) + [message]
      ensures log == old(log) + [LPush(name, message)]
    {
      Issue(log, LPush(name, message), duplicates);
      PushJoinsBack(lists, name, message);
      lists := PushHead(lists, name, message);
      log := log + [LPush(name, message)];
    }
  }

  /** An object posted on queue "foobar" before anyone listens waits there once
      the queue is subscribed to, with one pop in flight across ["foobar"]. */
  method ItemWaiting(m: Value) returns (q: Channel)
    ensures fresh(q) && q.Valid()
    ensures q.channels == ["foobar"] && q.bClient.Some?
    ensures q.pops == [Pop(q.bClient.value, ["foobar"])] && ListAt(q.lists, "foobar") == [m]
  {
    q := new Channel();
    q.PostMessage("foobar", m);
    assert ListAt(q.lists, "foobar") == [m];
    q.Subscribe("foobar");
    assert q.channels == ["foobar"];
  }

  /** An object posted on a queue before anyone listens is handed to the queue's
      listeners by the first pop once the queue is subscribed to; unsubscribing
      then drops the dedicated connection. */
  method PostedItemIsConsumed(m: Value) returns (item: Option<(string, Value)>, connected: bool)
    ensures item == Some(("foobar", m)) && !connected
  {
    var q := ItemWaiting(m);
    assert PopTail(q.lists, ["foobar"]).Some?;
    var completed;
    item, completed := q.CompletePop(0, false);
    assert Without(["foobar"], "foobar") == [];
    q.Unsubscribe(Some("foobar"));
    connected := q.bClient.Some?;
  }

  /** Each new name starts its own listen loop, even while a pop is in flight:
      two names, two pops on the same connection. */
  method LoopPerName() returns (active: nat, sameConn: bool)
    ensures active == 2 && sameConn
  {
    var q := new Channel();
    q.Subscribe("a");
    q.Subscribe("b");
    q.Subscribe("a");
    active := |q.pops|;
    sameConn := q.pops[0].conn == q.pops[1].conn;
  }
}
