/** The store and its client, reduced to what the transport relies on.

    Every command the channels send is appended to a log; the effect of a log
    on the store is given by folds over it (which duplicated connections are
    still open, which patterns a connection is subscribed to). The store's
    lists, used by the work queues, are a map from key to list. */
module Redis {
  import opened Values

  /** A duplicated connection, numbered in the order the connections were made. */
  datatype Conn = Conn(serial: nat)

  datatype Command =
    | Duplicate(conn: Conn)                    // a new connection for blocking use
    | Quit(conn: Conn)                         // close a duplicated connection
    | PSubscribe(conn: Conn, pattern: string)
    | PUnsubscribe(conn: Conn, pattern: string)
    | BRPop(conn: Conn, keys: seq<string>)     // blocking pop, timeout 0
    | Publish(channel: string, payload: Value) // on the primary connection
    | LPush(key: string, payload: Value)       // on the primary connection
  {
    /** The duplicated connection the command is issued on, if any. */
    function Target(): Option<Conn> {
      match this
      case Duplicate(c) => Some(c)
      case Quit(c) => Some(c)
      case PSubscribe(c, _) => Some(c)
      case PUnsubscribe(c, _) => Some(c)
      case BRPop(c, _) => Some(c)
      case _ => None
    }
  }

  /** No command of `log` targets a connection numbered `n` or above. */
  ghost predicate NumberedBelow(log: seq<Command>, n: nat) {
    forall i :: 0 <= i < |log| && log[i].Target().Some? ==> log[i].Target().value.serial < n
  }

  function OpenAfter(open: set<Conn>, cmd: Command): set<Conn> {
    match cmd
    case Duplicate(c) => open + {c}
    case Quit(c) => open - {c}
    case _ => open
  }

  /** The duplicated connections made and not yet quit by the commands of `log`. */
  function Open(log: seq<Command>): set<Conn> {
    if log == [] then {} else OpenAfter(Open(log[..|log| - 1]), log[|log| - 1])
  }

  function SubscribedAfter(subs: set<string>, c: Conn, cmd: Command): set<string> {
    match cmd
    case PSubscribe(d, p) => if d == c then subs + {p} else subs
    case PUnsubscribe(d, p) => if d == c then subs - {p} else subs
    case Quit(d) => if d == c then {} else subs
    case _ => subs
  }

  /** The patterns connection `c` is subscribed to after the commands of `log`
      (PUNSUBSCRIBE with a pattern drops that pattern only; QUIT drops all). */
  function SubscribedOn(log: seq<Command>, c: Conn): set<string> {
    if log == [] then {} else SubscribedAfter(SubscribedOn(log[..|log| - 1], c), c, log[|log| - 1])
  }

  lemma OpenSnoc(log: seq<Command>, cmd: Command)
    ensures Open(log + [cmd]) == OpenAfter(Open(log), cmd)
  {
    assert (log + [cmd])[..|log|] == log;
  }

  lemma SubscribedSnoc(log: seq<Command>, c: Conn, cmd: Command)
    ensures SubscribedOn(log + [cmd], c) == SubscribedAfter(SubscribedOn(log, c), c, cmd)
  {
    assert (log + [cmd])[..|log|] == log;
  }

  /** Appending one command: the folds take one step, and the numbering bound
      survives when the command targets a connection below it. */
  lemma Issue(log: seq<Command>, cmd: Command, n: nat)
    requires NumberedBelow(log, n)
    requires cmd.Target().Some? ==> cmd.Target().value.serial < n
    ensures NumberedBelow(log + [cmd], n)
    ensures Open(log + [cmd]) == OpenAfter(Open(log), cmd)
    ensures forall c :: SubscribedOn(log + [cmd], c) == SubscribedAfter(SubscribedOn(log, c), c, cmd)
  {
    OpenSnoc(log, cmd);
    forall c {
      SubscribedSnoc(log, c, cmd);
    }
  }

  /** The (pattern, payload) pairs the store delivers to connection `c` for the
      PUBLISH commands of `log`. Patterns are matched literally: a publication on
      `ch` reaches `c` when `c` is subscribed to the pattern `ch` at that moment. */
  function Delivered(log: seq<Command>, c: Conn): seq<(string, Value)> {
    if log == [] then []
    else
      var init, last := log[..|log| - 1], log[|log| - 1];
      Delivered(init, c) +
        (if last.Publish? && last.channel in SubscribedOn(init, c) then [(last.channel, last.payload)] else [])
  }

  lemma DeliveredSnoc(log: seq<Command>, c: Conn, cmd: Command)
    ensures Delivered(log + [cmd], c) == Delivered(log, c) +
      (if cmd.Publish? && cmd.channel in SubscribedOn(log, c) then [(cmd.channel, cmd.payload)] else [])
  {
    assert (log + [cmd])[..|log|] == log;
  }

  /** A connection no command has targeted is neither open nor subscribed to anything. */
  lemma {:induction false} UntargetedIsIdle(log: seq<Command>, n: nat)
    requires NumberedBelow(log, n)
    ensures Conn(n) !in Open(log) && SubscribedOn(log, Conn(n)) == {}
  {
    if log != [] {
      var init := log[..|log| - 1];
      forall i | 0 <= i < |init| && init[i].Target().Some?
        ensures init[i].Target().value.serial < n
      {
        assert init[i] == log[i];
      }
      UntargetedIsIdle(init, n);
    }
  }

  // ---------------------------------------------------------------------------
  // Lists of the store

  /** The list stored under `key`; a missing key reads as the empty list. */
  function ListAt(lists: map<string, seq<Value>>, key: string): seq<Value> {
    if key in lists then lists[key] else []
  }

  /** LPUSH: the new item goes to the head of the list. */
  function PushHead(lists: map<string, seq<Value>>, key: string, v: Value): map<string, seq<Value>> {
    lists[key := [v] + ListAt(lists, key)]
  }

  datatype Popped = Popped(key: string, item: Value, lists: map<string, seq<Value>>)

  /** BRPOP answered at once: the tail item of the first non-empty list among
      `keys`, in the order the keys are given; None when every list is empty,
      in which case the pop keeps blocking. */
  function PopTail(lists: map<string, seq<Value>>, keys: seq<string>): (r: Option<Popped>)
    ensures r.None? <==> forall k :: k in keys ==> ListAt(lists, k) == []
    ensures r.Some? ==> r.value.key in keys && ListAt(lists, r.value.key) != []
    ensures r.Some? ==>
      var s := ListAt(lists, r.value.key);
      r.value.item == s[|s| - 1] && r.value.lists == lists[r.value.key := s[..|s| - 1]]
  {
    if keys == [] then None
    else if ListAt(lists, keys[0]) != [] then
      var s := ListAt(lists, keys[0]);
      Some(Popped(keys[0], s[|s| - 1], lists[keys[0] := s[..|s| - 1]]))
    else
      PopTail(lists, keys[1..])
  }

  /** The popped key is the first key in `keys` whose list is not empty. */
  lemma {:induction false} PopTakesFirstNonEmpty(lists: map<string, seq<Value>>, keys: seq<string>, j: nat)
    requires PopTail(lists, keys).Some? && j < |keys| && ListAt(lists, keys[j]) != []
    ensures PopTail(lists, keys).value.key in keys[..j + 1]
  {
    if ListAt(lists, keys[0]) == [] {
      PopTakesFirstNonEmpty(lists, keys[1..], j - 1);
      assert keys[1..][..j] == keys[1..j + 1];
    }
  }

  function Reverse(s: seq<Value>): seq<Value> {
    if s == [] then [] else Reverse(s[1..]) + [s[0]]
  }

  /** The items waiting in queue `key`, in the order consumers will get them. */
  function Backlog(lists: map<string, seq<Value>>, key: string): seq<Value> {
    Reverse(ListAt(lists, key))
  }

  lemma {:induction false} ReverseTail(s: seq<Value>)
    requires s != []
    ensures |Reverse(s)| == |s|
    ensures Reverse(s)[0] == s[|s| - 1] && Reverse(s[..|s| - 1]) == Reverse(s)[1..]
  {
    if |s| == 1 {
      assert s[..0] == [];
    } else {
      ReverseTail(s[1..]);
      assert s[1..][..|s| - 2] == s[..|s| - 1][1..];
    }
  }

  /** LPUSH puts the item at the back of the queue and touches no other queue. */
  lemma PushJoinsBack(lists: map<string, seq<Value>>, key: string, v: Value)
    ensures Backlog(PushHead(lists, key, v), key) == Backlog(lists, key) + [v]
    ensures forall k :: k != key ==> Backlog(PushHead(lists, key, v), k) == Backlog(lists, k)
  {
    assert ([v] + ListAt(lists, key))[1..] == ListAt(lists, key);
  }

  /** BRPOP takes the front of the first non-empty queue and touches no other queue:
      together with PushJoinsBack, each queue is first in, first out. */
  lemma PopTakesFront(lists: map<string, seq<Value>>, keys: seq<string>)
    requires PopTail(lists, keys).Some?
    ensures
      var p := PopTail(lists, keys).value;
      && Backlog(lists, p.key) != []
      && p.item == Backlog(lists, p.key)[0]
      && Backlog(p.lists, p.key) == Backlog(lists, p.key)[1..]
      && forall k :: k != p.key ==> Backlog(p.lists, k) == Backlog(lists, k)
  {
    var p := PopTail(lists, keys).value;
    ReverseTail(ListAt(lists, p.key));
  }
}
