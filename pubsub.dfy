/** The pattern-subscribe channel: a registry of channel names multiplexed onto
    one dedicated connection, which exists exactly while the registry is not empty. */
module PubSub {
  import opened Values
  import opened Redis

  class Channel {
    /** The registered channel names (a JavaScript Set; its order is never observed). */
    var channels: set<string>
    var isConnected: bool
    /** The dedicated connection; None stands for null. */
    var bClient: Option<Conn>
    /** How many connections this channel has duplicated from the primary client. */
    var duplicates: nat
    /** The commands this channel has sent to the store, in order. */
    var log: seq<Command>

    /** Connected, holding a dedicated connection and having a name registered go
        together; that connection is the only one open, and it is subscribed to
        exactly the registered names. */
    ghost predicate Valid()
      reads this
    {
      && (isConnected <==> bClient.Some?)
      && (bClient.Some? <==> channels != {})
      && Open(log) == (if bClient.Some? then {bClient.value} else {})
      && (bClient.Some? ==> SubscribedOn(log, bClient.value) == channels && bClient.value.serial < duplicates)
      && NumberedBelow(log, duplicates)
    }

    constructor ()
      ensures Valid()
      ensures channels == {} && !isConnected && bClient == None && duplicates == 0 && log == []
    {
      channels := {};
      isConnected := false;
      bClient := None;
      duplicates := 0;
      log := [];
    }

    /** Registers `name`. A name already registered changes nothing; otherwise the
        dedicated connection is duplicated only if there is none, then the name is
        added and pattern-subscribed on that connection. */
    method Subscribe(name: string)
      requires Valid()
      modifies this
      ensures Valid()
      ensures channels == old(channels) + {name}
      ensures isConnected && bClient.Some?
      ensures name in old(channels) ==> unchanged(this)
      ensures old(isConnected) ==> bClient == old(bClient) && duplicates == old(duplicates)
      ensures !old(isConnected) ==> bClient == Some(Conn(old(duplicates))) && duplicates == old(duplicates) + 1
      ensures name !in old(channels) ==>
        log == old(log) + (if old(isConnected) then [] else [Duplicate(bClient.value)]) + [PSubscribe(bClient.value, name)]
    {
      if name in channels {
        return;
      }
      if !isConnected {
        Connect();
      }
      var c := bClient.value;
      Issue(log, PSubscribe(c, name), duplicates);
      channels := channels + {name};
      log := log + [PSubscribe(c, name)];
      assert Open(log) == {c};
      assert SubscribedOn(log, c) == channels;
      assert NumberedBelow(log, duplicates);
    }

    /** Duplicates the primary client into a new dedicated connection, which
        starts open and subscribed to nothing; the registry is still empty. */
    method Connect()
      requires Valid() && !isConnected
      modifies this`log, this`bClient, this`duplicates, this`isConnected
      ensures isConnected && bClient == Some(Conn(old(duplicates))) && duplicates == old(duplicates) + 1
      ensures log == old(log) + [Duplicate(bClient.value)]
      ensures Open(log) == {bClient.value} && SubscribedOn(log, bClient.value) == {}
      ensures NumberedBelow(log, duplicates) && channels == {}
    {
      var c := Conn(duplicates);
      UntargetedIsIdle(log, duplicates);
      Issue(log, Duplicate(c), duplicates + 1);
      log := log + [Duplicate(c)];
      bClient := Some(c);
      duplicates := duplicates + 1;
      isConnected := true;
    }

    /** Unregisters `name`, or every name when `name` is None. Nothing happens when
        the registry is empty or `name` is not registered. Otherwise one
        PUNSUBSCRIBE is sent (for the empty pattern when no name is given), and the
        dedicated connection is quit and dropped once the registry is empty. */
    method Unsubscribe(name: Option<string>)
      requires Valid()
      modifies this
      ensures Valid()
      ensures old(channels) == {} || (name.Some? && name.value !in old(channels)) ==> unchanged(this)
      ensures old(channels) != {} && (name.None? || name.value in old(channels)) ==>
        && channels == (if name.None? then {} else old(channels) - {name.value})
        && duplicates == old(duplicates)
        && bClient == (if channels == {} then None else old(bClient))
        && isConnected == (channels != {})
        && log == old(log) + [PUnsubscribe(old(bClient).value, if name.Some? then name.value else "")]
                           + (if channels == {} then [Quit(old(bClient).value)] else [])
    {
      if channels == {} {
        return;
      }
      if name.Some? && name.value !in channels {
        return;
      }
      var c := bClient.value;
      var pattern := if name.Some? then name.value else "";
      Issue(log, PUnsubscribe(c, pattern), duplicates);
      log := log + [PUnsubscribe(c, pattern)];
      if name.None? {
        channels := {};
      } else {
        channels := channels - {name.value};
      }
      if isConnected && channels == {} {
        Issue(log, Quit(c), duplicates);
        log := log + [Quit(c)];
        bClient := None;
        isConnected := false;
        assert Open(log) == {};
      } else {
        assert SubscribedOn(log, c) == channels;
      }
    }

    /** Publishes `message` on `channel` through the primary connection: no
        subscription is needed and the registry and connection are left alone. */
    method PostMessage(channel: string, message: Value)
      requires Valid()
      modifies this`log
      ensures Valid()
      ensures log == old(log) + [Publish(channel, message)]
    {
      Issue(log, Publish(channel, message), duplicates);
      log := log + [Publish(channel, message)];
    }

    /** The guard of the `pmessage` handler: a message arriving for `pattern` is
        emitted to the local listeners of `pattern` only while `pattern` is
        registered, which is only while the dedicated connection is subscribed to it. */
    function Dispatch(pattern: string, message: Value): (r: Option<Value>)
      requires Valid()
      reads this
      ensures r.Some? <==> pattern in channels
      ensures r.Some? ==> r == Some(message) && isConnected && pattern in SubscribedOn(log, bClient.value)
    {
      if pattern in channels then Some(message) else None
    }
  }

  /** Subscribing to a channel and then posting an object on it hands that
      object to the channel's listeners. */
  method PostedMessageComesBack(m: Value) returns (got: seq<Value>)
    ensures got == [m]
  {
    var ps := new Channel();
    ps.Subscribe("foobar");
    ps.PostMessage("foobar", m);
    var c := ps.bClient.value;
    assert ps.log == [Duplicate(c), PSubscribe(c, "foobar"), Publish("foobar", m)];
    assert ps.log[..2] == [Duplicate(c), PSubscribe(c, "foobar")];
    assert ps.log[..2][..1] == [Duplicate(c)];
    assert [Duplicate(c)][..0] == [];
    assert SubscribedOn(ps.log[..2], c) == {"foobar"};
    assert Delivered([Duplicate(c)], c) == [];
    assert Delivered(ps.log[..2], c) == [];
    var inbound := Delivered(ps.log, c);
    assert inbound == [("foobar", m)];
    got := [];
    var d := ps.Dispatch(inbound[0].0, inbound[0].1);
    if d.Some? {
      got := got + [d.value];
    }
  }
}
