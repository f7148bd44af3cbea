/** One broadcaster node as an object, in its state BROADCASTING: its methods
    update the connections and the record of sent messages in place, send
    packets, call back and post events. Each is proved against Flooding. */
module BroadcasterNodes {
  import opened Sequences
  import opened Flooding

  class BroadcasterNode {
    var connectedBroadcasters: seq<Id>
    var listeners: map<Id, set<Id>>
    var messagesSent: map<MsgId, int>
    const hasCallback: bool

    // What the outside sees: packets sent, callbacks, events posted.
    var wire: seq<Packet>
    var calls: seq<MsgId>
    var posted: seq<Job>

    ghost function State(): Node
      reads `connectedBroadcasters, `listeners, `messagesSent
    {
      Node(connectedBroadcasters, listeners, hasCallback, messagesSent.Keys)
    }

    constructor (hasCallback: bool)
      ensures State() == Node([], map[], hasCallback, {})
      ensures wire == [] && calls == [] && posted == []
    {
      connectedBroadcasters, listeners, messagesSent := [], map[], map[];
      this.hasCallback := hasCallback;
      wire, calls, posted := [], [], [];
    }

    method AddBroadcaster(id: Id)
      modifies `connectedBroadcasters
      ensures State() == Flooding.AddBroadcaster(old(State()), id)
    {
      if id == "" || id in connectedBroadcasters {
        return;
      }
      connectedBroadcasters := connectedBroadcasters + [id];
    }

    method RemoveBroadcaster(id: Id)
      modifies `connectedBroadcasters
      ensures State() == Flooding.RemoveBroadcaster(old(State()), id)
    {
      if id !in connectedBroadcasters {
        RemoveFirstAbsent(connectedBroadcasters, id);
        return;
      }
      connectedBroadcasters := RemoveFirst(connectedBroadcasters, id);
    }

    method AddListener(id: Id, scope: set<Id>)
      modifies `listeners
      ensures State() == Flooding.AddListener(old(State()), id, scope)
    {
      if id in connectedBroadcasters {
        return;
      }
      listeners := listeners[id := scope];
    }

    method RemoveListener(id: Id)
      modifies `listeners
      ensures State() == Flooding.RemoveListener(old(State()), id)
    {
      if id in listeners {
        listeners := listeners - {id};
      }
      assert listeners == old(listeners) - {id};
    }

    method OnInboxPacket(packet: Packet)
      modifies `posted
      ensures posted == old(posted) + Receive(State(), packet)
    {
      if packet.msg.id in messagesSent {
        return;
      }
      if packet.msg.owner in listeners {
        if packet.msg.owner in connectedBroadcasters {
          return;
        }
        posted := posted + [Outbound(packet.msg, Peer(packet.ownerId))];
      } else {
        posted := posted + [Received(packet.msg)];
      }
    }

    /** The order in which the listeners got their copies is returned. */
    method DoCheckAndSendForward(msg: Message, now: int) returns (order: seq<Id>)
      modifies `messagesSent, `wire, `calls
      ensures State() == Handle(old(State()), Received(msg))
      ensures wire == old(wire) + Packets(old(State()), Received(msg), order)
      ensures calls == old(calls) + Notices(old(State()), Received(msg))
      ensures Sends(old(State()), Received(msg)) ==> Lists(order, Audience(old(State()), msg, {}))
    {
      order := [];
      if msg.id in messagesSent {
        return;
      }
      order := SendToListeners(msg, {});
      if hasCallback {
        calls := calls + [msg.id];
      }
      SendToBroadcasters(msg, order);
      messagesSent := messagesSent[msg.id := now];
    }

    /** A message of the node's own comes without a packet: with a listener
        connected, reading the owner of that packet raises an exception. */
    method DoBroadcastMessage(msg: Message, from: Sender, now: int) returns (order: seq<Id>, raised: bool)
      modifies `messagesSent, `wire, `calls
      ensures raised == (msg.id !in old(messagesSent) && Stuck(old(State()), Outbound(msg, from)))
      ensures State() == Handle(old(State()), Outbound(msg, from))
      ensures wire == old(wire) + Packets(old(State()), Outbound(msg, from), order)
      ensures calls == old(calls) + Notices(old(State()), Outbound(msg, from))
      ensures Sends(old(State()), Outbound(msg, from)) ==>
                Lists(order, Audience(old(State()), msg, Skips(Outbound(msg, from))))
    {
      order, raised := [], false;
      if msg.id in messagesSent {
        return;
      }
      if listeners != map[] && from.Self? {
        return [], true;
      }
      order := SendToListeners(msg, Skips(Outbound(msg, from)));
      if hasCallback {
        calls := calls + [msg.id];
      }
      SendToBroadcasters(msg, order);
      messagesSent := messagesSent[msg.id := now];
    }

    method SendToListeners(msg: Message, skip: set<Id>) returns (order: seq<Id>)
      modifies `wire
      ensures Lists(order, Audience(State(), msg, skip))
      ensures wire == old(wire) + Copies(order, msg)
    {
      order := [];
      var todo := listeners.Keys;
      while todo != {}
        invariant todo <= listeners.Keys
        invariant NoDup(order) && forall l :: l in order <==> l in Audience(State(), msg, skip) && l !in todo
        invariant wire == old(wire) + Copies(order, msg)
        decreases todo
      {
        var listener :| listener in todo;
        todo := todo - {listener};
        if listener in skip {
          continue;
        }
        if listeners[listener] == {} || msg.owner in listeners[listener] {
          wire := wire + [Packet(listener, msg, msg.owner)];
          order := order + [listener];
          assert order[..|order|-1] + [listener] == order;
        }
      }
    }

    method SendToBroadcasters(msg: Message, ghost order: seq<Id>)
      modifies `wire
      requires |wire| >= |order| && wire[|wire| - |order|..] == Copies(order, msg)
      ensures wire == old(wire[..|wire| - |order|]) + Copies(order + connectedBroadcasters, msg)
    {
      ghost var start := wire[..|wire| - |order|];
      var k := 0;
      assert order + connectedBroadcasters[..0] == order;
      while k < |connectedBroadcasters|
        invariant k <= |connectedBroadcasters|
        invariant wire == start + Copies(order + connectedBroadcasters[..k], msg)
      {
        wire := wire + [Packet(connectedBroadcasters[k], msg, msg.owner)];
        k := k + 1;
        ghost var to := order + connectedBroadcasters[..k];
        assert to[..|to|-1] == order + connectedBroadcasters[..k-1];
      }
      assert connectedBroadcasters[..k] == connectedBroadcasters;
    }
  }
}
