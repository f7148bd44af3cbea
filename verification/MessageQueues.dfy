/** The message queues as the module keeps them: two dictionaries by consumer
    and a set of received IDs, changed in place. Calls do not re-enter. */
module MessageQueues {
  import opened Sequences
  import opened MessageSpec

  ghost predicate Fits(callbacks: map<ConsumerId, seq<nat>>, queue: map<ConsumerId, seq<Message>>,
    pushed: map<ConsumerId, seq<Message>>, rounds: map<ConsumerId, seq<Round>>)
  {
    queue.Keys <= callbacks.Keys && pushed.Keys == callbacks.Keys && rounds.Keys == callbacks.Keys
  }

  function Queued(queue: map<ConsumerId, seq<Message>>, c: ConsumerId): seq<Message> {
    if c in queue then queue[c] else []
  }

  /** The dictionaries seen consumer by consumer. */
  ghost function View(callbacks: map<ConsumerId, seq<nat>>, queue: map<ConsumerId, seq<Message>>,
    pushed: map<ConsumerId, seq<Message>>, rounds: map<ConsumerId, seq<Round>>): map<ConsumerId, Consumer>
    requires Fits(callbacks, queue, pushed, rounds)
  {
    map c | c in callbacks :: Consumer(callbacks[c], Queued(queue, c), pushed[c], rounds[c])
  }

  lemma ViewPut(callbacks: map<ConsumerId, seq<nat>>, queue: map<ConsumerId, seq<Message>>,
    pushed: map<ConsumerId, seq<Message>>, rounds: map<ConsumerId, seq<Round>>,
    c: ConsumerId, k: Consumer, newQueue: map<ConsumerId, seq<Message>>)
    requires Fits(callbacks, queue, pushed, rounds)
    requires newQueue == queue[c := k.waiting] || (newQueue == queue && Queued(queue, c) == k.waiting)
    ensures Fits(callbacks[c := k.callbacks], newQueue, pushed[c := k.pushed], rounds[c := k.rounds])
    ensures View(callbacks[c := k.callbacks], newQueue, pushed[c := k.pushed], rounds[c := k.rounds])
         == View(callbacks, queue, pushed, rounds)[c := k]
  {
  }

  /** One more callback for a registered consumer. */
  lemma ViewCallback(callbacks: map<ConsumerId, seq<nat>>, queue: map<ConsumerId, seq<Message>>,
    pushed: map<ConsumerId, seq<Message>>, rounds: map<ConsumerId, seq<Round>>, c: ConsumerId, d: nat)
    requires Fits(callbacks, queue, pushed, rounds) && c in callbacks
    ensures Fits(callbacks[c := callbacks[c] + [d]], queue, pushed, rounds)
    ensures var v := View(callbacks, queue, pushed, rounds);
      c in v && View(callbacks[c := callbacks[c] + [d]], queue, pushed, rounds)
             == v[c := v[c].(callbacks := v[c].callbacks + [d])]
  {
  }

  lemma ViewDrop(callbacks: map<ConsumerId, seq<nat>>, queue: map<ConsumerId, seq<Message>>,
    pushed: map<ConsumerId, seq<Message>>, rounds: map<ConsumerId, seq<Round>>, c: ConsumerId)
    requires Fits(callbacks, queue, pushed, rounds)
    ensures Fits(callbacks - {c}, queue - {c}, pushed - {c}, rounds - {c})
    ensures View(callbacks - {c}, queue - {c}, pushed - {c}, rounds - {c})
         == View(callbacks, queue, pushed, rounds) - {c}
  {
  }

  lemma ViewHas(callbacks: map<ConsumerId, seq<nat>>, queue: map<ConsumerId, seq<Message>>,
    pushed: map<ConsumerId, seq<Message>>, rounds: map<ConsumerId, seq<Round>>, c: ConsumerId)
    requires Fits(callbacks, queue, pushed, rounds)
    ensures var v := View(callbacks, queue, pushed, rounds);
      (c in v <==> c in callbacks)
      && (c in v ==> v[c] == Consumer(callbacks[c], Queued(queue, c), pushed[c], rounds[c]))
  {
  }

  lemma ViewKeys(callbacks: map<ConsumerId, seq<nat>>, queue: map<ConsumerId, seq<Message>>,
    pushed: map<ConsumerId, seq<Message>>, rounds: map<ConsumerId, seq<Round>>)
    requires Fits(callbacks, queue, pushed, rounds)
    ensures View(callbacks, queue, pushed, rounds).Keys == callbacks.Keys
  {
  }

  /** A message pushed to all but the consumers still to come. */
  ghost function PushSome(consumers: map<ConsumerId, Consumer>, m: Message,
      todo: set<ConsumerId>): map<ConsumerId, Consumer>
  {
    map c | c in consumers :: if c in todo then consumers[c] else PushTo(consumers[c], m)
  }

  lemma PushSomeStep(consumers: map<ConsumerId, Consumer>, m: Message, todo: set<ConsumerId>, c: ConsumerId)
    requires c in todo && c in consumers
    ensures var r := PushSome(consumers, m, todo);
      c in r && r[c] == consumers[c] && PushSome(consumers, m, todo - {c}) == r[c := PushTo(r[c], m)]
  {
  }

  lemma PushSomeAll(consumers: map<ConsumerId, Consumer>, m: Message)
    ensures PushSome(consumers, m, consumers.Keys) == consumers
    ensures PushSome(consumers, m, {}) == PushAll(consumers, m)
  {
  }

  lemma GivenMore(live: set<nat>, d: nat, batch: seq<Message>)
    ensures Given({}, batch) == map[]
    ensures Given(live + {d}, batch) == Given(live, batch)[d := batch]
  {
  }

  class MessageQueues {
    var consumersCallbacks: map<ConsumerId, seq<nat>>
    var messageQueuePerConsumer: map<ConsumerId, seq<Message>>
    var receivedMessagesIDs: set<PacketId>

    // The callbacks given out and what they got, and calls under way.
    var called: set<nat>
    var made: nat
    var got: map<nat, seq<Message>>
    var scheduled: nat

    // The history of each registered consumer.
    ghost var pushed: map<ConsumerId, seq<Message>>
    ghost var rounds: map<ConsumerId, seq<Round>>

    ghost predicate Valid()
      reads this
    {
      Fits(consumersCallbacks, messageQueuePerConsumer, pushed, rounds)
    }

    ghost function Consumers(): (r: map<ConsumerId, Consumer>)
      requires Valid()
      reads this
    {
      View(consumersCallbacks, messageQueuePerConsumer, pushed, rounds)
    }

    ghost function Abs(): Queues
      requires Valid()
      reads this
    {
      Queues(Consumers(), called, made, got, receivedMessagesIDs, scheduled)
    }

    constructor ()
      ensures Valid() && Abs() == EMPTY
    {
      consumersCallbacks, messageQueuePerConsumer, receivedMessagesIDs := map[], map[], {};
      called, made, got, scheduled := {}, 0, map[], 0;
      pushed, rounds := map[], map[];
    }

    method ConsumeMessages(c: ConsumerId) returns (d: nat)
      requires Valid()
      modifies this
      ensures Valid() && Abs() == Consume(old(Abs()), c)
      ensures d == old(made)
    {
      hide View, Fits, Queued;
      Register(c);
      d := made;
      made := made + 1;
      AddCallback(c, d);
      scheduled := scheduled + 1;
    }

    method AddCallback(c: ConsumerId, d: nat)
      requires Valid() && c in Consumers()
      modifies `consumersCallbacks
      ensures Valid()
      ensures var k := old(Consumers())[c];
        Consumers() == old(Consumers())[c := k.(callbacks := k.callbacks + [d])]
    {
      hide View, Fits, Queued;
      ViewHas(consumersCallbacks, messageQueuePerConsumer, pushed, rounds, c);
      ViewCallback(consumersCallbacks, messageQueuePerConsumer, pushed, rounds, c, d);
      consumersCallbacks := consumersCallbacks[c := consumersCallbacks[c] + [d]];
    }

    method Register(c: ConsumerId)
      requires Valid()
      modifies `consumersCallbacks, `pushed, `rounds
      ensures Valid() && c in Consumers()
      ensures Consumers() == if c in old(Consumers()) then old(Consumers()) else old(Consumers())[c := NEW_CONSUMER]
    {
      hide View;
      ViewHas(consumersCallbacks, messageQueuePerConsumer, pushed, rounds, c);
      if c !in consumersCallbacks {
        ViewPut(consumersCallbacks, messageQueuePerConsumer, pushed, rounds, c, NEW_CONSUMER, messageQueuePerConsumer);
        consumersCallbacks := consumersCallbacks[c := []];
        pushed, rounds := pushed[c := []], rounds[c := []];
      }
    }

    /** push_incoming_message and push_outgoing_message. */
    method PushMessage(m: Message)
      requires Valid()
      modifies `messageQueuePerConsumer, `pushed, `scheduled
      ensures Valid() && Abs() == Push(old(Abs()), m)
    {
      hide View, PushSome, PushAll;
      ghost var before := Consumers();
      var todo := consumersCallbacks.Keys;
      ViewKeys(consumersCallbacks, messageQueuePerConsumer, pushed, rounds);
      PushSomeAll(before, m);
      while todo != {}
        invariant Valid() && todo <= before.Keys && scheduled == old(scheduled)
        invariant Consumers() == PushSome(before, m, todo)
        decreases todo
      {
        var c :| c in todo;
        PushSomeStep(before, m, todo, c);
        todo := todo - {c};
        PushToConsumer(c, m);
      }
      scheduled := scheduled + 1;
    }

    /** The body of that loop. */
    method PushToConsumer(c: ConsumerId, m: Message)
      requires Valid() && c in Consumers()
      modifies `messageQueuePerConsumer, `pushed
      ensures Valid() && Consumers() == old(Consumers())[c := PushTo(old(Consumers())[c], m)]
    {
      hide View;
      ViewHas(consumersCallbacks, messageQueuePerConsumer, pushed, rounds, c);
      ghost var queue, k := messageQueuePerConsumer, Consumers()[c];
      if c !in messageQueuePerConsumer {
        messageQueuePerConsumer := messageQueuePerConsumer[c := []];
      }
      messageQueuePerConsumer := messageQueuePerConsumer[c := messageQueuePerConsumer[c] + [m]];
      assert messageQueuePerConsumer == queue[c := k.waiting + [m]];
      ViewPut(consumersCallbacks, queue, pushed, rounds, c, PushTo(k, m), messageQueuePerConsumer);
      pushed := pushed[c := pushed[c] + [m]];
      assert consumersCallbacks == consumersCallbacks[c := k.callbacks] && rounds == rounds[c := k.rounds];
    }

    method OnIncomingMessage(m: Message, readable: bool, reached: bool) returns (handled: bool)
      requires Valid()
      modifies `messageQueuePerConsumer, `pushed, `scheduled, `receivedMessagesIDs
      ensures Valid() && Abs() == Receive(old(Abs()), m, readable, reached)
      ensures handled == (readable && m.id !in old(receivedMessagesIDs))
    {
      hide View;
      if !readable {
        return false;
      }
      var known := false;
      var history := receivedMessagesIDs;
      while history != {} && !known
        invariant history <= receivedMessagesIDs
        invariant known ==> m.id in receivedMessagesIDs
        invariant !known ==> m.id !in receivedMessagesIDs - history
        decreases history
      {
        var knownId :| knownId in history;
        history := history - {knownId};
        known := knownId == m.id;
      }
      if known {
        return false;
      }
      receivedMessagesIDs := receivedMessagesIDs + {m.id};
      if reached {
        PushMessage(m);
      }
      return true;
    }

    /** The order in which the dictionary listed the consumers is returned. */
    method PopMessagesNow() returns (order: seq<ConsumerId>)
      requires Valid()
      modifies this
      ensures Valid() && Abs() == PopMessages(old(Abs()), order)
      ensures Lists(order, old(consumersCallbacks.Keys))
    {
      hide View, PopOne;
      ghost var before, all := Abs(), consumersCallbacks.Keys;
      var todo := consumersCallbacks.Keys;
      order := [];
      while todo != {}
        invariant Valid() && todo <= consumersCallbacks.Keys && todo <= all
        invariant NoDup(order) && Elements(order) == all - todo
        invariant Abs() == PopAll(before, order) && scheduled == before.scheduled
        decreases todo
      {
        var c :| c in todo;
        todo := todo - {c};
        PopConsumer(c);
        assert c !in Elements(order);
        NoDupSnoc(order, c);
        order := order + [c];
        assert order[..|order|-1] + [c] == order;
      }
      scheduled := if scheduled > 0 then scheduled - 1 else 0;
    }

    /** The body of that loop. */
    method PopConsumer(c: ConsumerId)
      requires Valid() && c in consumersCallbacks
      modifies `consumersCallbacks, `messageQueuePerConsumer, `pushed, `rounds, `called, `got
      ensures Valid() && Abs() == PopOne(old(Abs()), c)
      ensures old(consumersCallbacks.Keys) - {c} <= consumersCallbacks.Keys
    {
      hide View;
      ViewHas(consumersCallbacks, messageQueuePerConsumer, pushed, rounds, c);
      if c !in messageQueuePerConsumer || |messageQueuePerConsumer[c]| == 0 {
        return;
      }
      var registered, pending := consumersCallbacks[c], messageQueuePerConsumer[c];
      if |registered| == 0 && |pending| > MAX_PENDING_MESSAGES_PER_CONSUMER {
        ViewDrop(consumersCallbacks, messageQueuePerConsumer, pushed, rounds, c);
        consumersCallbacks, messageQueuePerConsumer := consumersCallbacks - {c}, messageQueuePerConsumer - {c};
        pushed, rounds := pushed - {c}, rounds - {c};
        return;
      }
      ghost var live := CallAll(registered, c, pending);
      ghost var k := old(Consumers())[c];
      assert live == Live(k, old(called));
      ViewPut(consumersCallbacks, old(messageQueuePerConsumer), pushed, rounds, c, DeliverTo(k, live),
              messageQueuePerConsumer);
      consumersCallbacks := consumersCallbacks[c := []];
      rounds := if live == {} then rounds else rounds[c := rounds[c] + [Round(pending, live)]];
      assert pushed == pushed[c := k.pushed];
      assert live == {} ==> rounds == rounds[c := k.rounds];
    }

    /** Every callback not yet called gets the batch, and the queue is emptied. */
    method CallAll(registered: seq<nat>, c: ConsumerId, pending: seq<Message>) returns (ghost live: set<nat>)
      modifies `messageQueuePerConsumer, `called, `got
      ensures live == (set d | d in registered && d !in old(called))
      ensures called == old(called) + live && got == old(got) + Given(live, pending)
      ensures messageQueuePerConsumer ==
        if live == {} then old(messageQueuePerConsumer) else old(messageQueuePerConsumer)[c := []]
    {
      hide Given;
      live := {};
      GivenMore({}, 0, pending);
      var k := 0;
      while k < |registered|
        invariant k <= |registered|
        invariant live == set d | d in registered[..k] && d !in old(called)
        invariant called == old(called) + live && got == old(got) + Given(live, pending)
        invariant messageQueuePerConsumer ==
          if live == {} then old(messageQueuePerConsumer) else old(messageQueuePerConsumer)[c := []]
      {
        var d := registered[k];
        k := k + 1;
        assert registered[..k] == registered[..k-1] + [d];
        if d in called {
          continue;
        }
        GivenMore(live, d, pending);
        called := called + {d};
        got := got[d := pending];
        live := live + {d};
        messageQueuePerConsumer := messageQueuePerConsumer[c := []];
      }
      assert registered[..k] == registered;
    }
  }
}
