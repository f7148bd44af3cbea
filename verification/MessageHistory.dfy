/** What each event does to the message queues, against a history that is read off
    the events alone: who gets which messages. */
module MessageHistory {
  import opened Sequences
  import opened MessageSpec

  // ----- the history

  /** A packet with this ID came before and could be read. */
  predicate SeenIn(es: seq<Event>, id: PacketId) {
    exists k :: 0 <= k < |es| && Reads(es[k], id)
  }

  predicate Reads(e: Event, id: PacketId) {
    e.Incoming? && e.readable && e.m.id == id
  }

  /** What an event adds to the queue of everybody registered: an outgoing message,
      or an incoming one that can be read, was not seen before, and is not kept
      back by a callback that raises. */
  function Arrival(es: seq<Event>, e: Event): seq<Message> {
    match e
    case Outgoing(m) => [m.(incoming := false)]
    case Incoming(m, readable, reached) =>
      if readable && reached && !SeenIn(es, m.id) then [m.(incoming := true)] else []
    case _ => []
  }

  /** The messages that came since the consumer was registered. */
  ghost function Since(es: seq<Event>, c: ConsumerId): seq<Message> {
    if es == [] then []
    else
      var rest := es[..|es|-1];
      if c in Run(rest).consumers then Since(rest, c) + Arrival(rest, es[|es|-1]) else []
  }

  lemma SeenNext(es: seq<Event>, e: Event, id: PacketId)
    ensures SeenIn(es + [e], id) <==> SeenIn(es, id) || Reads(e, id)
  {
    if k :| 0 <= k < |es| && Reads(es[k], id) {
      assert Reads((es + [e])[k], id);
    }
    if Reads(e, id) {
      assert Reads((es + [e])[|es|], id);
    }
    if k :| 0 <= k < |es + [e]| && Reads((es + [e])[k], id) {
      assert k < |es| ==> Reads(es[k], id);
    }
  }

  /** The IDs received are those of the packets that could be read. */
  lemma {:induction false} ReceivedAreSeen(es: seq<Event>, id: PacketId)
    ensures id in Run(es).receivedIds <==> SeenIn(es, id)
    decreases |es|
  {
    hide PopAll, SeenIn;
    if es == [] {
      NothingSeen(id);
    } else {
      var rest, e := es[..|es|-1], es[|es|-1];
      assert rest + [e] == es;
      ReceivedAreSeen(rest, id);
      SeenNext(rest, e, id);
      if e.Popping? {
        PopAllIds(Run(rest), e.order);
      }
    }
  }

  lemma NothingSeen(id: PacketId)
    ensures !SeenIn([], id)
  {
  }

  // ----- one event

  /** What an event does to a consumer registered before it: arrivals are added to
      what waits, a request adds its callback, and a cancelled callback and all
      events about others change nothing. Only a round takes anybody out. */
  lemma EventExact(es: seq<Event>, e: Event, c: ConsumerId)
    requires !e.Popping? && c in Run(es).consumers
    ensures var k, r := Run(es).consumers[c], Step(Run(es), e);
      && c in r.consumers
      && r.consumers[c] == k.(
           waiting := k.waiting + Arrival(es, e),
           pushed := k.pushed + Arrival(es, e),
           callbacks := k.callbacks + if e == Consuming(c) then [Run(es).made] else [])
      && r.got == Run(es).got
      && r.called == Run(es).called + if e.Cancel? then {e.d} else {}
  {
    hide SeenIn;
    if e.Incoming? {
      ReceivedAreSeen(es, e.m.id);
    }
    var k := Run(es).consumers[c];
    assert k.waiting + [] == k.waiting && k.pushed + [] == k.pushed && k.callbacks + [] == k.callbacks;
  }

  /** Asking for messages registers a new consumer with that one callback. */
  lemma ConsumingNew(q: Queues, c: ConsumerId)
    requires c !in q.consumers
    ensures var r := Step(q, Consuming(c));
      && r.made == q.made + 1 && r.consumers == q.consumers[c := Consumer([q.made], [], [], [])]
      && r.scheduled == q.scheduled + 1
  {
    assert [] + [q.made] == [q.made];
  }

  /** Every arrival and every request for messages has a round scheduled, and
      nothing else has; a round that is made is no longer to come. */
  lemma RoundScheduled(es: seq<Event>, e: Event)
    requires Enabled(Run(es), e)
    ensures var q, r := Run(es), Step(Run(es), e);
      r.scheduled ==
        if e.Consuming? || Arrival(es, e) != [] then q.scheduled + 1
        else if e.Popping? then q.scheduled - 1 else q.scheduled
  {
    hide SeenIn, PopAll, Lists;
    if e.Incoming? {
      ReceivedAreSeen(es, e.m.id);
    }
  }

  lemma {:induction false} PopAllPushed(q: Queues, order: seq<ConsumerId>, c: ConsumerId)
    requires c in PopAll(q, order).consumers
    ensures c in q.consumers && PopAll(q, order).consumers[c].pushed == q.consumers[c].pushed
    decreases |order|
  {
    if order != [] {
      PopAllPushed(q, order[..|order|-1], c);
    }
  }

  /** In every reachable state, what was pushed to a consumer is exactly the
      history of his registration. */
  lemma {:induction false} PushedIsHistory(es: seq<Event>, c: ConsumerId)
    requires c in Run(es).consumers
    ensures Run(es).consumers[c].pushed == Since(es, c)
    decreases |es|
  {
    hide PopAll, Arrival;
    if es != [] {
      var rest, e := es[..|es|-1], es[|es|-1];
      if c in Run(rest).consumers {
        PushedIsHistory(rest, c);
        if e.Popping? {
          NothingArrives(rest, e);
          if Enabled(Run(rest), e) {
            PopAllPushed(Run(rest), e.order, c);
          }
        } else {
          EventExact(rest, e, c);
        }
      } else {
        Registers(rest, e, c);
      }
    }
  }

  lemma NothingArrives(es: seq<Event>, e: Event)
    requires e.Popping?
    ensures Arrival(es, e) == []
  {
  }

  /** Nobody is registered but by asking for messages. */
  lemma Registers(es: seq<Event>, e: Event, c: ConsumerId)
    requires c !in Run(es).consumers && c in Step(Run(es), e).consumers
    ensures e == Consuming(c) && Step(Run(es), e).consumers[c].pushed == []
  {
    if e.Popping? {
      PopAllPushed(Run(es), e.order, c);
    }
  }

  /** So in every reachable state the batches delivered to a consumer, in order,
      and what still waits for him are exactly the messages that came since he was
      registered. */
  lemma HistoryDelivered(es: seq<Event>, c: ConsumerId)
    requires c in Run(es).consumers
    ensures Flatten(Run(es).consumers[c].rounds) + Run(es).consumers[c].waiting == Since(es, c)
  {
    hide Since, Flatten;
    MessageConservation(es, c);
    PushedIsHistory(es, c);
  }

  // ----- a round

  /** Callbacks are numbered as they are made, and each belongs to one consumer. */
  ghost predicate Numbered(q: Queues) {
    && (forall c, d :: c in q.consumers && d in q.consumers[c].callbacks ==> d < q.made)
    && forall b, c, d :: b in q.consumers && c in q.consumers && b != c && d in q.consumers[b].callbacks ==>
         d !in q.consumers[c].callbacks
  }

  lemma PopOneNumbered(q: Queues, c: ConsumerId)
    requires Numbered(q)
    ensures Numbered(PopOne(q, c))
  {
    hide Live;
  }

  lemma {:induction false} PopAllNumbered(q: Queues, order: seq<ConsumerId>)
    requires Numbered(q)
    ensures Numbered(PopAll(q, order)) && PopAll(q, order).made == q.made
    decreases |order|
  {
    hide Numbered;
    if order != [] {
      PopAllNumbered(q, order[..|order|-1]);
      PopOneNumbered(PopAll(q, order[..|order|-1]), order[|order|-1]);
    }
  }

  lemma StepNumbered(q: Queues, e: Event)
    requires Numbered(q)
    ensures Numbered(Step(q, e))
  {
    hide PopAll;
    if e.Popping? {
      PopAllNumbered(q, e.order);
    }
  }

  lemma {:induction false} RunNumbered(es: seq<Event>)
    ensures Numbered(Run(es))
  {
    hide Numbered, Step, Enabled;
    if es != [] {
      RunNumbered(es[..|es|-1]);
      StepNumbered(Run(es[..|es|-1]), es[|es|-1]);
    } else {
      NobodyNumbered();
    }
  }

  lemma NobodyNumbered()
    ensures Numbered(EMPTY)
  {
  }

  /** The turns of the others change nothing for a consumer. */
  lemma {:induction false} OthersFirst(q: Queues, order: seq<ConsumerId>, c: ConsumerId)
    requires Numbered(q) && c !in order && c in q.consumers
    ensures var r := PopAll(q, order);
      && c in r.consumers && r.consumers[c] == q.consumers[c]
      && Live(q.consumers[c], r.called) == Live(q.consumers[c], q.called)
      && forall d :: d in q.consumers[c].callbacks && d in r.got ==> d in q.got && r.got[d] == q.got[d]
    decreases |order|
  {
    if order != [] {
      var rest, x := order[..|order|-1], order[|order|-1];
      OthersFirst(q, rest, c);
      PopAllNumbered(q, rest);
    }
  }

  lemma {:induction false} PopAllSplit(q: Queues, a: seq<ConsumerId>, b: seq<ConsumerId>)
    ensures PopAll(q, a + b) == PopAll(PopAll(q, a), b)
    decreases |b|
  {
    hide PopOne;
    if b == [] {
      assert a + b == a;
    } else {
      assert (a + b)[..|a + b| - 1] == a + b[..|b|-1];
      PopAllSplit(q, a, b[..|b|-1]);
    }
  }

  /** ... and what he and his callbacks got stays. */
  lemma {:induction false} OthersAfter(q: Queues, order: seq<ConsumerId>, c: ConsumerId)
    requires c !in order
    ensures var r := PopAll(q, order);
      && (c in r.consumers <==> c in q.consumers) && (c in q.consumers ==> r.consumers[c] == q.consumers[c])
      && q.called <= r.called && forall d :: d in q.called && d in q.got ==> d in r.got && r.got[d] == q.got[d]
    decreases |order|
  {
    if order != [] {
      OthersAfter(q, order[..|order|-1], c);
    }
  }

  /** His own turn. */
  lemma OwnTurn(q: Queues, c: ConsumerId)
    requires c in q.consumers && q.consumers[c].waiting != []
    ensures var k, r := q.consumers[c], PopOne(q, c);
      && (forall d :: d in k.callbacks && d !in q.called ==> d in r.got && r.got[d] == k.waiting && d in r.called)
      && (c in r.consumers <==> !(k.callbacks == [] && |k.waiting| > MAX_PENDING_MESSAGES_PER_CONSUMER))
      && (c in r.consumers ==>
            && r.consumers[c].callbacks == [] && r.consumers[c].pushed == k.pushed
            && r.consumers[c].waiting == if Live(k, q.called) == {} then k.waiting else [])
  {
  }

  /** The turns before and after his own. */
  lemma Turns(q: Queues, order: seq<ConsumerId>, c: ConsumerId) returns (a: seq<ConsumerId>, b: seq<ConsumerId>)
    requires NoDup(order) && c in order
    ensures c !in a && c !in b && PopAll(q, order) == PopAll(PopOne(PopAll(q, a), c), b)
  {
    hide PopOne, PopAll;
    var i :| 0 <= i < |order| && order[i] == c;
    a, b := order[..i], order[i+1..];
    assert order == (a + [c]) + b;
    PopAllSplit(q, a + [c], b);
    PopAllSplit(q, a, [c]);
    PopAllOne(PopAll(q, a), c);
  }

  lemma PopAllOne(q: Queues, c: ConsumerId)
    ensures PopAll(q, [c]) == PopOne(q, c)
  {
    hide PopOne;
    assert [c][..0] == [];
  }

  /** A round with messages waiting for c gives them to each of his callbacks that
      is still live; if there is one, nothing waits for him any more. He is taken
      out exactly if he has no callback and too much waits. */
  lemma RoundServes(es: seq<Event>, order: seq<ConsumerId>, c: ConsumerId)
    requires c in Run(es).consumers && Run(es).consumers[c].waiting != [] && Enabled(Run(es), Popping(order))
    ensures var q, k, r := Run(es), Run(es).consumers[c], Step(Run(es), Popping(order));
      && (forall d :: d in k.callbacks && d !in q.called ==> d in r.got && r.got[d] == k.waiting && d in r.called)
      && (c in r.consumers <==> !(k.callbacks == [] && |k.waiting| > 100))
      && (c in r.consumers ==>
            && r.consumers[c].callbacks == [] && r.consumers[c].pushed == k.pushed
            && r.consumers[c].waiting == if Live(k, q.called) == {} then k.waiting else [])
  {
    hide PopOne, PopAll, Numbered, Live, Run;
    var q := Run(es);
    RunNumbered(es);
    hide NoDup;
    assert c in Elements(order);
    var a, b := Turns(q, order, c);
    OthersFirst(q, a, c);
    var before := PopAll(q, a);
    OwnTurn(before, c);
    OthersAfter(PopOne(before, c), b, c);
    LiveIs(q.consumers[c], q.called);
    LiveIs(q.consumers[c], before.called);
  }

  lemma LiveIs(k: Consumer, called: set<nat>)
    ensures forall d :: d in Live(k, called) <==> d in k.callbacks && d !in called
  {
  }

  /** From the request to the delivery: a message that arrives while a consumer
      waits with a live callback is in the batch of the next round. */
  lemma NextRound(es: seq<Event>, e: Event, order: seq<ConsumerId>, c: ConsumerId, d: nat)
    requires !e.Popping? && c in Run(es).consumers && Enabled(Run(es), e) && Arrival(es, e) != []
    requires d in Run(es).consumers[c].callbacks && d !in Run(es).called
    requires Enabled(Step(Run(es), e), Popping(order))
    ensures var r := Step(Step(Run(es), e), Popping(order));
      d in r.got && r.got[d] == Run(es).consumers[c].waiting + Arrival(es, e)
  {
    hide Step, Enabled, Arrival, SeenIn;
    EventExact(es, e, c);
    CancelNothing(es, e);
    assert (es + [e])[..|es|] == es;
    RoundServes(es + [e], order, c);
  }

  lemma CancelNothing(es: seq<Event>, e: Event)
    requires Arrival(es, e) != []
    ensures !e.Cancel?
  {
  }
}
