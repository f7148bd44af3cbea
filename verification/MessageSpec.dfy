/** The message queues of several consumers on values: registration, arrival,
    delivery, and what every run of these conserves. */
module MessageSpec {
  import opened Sequences

  type ConsumerId = string
  type PacketId = string

  const MAX_PENDING_MESSAGES_PER_CONSUMER: nat := 100

  datatype Message = Message(incoming: bool, id: PacketId, data: string)

  /** One delivery: the batch and the callbacks that got it. */
  datatype Round = Round(batch: seq<Message>, to: set<nat>)

  /** pushed and rounds are the history since registration. */
  datatype Consumer = Consumer(callbacks: seq<nat>, waiting: seq<Message>, pushed: seq<Message>, rounds: seq<Round>)

  const NEW_CONSUMER := Consumer([], [], [], [])

  /** A callback (a Deferred) is known by its number; called holds those fired or
      cancelled, got what each was given. scheduled counts the calls of
      pop_messages under way. */
  datatype Queues = Queues(
    consumers: map<ConsumerId, Consumer>,
    called: set<nat>,
    made: nat,
    got: map<nat, seq<Message>>,
    receivedIds: set<PacketId>,
    scheduled: nat)

  const EMPTY := Queues(map[], {}, 0, map[], {}, 0)

  /** consume_messages */
  function Consume(q: Queues, c: ConsumerId): Queues {
    var k := if c in q.consumers then q.consumers[c] else NEW_CONSUMER;
    q.(consumers := q.consumers[c := k.(callbacks := k.callbacks + [q.made])],
       made := q.made + 1, scheduled := q.scheduled + 1)
  }

  function PushTo(k: Consumer, m: Message): Consumer {
    k.(waiting := k.waiting + [m], pushed := k.pushed + [m])
  }

  function PushAll(consumers: map<ConsumerId, Consumer>, m: Message): map<ConsumerId, Consumer> {
    map c | c in consumers :: PushTo(consumers[c], m)
  }

  /** push_incoming_message and push_outgoing_message */
  function Push(q: Queues, m: Message): Queues {
    q.(consumers := PushAll(q.consumers, m), scheduled := q.scheduled + 1)
  }

  /** on_incoming_message; reached tells that no callback before the pushing one
      raised an exception. */
  function Receive(q: Queues, m: Message, readable: bool, reached: bool): Queues {
    if !readable || m.id in q.receivedIds then q
    else
      var r := q.(receivedIds := q.receivedIds + {m.id});
      if reached then Push(r, m) else r
  }

  function Live(k: Consumer, called: set<nat>): set<nat> {
    set d | d in k.callbacks && d !in called
  }

  predicate Dropped(k: Consumer) {
    k.callbacks == [] && |k.waiting| > MAX_PENDING_MESSAGES_PER_CONSUMER
  }

  function DeliverTo(k: Consumer, live: set<nat>): Consumer {
    if live == {} then k.(callbacks := [])
    else Consumer([], [], k.pushed, k.rounds + [Round(k.waiting, live)])
  }

  function Given(live: set<nat>, batch: seq<Message>): map<nat, seq<Message>> {
    map d | d in live :: batch
  }

  /** The body of the loop in pop_messages. */
  function PopOne(q: Queues, c: ConsumerId): Queues {
    if c !in q.consumers || q.consumers[c].waiting == [] then q
    else if Dropped(q.consumers[c]) then q.(consumers := q.consumers - {c})
    else
      var k, live := q.consumers[c], Live(q.consumers[c], q.called);
      q.(consumers := q.consumers[c := DeliverTo(k, live)],
         called := q.called + live,
         got := q.got + Given(live, k.waiting))
  }

  function PopAll(q: Queues, order: seq<ConsumerId>): Queues {
    if order == [] then q else PopOne(PopAll(q, order[..|order|-1]), order[|order|-1])
  }

  function PopMessages(q: Queues, order: seq<ConsumerId>): Queues {
    var r := PopAll(q, order);
    r.(scheduled := if q.scheduled > 0 then q.scheduled - 1 else 0)
  }

  // ----- what every step keeps

  function Flatten(rounds: seq<Round>): seq<Message> {
    if rounds == [] then [] else Flatten(rounds[..|rounds|-1]) + rounds[|rounds|-1].batch
  }

  function IncomingIds(ms: seq<Message>): seq<PacketId> {
    if ms == [] then []
    else
      var rest := IncomingIds(ms[..|ms|-1]);
      if ms[|ms|-1].incoming then rest + [ms[|ms|-1].id] else rest
  }

  /** What was delivered, in order, and what waits make up what was pushed. */
  ghost predicate Conserved(k: Consumer) {
    Flatten(k.rounds) + k.waiting == k.pushed
  }

  /** A batch is not empty, somebody got it, and all in the round the same. */
  ghost predicate Served(r: Round, got: map<nat, seq<Message>>) {
    r.batch != [] && r.to != {} && forall d :: d in r.to ==> d in got && got[d] == r.batch
  }

  ghost predicate AllServed(k: Consumer, got: map<nat, seq<Message>>) {
    forall j :: 0 <= j < |k.rounds| ==> Served(k.rounds[j], got)
  }

  ghost predicate Unrepeated(k: Consumer, receivedIds: set<PacketId>) {
    NoDup(IncomingIds(k.pushed)) && forall id :: id in IncomingIds(k.pushed) ==> id in receivedIds
  }

  ghost predicate Good(k: Consumer, got: map<nat, seq<Message>>, receivedIds: set<PacketId>) {
    Conserved(k) && AllServed(k, got) && Unrepeated(k, receivedIds)
  }

  /** Nobody waits for messages that are there. */
  predicate Answered(k: Consumer) {
    k.waiting == [] || k.callbacks == []
  }

  ghost predicate Sound(q: Queues) {
    && (forall d :: d in q.got ==> d in q.called)
    && forall c :: c in q.consumers ==> Good(q.consumers[c], q.got, q.receivedIds)
  }

  ghost predicate Inv(q: Queues) {
    Sound(q) && (q.scheduled == 0 ==> forall c :: c in q.consumers ==> Answered(q.consumers[c]))
  }

  /** Nobody's batch is taken back or exchanged. */
  ghost predicate Keeps(a: map<nat, seq<Message>>, b: map<nat, seq<Message>>) {
    forall d :: d in a ==> d in b && b[d] == a[d]
  }

  lemma GoodGrows(k: Consumer, got: map<nat, seq<Message>>, more: map<nat, seq<Message>>, ids: set<PacketId>,
      moreIds: set<PacketId>)
    requires Good(k, got, ids) && Keeps(got, more) && ids <= moreIds
    ensures Good(k, more, moreIds)
  {
    assert forall j :: 0 <= j < |k.rounds| && Served(k.rounds[j], got) ==> Served(k.rounds[j], more);
  }

  lemma PushGood(k: Consumer, got: map<nat, seq<Message>>, ids: set<PacketId>, m: Message)
    requires Good(k, got, ids) && (m.incoming ==> m.id !in ids)
    ensures Good(PushTo(k, m), got, if m.incoming then ids + {m.id} else ids)
  {
    var r := PushTo(k, m);
    assert r.pushed[..|k.pushed|] == k.pushed;
    if m.incoming {
      NoDupSnoc(IncomingIds(k.pushed), m.id);
    }
  }

  lemma ReceiveKeeps(q: Queues, m: Message, readable: bool, reached: bool)
    requires Inv(q) && m.incoming
    ensures Inv(Receive(q, m, readable, reached)) && Receive(q, m, readable, reached).got == q.got
  {
    hide Good, PushTo;
    if readable && m.id !in q.receivedIds {
      forall c | c in q.consumers
        ensures Good(PushTo(q.consumers[c], m), q.got, q.receivedIds + {m.id})
        ensures Good(q.consumers[c], q.got, q.receivedIds + {m.id})
      {
        PushGood(q.consumers[c], q.got, q.receivedIds, m);
        GoodGrows(q.consumers[c], q.got, q.got, q.receivedIds, q.receivedIds + {m.id});
      }
    }
  }

  lemma SendKeeps(q: Queues, m: Message)
    requires Inv(q) && !m.incoming
    ensures Inv(Push(q, m)) && Push(q, m).got == q.got
  {
    hide Good, PushTo;
    forall c | c in q.consumers
      ensures Good(PushTo(q.consumers[c], m), q.got, q.receivedIds)
    {
      PushGood(q.consumers[c], q.got, q.receivedIds, m);
    }
  }

  lemma ConsumeKeeps(q: Queues, c: ConsumerId)
    requires Inv(q)
    ensures Inv(Consume(q, c)) && Consume(q, c).got == q.got
  {
    var k := if c in q.consumers then q.consumers[c] else NEW_CONSUMER;
    assert Good(k, q.got, q.receivedIds) && Good(k.(callbacks := k.callbacks + [q.made]), q.got, q.receivedIds);
  }

  lemma DeliverGood(k: Consumer, got: map<nat, seq<Message>>, ids: set<PacketId>, live: set<nat>)
    requires Good(k, got, ids) && k.waiting != [] && forall d :: d in live ==> d !in got
    ensures Good(DeliverTo(k, live), got + Given(live, k.waiting), ids)
  {
    var r, more := DeliverTo(k, live), got + Given(live, k.waiting);
    GoodGrows(k, got, more, ids, ids);
    if live != {} {
      assert r.rounds[..|k.rounds|] == k.rounds;
      assert Served(Round(k.waiting, live), more);
    }
  }

  lemma PopOneKeeps(q: Queues, c: ConsumerId)
    requires Sound(q)
    ensures var r := PopOne(q, c);
      && Sound(r) && r.consumers.Keys <= q.consumers.Keys && r.receivedIds == q.receivedIds
      && Keeps(q.got, r.got)
      && (c in r.consumers ==> Answered(r.consumers[c]))
      && (forall x :: x in r.consumers && x != c ==> r.consumers[x] == q.consumers[x])
  {
    hide Good, Live;
    if c in q.consumers && q.consumers[c].waiting != [] && !Dropped(q.consumers[c]) {
      var k := q.consumers[c];
      LiveNew(k, q.called);
      var more := q.got + Given(Live(k, q.called), k.waiting);
      DeliverGood(k, q.got, q.receivedIds, Live(k, q.called));
      forall x | x in q.consumers
        ensures Good(q.consumers[x], more, q.receivedIds)
      {
        GoodGrows(q.consumers[x], q.got, more, q.receivedIds, q.receivedIds);
      }
    }
  }

  lemma LiveNew(k: Consumer, called: set<nat>)
    ensures Live(k, called) !! called
  {
  }

  lemma {:induction false} PopAllKeeps(q: Queues, order: seq<ConsumerId>)
    requires Sound(q)
    ensures var r := PopAll(q, order);
      && Sound(r) && r.consumers.Keys <= q.consumers.Keys && r.receivedIds == q.receivedIds
      && Keeps(q.got, r.got)
      && (forall c :: c in order && c in r.consumers ==> Answered(r.consumers[c]))
    decreases |order|
  {
    hide Sound, PopOne, Answered;
    if order != [] {
      PopAllKeeps(q, order[..|order|-1]);
      PopOneKeeps(PopAll(q, order[..|order|-1]), order[|order|-1]);
    }
  }

  /** A round serves every registered callback still live with all that waits,
      drops exactly the consumers with no callback and too long a queue, and
      leaves the other consumers alone. */
  lemma PopOneServes(q: Queues, c: ConsumerId)
    requires c in q.consumers
    ensures var k, r := q.consumers[c], PopOne(q, c);
      && (c !in r.consumers <==> k.callbacks == [] && |k.waiting| > MAX_PENDING_MESSAGES_PER_CONSUMER)
      && (forall d :: d in k.callbacks && d !in q.called && k.waiting != [] ==> d in r.got && r.got[d] == k.waiting)
      && (c in r.consumers && Live(k, q.called) == {} ==> r.consumers[c].waiting == k.waiting)
      && (c in r.consumers && Live(k, q.called) != {} ==> r.consumers[c].waiting == [])
      && (forall x :: x in q.consumers && x != c ==> x in r.consumers && r.consumers[x] == q.consumers[x])
  {
  }

  // ----- runs

  datatype Event =
    | Consuming(c: ConsumerId)
    | Incoming(m: Message, readable: bool, reached: bool)
    | Outgoing(m: Message)
    | Popping(order: seq<ConsumerId>)
    | Cancel(d: nat)

  ghost predicate Enabled(q: Queues, e: Event) {
    e.Popping? ==> q.scheduled > 0 && Lists(e.order, q.consumers.Keys)
  }

  function Step(q: Queues, e: Event): Queues {
    match e
    case Consuming(c) => Consume(q, c)
    case Incoming(m, readable, reached) => Receive(q, m.(incoming := true), readable, reached)
    case Outgoing(m) => Push(q, m.(incoming := false))
    case Popping(order) => PopMessages(q, order)
    case Cancel(d) => q.(called := q.called + {d})
  }

  ghost function Run(es: seq<Event>): Queues {
    if es == [] then EMPTY
    else
      var q := Run(es[..|es|-1]);
      if Enabled(q, es[|es|-1]) then Step(q, es[|es|-1]) else q
  }

  lemma PoppingKeeps(q: Queues, order: seq<ConsumerId>)
    requires Inv(q) && Lists(order, q.consumers.Keys)
    ensures Inv(PopMessages(q, order)) && Keeps(q.got, PopMessages(q, order).got)
  {
    hide Good, PopAll, NoDup;
    PopAllKeeps(q, order);
    assert forall c :: c in q.consumers ==> c in Elements(order);
  }

  lemma CancelKeeps(q: Queues, d: nat)
    requires Inv(q)
    ensures Inv(q.(called := q.called + {d}))
  {
  }

  lemma StepKeeps(q: Queues, e: Event)
    requires Inv(q) && Enabled(q, e)
    ensures Inv(Step(q, e)) && Keeps(q.got, Step(q, e).got)
  {
    hide Inv, Lists, Consume, Receive, Push, PopMessages;
    match e
    case Consuming(c) => ConsumeKeeps(q, c);
    case Incoming(m, readable, reached) => ReceiveKeeps(q, m.(incoming := true), readable, reached);
    case Outgoing(m) => SendKeeps(q, m.(incoming := false));
    case Popping(order) => PoppingKeeps(q, order);
    case Cancel(d) => CancelKeeps(q, d);
  }

  lemma {:induction false} RunKeeps(es: seq<Event>)
    ensures Inv(Run(es))
  {
    hide Inv, Enabled, Step;
    if es == [] {
      EmptyInv();
    } else {
      RunKeeps(es[..|es|-1]);
      if Enabled(Run(es[..|es|-1]), es[|es|-1]) {
        StepKeeps(Run(es[..|es|-1]), es[|es|-1]);
      }
    }
  }

  lemma EmptyInv()
    ensures Inv(EMPTY)
  {
  }

  /** In every reachable state, for each registered consumer: the delivered
      batches in order, followed by what waits, are the messages pushed since
      registration; every callback of a round got the whole batch; an incoming
      packet ID was pushed at most once; and unless pop_messages is still to
      run, no callback waits while messages wait. */
  lemma MessageConservation(es: seq<Event>, c: ConsumerId)
    requires c in Run(es).consumers
    ensures var q, k := Run(es), Run(es).consumers[c];
      && Flatten(k.rounds) + k.waiting == k.pushed
      && (forall j, d :: 0 <= j < |k.rounds| && d in k.rounds[j].to ==> d in q.got && q.got[d] == k.rounds[j].batch)
      && (forall j :: 0 <= j < |k.rounds| ==> k.rounds[j].to != {})
      && NoDup(IncomingIds(k.pushed))
      && (q.scheduled == 0 ==> k.waiting == [] || k.callbacks == [])
  {
    RunKeeps(es);
    var q, k := Run(es), Run(es).consumers[c];
    assert Good(k, q.got, q.receivedIds);
    assert forall j :: 0 <= j < |k.rounds| ==> Served(k.rounds[j], q.got);
  }

  /** A packet whose ID was received before changes nothing, however many events
      lie between and whoever has registered meanwhile. */
  lemma {:induction false} DuplicateIgnored(es: seq<Event>, more: seq<Event>, m: Message, readable: bool, reached: bool)
    requires m.id in Run(es).receivedIds
    ensures m.id in Run(es + more).receivedIds
    ensures Receive(Run(es + more), m, readable, reached) == Run(es + more)
    decreases |more|
  {
    hide PopAll, PopOne;
    if more == [] {
      assert es + more == es;
    } else {
      DuplicateIgnored(es, more[..|more|-1], m, readable, reached);
      assert (es + more)[..|es + more| - 1] == es + more[..|more|-1];
      var e := more[|more|-1];
      if e.Popping? {
        PopAllIds(Run(es + more[..|more|-1]), e.order);
      }
    }
  }

  lemma {:induction false} PopAllIds(q: Queues, order: seq<ConsumerId>)
    ensures PopAll(q, order).receivedIds == q.receivedIds
    decreases |order|
  {
    if order != [] {
      PopAllIds(q, order[..|order|-1]);
    }
  }
}
