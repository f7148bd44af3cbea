/** Broadcast flooding on values: how one node handles a packet and an event,
    and what a whole network of such nodes reaches, whatever the order in which
    packets are delivered and events processed. */
module Flooding {
  import opened Sequences

  type Id = string
  type MsgId = string

  datatype Message = Message(id: MsgId, owner: Id, body: string)

  datatype Packet = Packet(to: Id, msg: Message, ownerId: Id)

  /** Who started a message: this node itself, without a packet, or the owner
      named in the packet that brought it. */
  datatype Sender = Self | Peer(ownerId: Id)

  /** An event waiting for the state machine of a node. */
  datatype Job = Received(msg: Message) | Outbound(msg: Message, from: Sender)

  /** listeners maps each listener to its scope; hears tells that a callback for
      incoming messages was given. */
  datatype Node = Node(broadcasters: seq<Id>, listeners: map<Id, set<Id>>, hears: bool, sent: set<MsgId>)

  // ----- one node

  /** The listeners that get a message: an empty scope lets everything pass. */
  function Audience(node: Node, msg: Message, skip: set<Id>): set<Id> {
    set l | l in node.listeners && l !in skip && (node.listeners[l] == {} || msg.owner in node.listeners[l])
  }

  function Copies(to: seq<Id>, msg: Message): (r: seq<Packet>)
    ensures |r| == |to|
    ensures forall i :: 0 <= i < |to| ==> r[i] == Packet(to[i], msg, msg.owner)
  {
    if to == [] then [] else Copies(to[..|to|-1], msg) + [Packet(to[|to|-1], msg, msg.owner)]
  }

  function Skips(job: Job): set<Id> {
    if job.Outbound? && job.from.Peer? then {job.from.ownerId} else {}
  }

  /** A message of the node's own has no packet, and the loop over listeners
      reads the owner of the packet. */
  predicate Stuck(node: Node, job: Job) {
    job.Outbound? && job.from.Self? && node.listeners != map[]
  }

  predicate Sends(node: Node, job: Job) {
    job.msg.id !in node.sent && !Stuck(node, job)
  }

  /** doCheckAndSendForward and doBroadcastMessage. */
  function Handle(node: Node, job: Job): Node {
    if Sends(node, job) then node.(sent := node.sent + {job.msg.id}) else node
  }

  function Packets(node: Node, job: Job, order: seq<Id>): seq<Packet> {
    if Sends(node, job) then Copies(order + node.broadcasters, job.msg) else []
  }

  function Notices(node: Node, job: Job): seq<MsgId> {
    if Sends(node, job) && node.hears then [job.msg.id] else []
  }

  /** _on_inbox_packet: the event a packet turns into, if any. */
  function Receive(node: Node, packet: Packet): seq<Job> {
    if packet.msg.id in node.sent then []
    else if packet.msg.owner in node.listeners then
      if packet.msg.owner in node.broadcasters then [] else [Outbound(packet.msg, Peer(packet.ownerId))]
    else [Received(packet.msg)]
  }

  /** A message of the node's own gets out exactly if nobody listens to the
      node; otherwise it is lost without a trace. */
  lemma OwnMessage(node: Node, msg: Message)
    requires msg.id !in node.sent
    ensures msg.id in Handle(node, Outbound(msg, Self)).sent <==> node.listeners == map[]
    ensures node.listeners != map[] ==> Handle(node, Outbound(msg, Self)) == node
  {
  }

  ghost predicate Disjoint(node: Node) {
    forall id :: id in node.broadcasters ==> id !in node.listeners
  }

  function AddBroadcaster(node: Node, id: Id): Node {
    if id == "" || id in node.broadcasters then node
    else node.(broadcasters := node.broadcasters + [id])
  }

  function RemoveBroadcaster(node: Node, id: Id): Node {
    node.(broadcasters := RemoveFirst(node.broadcasters, id))
  }

  function AddListener(node: Node, id: Id, scope: set<Id>): Node {
    if id in node.broadcasters then node
    else node.(listeners := node.listeners[id := scope])
  }

  function RemoveListener(node: Node, id: Id): Node {
    node.(listeners := node.listeners - {id})
  }

  /** No connection is listed twice, and only the arrival of a broadcaster that
      already listens can put one peer into both lists. */
  lemma Connections(node: Node, id: Id, scope: set<Id>)
    requires NoDup(node.broadcasters) && Disjoint(node)
    ensures NoDup(AddBroadcaster(node, id).broadcasters)
    ensures Disjoint(AddBroadcaster(node, id)) <==> id == "" || id !in node.listeners
    ensures NoDup(RemoveBroadcaster(node, id).broadcasters) && Disjoint(RemoveBroadcaster(node, id))
    ensures Disjoint(AddListener(node, id, scope)) && Disjoint(RemoveListener(node, id))
  {
    RemoveIsWithout(node.broadcasters, id);
    WithoutNoDup(node.broadcasters, {id});
    if id != "" && id in node.listeners {
      assert AddBroadcaster(node, id).broadcasters[|node.broadcasters|] == id;
    }
  }

  // ----- the network

  /** heard lists every callback, wire every packet sent, by message ID. */
  datatype Net = Net(
    nodes: map<Id, Node>,
    packets: seq<Packet>,
    jobs: seq<(Id, Job)>,
    heard: seq<(Id, MsgId)>,
    wire: seq<(Id, Id, MsgId)>)

  datatype Event =
    | Say(at: Id, msg: Message)
    | Inject(packet: Packet)
    | Deliver(i: nat)
    | Process(i: nat, order: seq<Id>)

  predicate Moves(e: Event) {
    e.Deliver? || e.Process?
  }

  ghost predicate Enabled(s: Net, e: Event) {
    match e
    case Say(at, _) => at in s.nodes
    case Inject(_) => true
    case Deliver(i) => i < |s.packets|
    case Process(i, order) =>
      && i < |s.jobs| && s.jobs[i].0 in s.nodes
      && Lists(order, Audience(s.nodes[s.jobs[i].0], s.jobs[i].1.msg, Skips(s.jobs[i].1)))
  }

  function Drop<T>(s: seq<T>, i: nat): (r: seq<T>)
    requires i < |s|
    ensures forall x :: x in r ==> x in s
    ensures forall x :: x in s ==> x == s[i] || x in r
  {
    s[..i] + s[i+1..]
  }

  function At(at: Id, jobs: seq<Job>): seq<(Id, Job)>
    requires |jobs| <= 1
  {
    if jobs == [] then [] else [(at, jobs[0])]
  }

  function Trace(at: Id, packets: seq<Packet>): (r: seq<(Id, Id, MsgId)>)
    ensures |r| == |packets|
    ensures forall i :: 0 <= i < |packets| ==> r[i] == (at, packets[i].to, packets[i].msg.id)
  {
    seq(|packets|, i requires 0 <= i < |packets| => (at, packets[i].to, packets[i].msg.id))
  }

  /** The same nodes with the same connections: only sent may differ. */
  ghost predicate SameConnections(a: map<Id, Node>, b: map<Id, Node>) {
    a.Keys == b.Keys && forall n :: n in a ==> b[n] == a[n].(sent := b[n].sent)
  }

  function Step(s: Net, e: Event): (r: Net)
    requires Enabled(s, e)
    ensures SameConnections(s.nodes, r.nodes)
  {
    match e
    case Say(at, msg) => s.(jobs := s.jobs + [(at, Outbound(msg, Self))])
    case Inject(packet) => s.(packets := s.packets + [packet])
    case Deliver(i) =>
      var p := s.packets[i];
      s.(packets := Drop(s.packets, i),
         jobs := s.jobs + if p.to in s.nodes then At(p.to, Receive(s.nodes[p.to], p)) else [])
    case Process(i, order) =>
      var (at, job) := s.jobs[i];
      var node := s.nodes[at];
      Net(s.nodes[at := Handle(node, job)],
          s.packets + Packets(node, job, order),
          Drop(s.jobs, i),
          if Notices(node, job) == [] then s.heard else s.heard + [(at, job.msg.id)],
          s.wire + Trace(at, Packets(node, job, order)))
  }

  /** Events that are not possible do not happen. */
  ghost function Run(nodes: map<Id, Node>, es: seq<Event>): (r: Net)
    ensures SameConnections(nodes, r.nodes)
  {
    if es == [] then Net(nodes, [], [], [], [])
    else
      var s := Run(nodes, es[..|es|-1]);
      if Enabled(s, es[|es|-1]) then Step(s, es[|es|-1]) else s
  }

  // ----- what every run keeps

  /** Nothing has been sent yet. */
  ghost predicate Start(nodes: map<Id, Node>) {
    forall n :: n in nodes ==> nodes[n].sent == {}
  }

  /** No peer is listed twice, neither in one list nor across both. */
  ghost predicate Connected(nodes: map<Id, Node>) {
    forall n :: n in nodes ==> NoDup(nodes[n].broadcasters) && Disjoint(nodes[n])
  }

  ghost predicate HeardOnce(nodes: map<Id, Node>, heard: seq<(Id, MsgId)>) {
    && NoDup(heard)
    && (forall h :: h in heard ==> h.0 in nodes && nodes[h.0].hears && h.1 in nodes[h.0].sent)
    && (forall n, m :: n in nodes && nodes[n].hears && m in nodes[n].sent ==> (n, m) in heard)
  }

  ghost predicate Wired(nodes: map<Id, Node>, wire: seq<(Id, Id, MsgId)>) {
    && (forall w :: w in wire ==> w.0 in nodes && w.2 in nodes[w.0].sent)
    && (forall n, m, b :: n in nodes && m in nodes[n].sent && b in nodes[n].broadcasters ==> (n, b, m) in wire)
  }

  ghost predicate JobsPlaced(nodes: map<Id, Node>, jobs: seq<(Id, Job)>) {
    forall j :: j in jobs ==> j.0 in nodes
  }

  ghost predicate Inv(s: Net) {
    && JobsPlaced(s.nodes, s.jobs) && HeardOnce(s.nodes, s.heard) && Wired(s.nodes, s.wire)
    && (Connected(s.nodes) ==> NoDup(s.wire))
  }

  lemma HandleHeard(s: Net, i: nat, order: seq<Id>)
    requires HeardOnce(s.nodes, s.heard) && Enabled(s, Process(i, order))
    ensures var r := Step(s, Process(i, order)); HeardOnce(r.nodes, r.heard)
  {
    hide Lists;
    var at, job := s.jobs[i].0, s.jobs[i].1;
    if Notices(s.nodes[at], job) != [] {
      NoDupSnoc(s.heard, (at, job.msg.id));
    }
  }

  /** The copies of one message go to different peers. */
  lemma RecipientsDiffer(node: Node, job: Job, order: seq<Id>)
    requires NoDup(node.broadcasters) && Disjoint(node)
    requires Lists(order, Audience(node, job.msg, Skips(job)))
    ensures NoDup(order + node.broadcasters)
  {
    var to := order + node.broadcasters;
    forall i, j | 0 <= i < |order| <= j < |to|
      ensures to[i] != to[j]
    {
      assert to[i] == order[i] && order[i] in Elements(order);
      assert to[j] == node.broadcasters[j - |order|];
    }
  }

  /** Who gets a copy when a node sends a message on: every broadcaster, and each
      listener other than the owner of an outbound packet whose scope is empty or
      names the owner of the message. Nobody gets two. */
  lemma RecipientsExact(node: Node, job: Job, order: seq<Id>, id: Id)
    requires NoDup(node.broadcasters) && Disjoint(node) && Sends(node, job)
    requires Lists(order, Audience(node, job.msg, Skips(job)))
    ensures Packet(id, job.msg, job.msg.owner) in Packets(node, job, order) <==>
      || id in node.broadcasters
      || (id in node.listeners && (node.listeners[id] == {} || job.msg.owner in node.listeners[id])
          && (job.Outbound? && job.from.Peer? ==> id != job.from.ownerId))
    ensures NoDup(Packets(node, job, order))
  {
    RecipientsDiffer(node, job, order);
    var to := order + node.broadcasters;
    var packets := Packets(node, job, order);
    assert id in order <==> id in Elements(order);
    if id in to {
      var k :| 0 <= k < |to| && to[k] == id;
      assert packets[k] == Packet(id, job.msg, job.msg.owner);
    }
  }

  lemma HandleWired(s: Net, i: nat, order: seq<Id>)
    requires Wired(s.nodes, s.wire) && Enabled(s, Process(i, order))
    ensures var r := Step(s, Process(i, order));
      Wired(r.nodes, r.wire) && (Connected(s.nodes) && NoDup(s.wire) ==> NoDup(r.wire))
  {
    hide Lists, NoDup, Disjoint;
    var at, job := s.jobs[i].0, s.jobs[i].1;
    var node, r := s.nodes[at], Step(s, Process(i, order));
    var out := Trace(at, Packets(node, job, order));
    if Sends(node, job) {
      if Connected(s.nodes) && NoDup(s.wire) {
        RecipientsDiffer(node, job, order);
        TraceOnce(s.wire, at, order + node.broadcasters, job.msg);
      }
      forall n, m, b | n in r.nodes && m in r.nodes[n].sent && b in r.nodes[n].broadcasters
        ensures (n, b, m) in r.wire
      {
        if m !in s.nodes[n].sent {
          var k :| 0 <= k < |node.broadcasters| && node.broadcasters[k] == b;
          assert out[|order| + k] == (at, b, m);
        }
      }
    } else {
      assert s.wire + out == s.wire;
    }
  }

  lemma TraceOnce(wire: seq<(Id, Id, MsgId)>, at: Id, to: seq<Id>, msg: Message)
    requires NoDup(wire) && NoDup(to)
    requires forall w :: w in wire ==> w.0 != at || w.2 != msg.id
    ensures NoDup(wire + Trace(at, Copies(to, msg)))
  {
  }

  lemma ConnectedSame(a: map<Id, Node>, b: map<Id, Node>)
    requires SameConnections(a, b)
    ensures Connected(a) == Connected(b)
  {
  }

  lemma StepKeeps(s: Net, e: Event)
    requires Inv(s) && Enabled(s, e)
    ensures Inv(Step(s, e))
  {
    hide HeardOnce, Wired, Connected, Lists, NoDup;
    ConnectedSame(s.nodes, Step(s, e).nodes);
    if e.Process? {
      HandleHeard(s, e.i, e.order);
      HandleWired(s, e.i, e.order);
    }
  }

  lemma {:induction false} RunKeeps(nodes: map<Id, Node>, es: seq<Event>)
    requires Start(nodes)
    ensures Inv(Run(nodes, es))
  {
    if es != [] {
      var rest := es[..|es|-1];
      RunKeeps(nodes, rest);
      if Enabled(Run(nodes, rest), es[|es|-1]) {
        StepKeeps(Run(nodes, rest), es[|es|-1]);
      }
    }
  }

  /** At any time, quiet or not, a node has called its callback at most once for
      a message, exactly if it has marked it sent, and then it has forwarded it
      to every neighbour; to each once, if no peer is listed twice. */
  lemma AtMostOnce(nodes: map<Id, Node>, es: seq<Event>)
    requires Start(nodes)
    ensures var s := Run(nodes, es);
      && (forall j, k :: 0 <= j < k < |s.heard| ==> s.heard[j] != s.heard[k])
      && (Connected(nodes) ==> forall j, k :: 0 <= j < k < |s.wire| ==> s.wire[j] != s.wire[k])
      && (forall n, m :: n in s.nodes && s.nodes[n].hears ==> ((n, m) in s.heard <==> m in s.nodes[n].sent))
      && (forall n, b, m :: n in s.nodes && b in s.nodes[n].broadcasters ==>
            ((n, b, m) in s.wire <==> m in s.nodes[n].sent))
  {
    RunKeeps(nodes, es);
    ConnectedSame(nodes, Run(nodes, es).nodes);
    hide Connected;
  }

  // ----- coverage

  /** The peer stands in both lists of the node. */
  predicate Doubled(node: Node, id: Id) {
    id in node.listeners && id in node.broadcasters
  }

  /** A packet that reaches a node which has not sent its message is lost exactly
      if the owner of the message stands in both lists there. */
  lemma LostExactly(s: Net, i: nat)
    requires i < |s.packets| && s.packets[i].to in s.nodes
    requires s.packets[i].msg.id !in s.nodes[s.packets[i].to].sent
    ensures var p, r := s.packets[i], Step(s, Deliver(i));
      if Doubled(s.nodes[p.to], p.msg.owner) then r.jobs == s.jobs
      else |r.jobs| == |s.jobs| + 1 && r.jobs[|s.jobs|].0 == p.to && r.jobs[|s.jobs|].1.msg == p.msg
           && Sends(r.nodes[p.to], r.jobs[|s.jobs|].1)
  {
  }

  /** No connection leads from a node that accepts messages of this owner to one
      that drops them. */
  ghost predicate Passable(nodes: map<Id, Node>, owner: Id) {
    forall n, b :: n in nodes && b in nodes && b in nodes[n].broadcasters && Doubled(nodes[b], owner) ==>
      Doubled(nodes[n], owner)
  }

  lemma PassableSame(a: map<Id, Node>, b: map<Id, Node>, owner: Id)
    requires SameConnections(a, b)
    ensures Passable(a, owner) == Passable(b, owner)
  {
  }

  predicate FromPacket(job: Job) {
    !(job.Outbound? && job.from.Self?)
  }

  /** The nodes that a copy of message m is on the way to and will not be dropped
      by. */
  function Coming(nodes: map<Id, Node>, packets: seq<Packet>, jobs: seq<(Id, Job)>, m: MsgId): set<Id> {
    (set p | p in packets && p.msg.id == m && p.to in nodes && !Doubled(nodes[p.to], p.msg.owner) :: p.to)
      + set j | j in jobs && j.1.msg.id == m && FromPacket(j.1) :: j.0
  }

  /** Each neighbour of a node that sent message m has sent it too, or a copy is
      on the way to it. */
  ghost predicate Covered(nodes: map<Id, Node>, coming: set<Id>, m: MsgId) {
    forall n, b :: n in nodes && m in nodes[n].sent && b in nodes && b in nodes[n].broadcasters ==>
      m in nodes[b].sent || b in coming
  }

  /** What travels about m may pass, and is pending only where it is accepted. */
  ghost predicate Passing(s: Net, m: MsgId) {
    && (forall p :: p in s.packets && p.msg.id == m ==> Passable(s.nodes, p.msg.owner))
    && forall j :: j in s.jobs && j.1.msg.id == m ==>
         && j.0 in s.nodes && Passable(s.nodes, j.1.msg.owner)
         && (FromPacket(j.1) ==> !Doubled(s.nodes[j.0], j.1.msg.owner))
  }

  ghost predicate Flooded(s: Net, m: MsgId) {
    Passing(s, m) && Covered(s.nodes, Coming(s.nodes, s.packets, s.jobs, m), m)
  }

  lemma CopiesCover(nodes: map<Id, Node>, at: Id, job: Job, order: seq<Id>, b: Id)
    requires at in nodes && b in nodes && Sends(nodes[at], job) && b in nodes[at].broadcasters
    requires Passable(nodes, job.msg.owner) && !Doubled(nodes[at], job.msg.owner)
    ensures b in Coming(nodes, Packets(nodes[at], job, order), [], job.msg.id)
  {
    var to := order + nodes[at].broadcasters;
    var k :| 0 <= k < |nodes[at].broadcasters| && nodes[at].broadcasters[k] == b;
    assert to[|order| + k] == b;
    assert Copies(to, job.msg)[|order| + k] == Packet(b, job.msg, job.msg.owner);
  }

  /** More copies and events never take anybody away. */
  lemma ComingGrows(a: map<Id, Node>, b: map<Id, Node>, s: Net, r: Net, m: MsgId)
    requires SameConnections(a, b)
    requires (forall p :: p in s.packets ==> p in r.packets) && forall j :: j in s.jobs ==> j in r.jobs
    ensures Coming(a, s.packets, s.jobs, m) <= Coming(b, r.packets, r.jobs, m)
  {
  }

  lemma ProcessPasses(s: Net, i: nat, order: seq<Id>, m: MsgId)
    requires Passing(s, m) && Enabled(s, Process(i, order))
    ensures Passing(Step(s, Process(i, order)), m)
  {
    hide Passable, Lists;
    var r := Step(s, Process(i, order));
    var at, job := s.jobs[i].0, s.jobs[i].1;
    forall owner
      ensures Passable(s.nodes, owner) == Passable(r.nodes, owner)
    {
      PassableSame(s.nodes, r.nodes, owner);
    }
    assert forall p :: p in r.packets ==> p in s.packets || p.msg == job.msg;
    assert forall j :: j in r.jobs ==> j in s.jobs;
  }

  /** Who was in reach before stays so, but for the node of the event. */
  lemma ComingAfterProcess(s: Net, i: nat, order: seq<Id>, m: MsgId)
    requires Enabled(s, Process(i, order))
    ensures var r := Step(s, Process(i, order));
      var at, job := s.jobs[i].0, s.jobs[i].1;
      var before := Coming(s.nodes, s.packets, s.jobs, m);
      var after := Coming(r.nodes, r.packets, r.jobs, m);
      && before <= after + {at}
      && (job.msg.id != m || !FromPacket(job) ==> before <= after)
      && Coming(s.nodes, Packets(s.nodes[at], job, order), [], m) <= after
  {
    hide Lists;
    var r := Step(s, Process(i, order));
    assert SameConnections(s.nodes, r.nodes);
  }

  lemma ProcessCovers(s: Net, i: nat, order: seq<Id>, m: MsgId)
    requires Flooded(s, m) && Enabled(s, Process(i, order))
    ensures Flooded(Step(s, Process(i, order)), m)
  {
    hide Lists, Passable, Coming, Packets;
    var r := Step(s, Process(i, order));
    var at, job := s.jobs[i].0, s.jobs[i].1;
    ProcessPasses(s, i, order, m);
    ComingAfterProcess(s, i, order, m);
    forall n, b | n in r.nodes && m in r.nodes[n].sent && b in r.nodes && b in r.nodes[n].broadcasters
      ensures m in r.nodes[b].sent || b in Coming(r.nodes, r.packets, r.jobs, m)
    {
      if m !in s.nodes[n].sent {
        CopiesCover(s.nodes, at, job, order, b);
      }
    }
  }

  lemma DeliverCovers(s: Net, i: nat, m: MsgId)
    requires Flooded(s, m) && i < |s.packets|
    ensures Flooded(Step(s, Deliver(i)), m)
  {
    hide Passable;
    var p, r := s.packets[i], Step(s, Deliver(i));
    if p.to in s.nodes && p.msg.id !in s.nodes[p.to].sent {
      LostExactly(s, i);
      if !Doubled(s.nodes[p.to], p.msg.owner) {
        assert r.jobs[|s.jobs|] in r.jobs;
      }
    }
    assert forall j :: j in s.jobs ==> j in r.jobs;
  }

  /** Every message with ID m that enters the network may pass. */
  ghost predicate Carries(nodes: map<Id, Node>, es: seq<Event>, m: MsgId) {
    forall e :: e in es ==> Admits(nodes, e, m)
  }

  ghost predicate Admits(nodes: map<Id, Node>, e: Event, m: MsgId) {
    && (e.Say? && e.msg.id == m ==> Passable(nodes, e.msg.owner))
    && (e.Inject? && e.packet.msg.id == m ==> Passable(nodes, e.packet.msg.owner))
  }

  lemma StepCovers(s: Net, e: Event, m: MsgId)
    requires Flooded(s, m) && Enabled(s, e) && Admits(s.nodes, e, m)
    ensures Flooded(Step(s, e), m)
  {
    hide Passable, Coming, Lists;
    match e
    case Say(at, msg) => ComingGrows(s.nodes, s.nodes, s, Step(s, e), m);
    case Inject(packet) => ComingGrows(s.nodes, s.nodes, s, Step(s, e), m);
    case Deliver(i) => DeliverCovers(s, i, m);
    case Process(i, order) => ProcessCovers(s, i, order, m);
  }

  lemma {:induction false} RunCovers(nodes: map<Id, Node>, es: seq<Event>, m: MsgId)
    requires Start(nodes) && Carries(nodes, es, m)
    ensures Flooded(Run(nodes, es), m)
    decreases |es|
  {
    hide Passable, Coming, Enabled;
    if es != [] {
      var rest, e := es[..|es|-1], es[|es|-1];
      var s := Run(nodes, rest);
      RunCovers(nodes, rest, m);
      if Enabled(s, e) {
        forall owner
          ensures Passable(nodes, owner) == Passable(s.nodes, owner)
        {
          PassableSame(nodes, s.nodes, owner);
        }
        assert Admits(nodes, e, m);
        StepCovers(s, e, m);
      }
    }
  }

  predicate Quiet(s: Net) {
    s.packets == [] && s.jobs == []
  }

  ghost predicate Path(nodes: map<Id, Node>, path: seq<Id>) {
    && path != []
    && (forall k :: 0 <= k < |path| ==> path[k] in nodes)
    && forall k :: 0 < k < |path| ==> path[k] in nodes[path[k-1]].broadcasters
  }

  lemma {:induction false} PathCovered(s: Net, path: seq<Id>, m: MsgId)
    requires Flooded(s, m) && Quiet(s) && Path(s.nodes, path) && m in s.nodes[path[0]].sent
    ensures m in s.nodes[path[|path|-1]].sent
    decreases |path|
  {
    hide Passing;
    if |path| > 1 {
      PathCovered(s, path[..|path|-1], m);
    }
  }

  lemma PathSame(a: map<Id, Node>, b: map<Id, Node>, path: seq<Id>)
    requires SameConnections(a, b)
    ensures Path(a, path) == Path(b, path)
  {
  }

  /** When no packet is in flight and no event is pending, every node reachable
      from one that sent the message has sent it, has called its callback for it
      exactly once, and has forwarded it to each neighbour, and exactly once if
      no peer is listed twice. It is enough that what enters the network under
      this ID may pass. */
  lemma FloodCovers(nodes: map<Id, Node>, es: seq<Event>, path: seq<Id>, m: MsgId)
    requires Start(nodes) && Carries(nodes, es, m) && Quiet(Run(nodes, es))
    requires Path(nodes, path) && m in Run(nodes, es).nodes[path[0]].sent
    ensures var s, last := Run(nodes, es), path[|path|-1];
      && m in s.nodes[last].sent
      && NoDup(s.heard) && ((last, m) in s.heard <==> s.nodes[last].hears)
      && (forall b :: b in s.nodes[last].broadcasters ==> (last, b, m) in s.wire)
      && (Connected(nodes) ==> NoDup(s.wire))
  {
    hide Passable, Coming, Connected, Carries;
    RunKeeps(nodes, es);
    RunCovers(nodes, es, m);
    ConnectedSame(nodes, Run(nodes, es).nodes);
    PathSame(nodes, Run(nodes, es).nodes, path);
    PathCovered(Run(nodes, es), path, m);
  }

  lemma RunOne(nodes: map<Id, Node>, es: seq<Event>, e: Event)
    requires Enabled(Run(nodes, es), e)
    ensures Run(nodes, es + [e]) == Step(Run(nodes, es), e)
  {
    assert (es + [e])[..|es + [e]| - 1] == es;
  }

  // ----- termination

  function PacketsAbout(packets: seq<Packet>, m: MsgId): nat {
    if packets == [] then 0
    else PacketsAbout(packets[..|packets|-1], m) + if packets[|packets|-1].msg.id == m then 1 else 0
  }

  function JobsAbout(jobs: seq<(Id, Job)>, m: MsgId): nat {
    if jobs == [] then 0
    else JobsAbout(jobs[..|jobs|-1], m) + if jobs[|jobs|-1].1.msg.id == m then 1 else 0
  }

  /** What the nodes that have not sent the message may still send, twice: a
      copy is delivered, and then its event is processed. */
  function Unsent(nodes: map<Id, Node>, ids: seq<Id>, m: MsgId): nat
    requires forall n :: n in ids ==> n in nodes
  {
    if ids == [] then 0
    else
      var n := ids[|ids|-1];
      Unsent(nodes, ids[..|ids|-1], m)
        + if m in nodes[n].sent then 0 else 2 * (|nodes[n].broadcasters| + |nodes[n].listeners|)
  }

  /** How many more deliveries and events there can be about message m. */
  function Potential(s: Net, ids: seq<Id>, m: MsgId): nat
    requires forall n :: n in ids ==> n in s.nodes
  {
    Unsent(s.nodes, ids, m) + 2 * PacketsAbout(s.packets, m) + JobsAbout(s.jobs, m)
  }

  function About(s: Net, e: Event): MsgId
    requires Moves(e) && Enabled(s, e)
  {
    if e.Deliver? then s.packets[e.i].msg.id else s.jobs[e.i].1.msg.id
  }

  lemma {:induction false} PacketsAboutAppend(a: seq<Packet>, b: seq<Packet>, m: MsgId)
    ensures PacketsAbout(a + b, m) == PacketsAbout(a, m) + PacketsAbout(b, m)
    decreases |b|
  {
    if b == [] {
      assert a + b == a;
    } else {
      assert (a + b)[..|a + b| - 1] == a + b[..|b|-1];
      PacketsAboutAppend(a, b[..|b|-1], m);
    }
  }

  lemma PacketsAboutDrop(s: seq<Packet>, i: nat, m: MsgId)
    requires i < |s|
    ensures PacketsAbout(Drop(s, i), m) + (if s[i].msg.id == m then 1 else 0) == PacketsAbout(s, m)
  {
    assert s == (s[..i] + [s[i]]) + s[i+1..];
    PacketsAboutAppend(s[..i] + [s[i]], s[i+1..], m);
    assert (s[..i] + [s[i]])[..i] == s[..i];
    PacketsAboutAppend(s[..i], s[i+1..], m);
  }

  lemma {:induction false} JobsAboutAppend(a: seq<(Id, Job)>, b: seq<(Id, Job)>, m: MsgId)
    ensures JobsAbout(a + b, m) == JobsAbout(a, m) + JobsAbout(b, m)
    decreases |b|
  {
    if b == [] {
      assert a + b == a;
    } else {
      assert (a + b)[..|a + b| - 1] == a + b[..|b|-1];
      JobsAboutAppend(a, b[..|b|-1], m);
    }
  }

  lemma JobsAboutDrop(s: seq<(Id, Job)>, i: nat, m: MsgId)
    requires i < |s|
    ensures JobsAbout(Drop(s, i), m) + (if s[i].1.msg.id == m then 1 else 0) == JobsAbout(s, m)
  {
    assert s == (s[..i] + [s[i]]) + s[i+1..];
    JobsAboutAppend(s[..i] + [s[i]], s[i+1..], m);
    assert (s[..i] + [s[i]])[..i] == s[..i];
    JobsAboutAppend(s[..i], s[i+1..], m);
  }

  lemma {:induction false} CopiesAbout(to: seq<Id>, msg: Message, m: MsgId)
    ensures PacketsAbout(Copies(to, msg), m) == if msg.id == m then |to| else 0
    decreases |to|
  {
    if to != [] {
      CopiesAbout(to[..|to|-1], msg, m);
      var c := Copies(to, msg);
      assert c[..|c|-1] == Copies(to[..|to|-1], msg);
    }
  }

  /** Marking one more node. */
  lemma {:induction false} UnsentMarks(nodes: map<Id, Node>, ids: seq<Id>, at: Id, id: MsgId, m: MsgId)
    requires NoDup(ids) && (forall n :: n in ids ==> n in nodes) && at in nodes && id !in nodes[at].sent
    ensures var r := nodes[at := nodes[at].(sent := nodes[at].sent + {id})];
      Unsent(r, ids, m) + (if at in ids && id == m then 2 * (|nodes[at].broadcasters| + |nodes[at].listeners|) else 0)
        == Unsent(nodes, ids, m)
    decreases |ids|
  {
    if ids != [] {
      UnsentMarks(nodes, ids[..|ids|-1], at, id, m);
    }
  }

  lemma AudienceBound(node: Node, job: Job, order: seq<Id>)
    requires Lists(order, Audience(node, job.msg, Skips(job)))
    ensures |order| <= |node.listeners|
  {
    ElementsCount(order);
    CardinalityMonotone(Elements(order), node.listeners.Keys);
    assert |node.listeners.Keys| == |node.listeners|;
  }

  /** The nodes of the network in some order. */
  ghost predicate Census(s: Net, ids: seq<Id>) {
    NoDup(ids) && (forall n :: n in ids ==> n in s.nodes) && (forall n :: n in s.nodes ==> n in ids)
  }

  lemma ArrivalAbout(node: Node, p: Packet, m: MsgId)
    ensures JobsAbout(At(p.to, Receive(node, p)), m) <= if p.msg.id == m then 1 else 0
  {
    var jobs := At(p.to, Receive(node, p));
    if jobs != [] {
      assert jobs[..0] == [];
    }
  }

  lemma DeliverDescends(s: Net, ids: seq<Id>, i: nat, m: MsgId)
    requires Census(s, ids) && i < |s.packets|
    ensures Potential(Step(s, Deliver(i)), ids, m) + (if s.packets[i].msg.id == m then 1 else 0)
         <= Potential(s, ids, m)
  {
    hide At, PacketsAbout, JobsAbout, Drop;
    var p := s.packets[i];
    PacketsAboutDrop(s.packets, i, m);
    if p.to in s.nodes {
      JobsAboutAppend(s.jobs, At(p.to, Receive(s.nodes[p.to], p)), m);
      ArrivalAbout(s.nodes[p.to], p, m);
    } else {
      assert s.jobs + [] == s.jobs;
    }
  }

  lemma ProcessDescends(s: Net, ids: seq<Id>, i: nat, order: seq<Id>, m: MsgId)
    requires Census(s, ids) && Enabled(s, Process(i, order))
    ensures Potential(Step(s, Process(i, order)), ids, m) + (if s.jobs[i].1.msg.id == m then 1 else 0)
         <= Potential(s, ids, m)
  {
    var at, job := s.jobs[i].0, s.jobs[i].1;
    var node := s.nodes[at];
    JobsAboutDrop(s.jobs, i, m);
    PacketsAboutAppend(s.packets, Packets(node, job, order), m);
    if Sends(node, job) {
      AudienceBound(node, job, order);
      CopiesAbout(order + node.broadcasters, job.msg, m);
      UnsentMarks(s.nodes, ids, at, job.msg.id, m);
    } else {
      assert s.nodes[at := node] == s.nodes;
    }
  }

  /** Each delivery and each event uses up part of what is left of its message,
      and takes nothing from the others. */
  lemma StepDescends(s: Net, ids: seq<Id>, e: Event, m: MsgId)
    requires Census(s, ids) && Moves(e) && Enabled(s, e)
    ensures Potential(Step(s, e), ids, m) + (if About(s, e) == m then 1 else 0) <= Potential(s, ids, m)
  {
    match e
    case Deliver(i) => DeliverDescends(s, ids, i, m);
    case Process(i, order) => ProcessDescends(s, ids, i, order, m);
  }

  /** A schedule of deliveries and events, each possible when its turn comes. */
  ghost predicate Schedule(s: Net, es: seq<Event>)
    decreases |es|
  {
    es == [] || (Moves(es[0]) && Enabled(s, es[0]) && Schedule(Step(s, es[0]), es[1..]))
  }

  ghost function After(s: Net, es: seq<Event>): (r: Net)
    requires Schedule(s, es)
    ensures r.nodes.Keys == s.nodes.Keys
    decreases |es|
  {
    if es == [] then s else After(Step(s, es[0]), es[1..])
  }

  ghost function StepsAbout(s: Net, es: seq<Event>, m: MsgId): nat
    requires Schedule(s, es)
    decreases |es|
  {
    if es == [] then 0
    else StepsAbout(Step(s, es[0]), es[1..], m) + if About(s, es[0]) == m then 1 else 0
  }

  /** Under every schedule, with duplicates, the steps about one message are
      bounded: two for each copy that may be sent, and those under way. */
  lemma {:induction false} FloodEnds(s: Net, ids: seq<Id>, es: seq<Event>, m: MsgId)
    requires Census(s, ids) && Schedule(s, es)
    ensures StepsAbout(s, es, m) + Potential(After(s, es), ids, m) <= Potential(s, ids, m)
    decreases |es|
  {
    if es != [] {
      StepDescends(s, ids, es[0], m);
      FloodEnds(Step(s, es[0]), ids, es[1..], m);
    }
  }

  /** The messages that packets and events are about. */
  ghost predicate OnlyAbout(s: Net, ms: seq<MsgId>) {
    (forall p :: p in s.packets ==> p.msg.id in ms) && forall j :: j in s.jobs ==> j.1.msg.id in ms
  }

  function Total(s: Net, ids: seq<Id>, ms: seq<MsgId>): nat
    requires forall n :: n in ids ==> n in s.nodes
  {
    if ms == [] then 0 else Total(s, ids, ms[..|ms|-1]) + Potential(s, ids, ms[|ms|-1])
  }

  lemma {:induction false} TotalDescends(s: Net, ids: seq<Id>, ms: seq<MsgId>, e: Event)
    requires Census(s, ids) && Moves(e) && Enabled(s, e)
    ensures Total(Step(s, e), ids, ms) + (if About(s, e) in ms then 1 else 0) <= Total(s, ids, ms)
    decreases |ms|
  {
    hide Potential, Step, About, Census, Enabled;
    if ms != [] {
      var m := ms[|ms|-1];
      TotalDescends(s, ids, ms[..|ms|-1], e);
      StepDescends(s, ids, e, m);
    }
  }

  lemma StepOnlyAbout(s: Net, ms: seq<MsgId>, e: Event)
    requires OnlyAbout(s, ms) && Moves(e) && Enabled(s, e)
    ensures OnlyAbout(Step(s, e), ms) && About(s, e) in ms
  {
  }

  /** The whole network comes to rest: no schedule is longer than the total. */
  lemma {:induction false} NetworkRests(s: Net, ids: seq<Id>, ms: seq<MsgId>, es: seq<Event>)
    requires Census(s, ids) && OnlyAbout(s, ms) && Schedule(s, es)
    ensures |es| + Total(After(s, es), ids, ms) <= Total(s, ids, ms)
    decreases |es|
  {
    hide Total, OnlyAbout, Enabled;
    if es != [] {
      StepOnlyAbout(s, ms, es[0]);
      TotalDescends(s, ids, ms, es[0]);
      NetworkRests(Step(s, es[0]), ids, ms, es[1..]);
    }
  }

  lemma {:induction false} Enumerate(ids: set<Id>) returns (order: seq<Id>)
    ensures Lists(order, ids)
    decreases ids
  {
    if ids == {} {
      order := [];
    } else {
      var x :| x in ids;
      var rest := Enumerate(ids - {x});
      assert x !in rest;
      order := rest + [x];
    }
  }

  /** ... and it cannot stop before: while it is not quiet, a step is possible. */
  lemma Progress(s: Net) returns (e: Event)
    requires JobsPlaced(s.nodes, s.jobs) && !Quiet(s)
    ensures Moves(e) && Enabled(s, e)
  {
    if s.packets != [] {
      e := Deliver(0);
    } else {
      var job := s.jobs[0].1;
      var order := Enumerate(Audience(s.nodes[s.jobs[0].0], job.msg, Skips(job)));
      e := Process(0, order);
    }
  }

  // ----- when a flood stops short

  /** All that is under way about the message has one owner, the node has not
      sent it, and no event about it is pending there. */
  ghost predicate Blocked(s: Net, b: Id, msg: Message) {
    && b in s.nodes && msg.id !in s.nodes[b].sent
    && (forall p :: p in s.packets && p.msg.id == msg.id ==> p.msg.owner == msg.owner)
    && (forall j :: j in s.jobs && j.1.msg.id == msg.id ==> j.1.msg.owner == msg.owner && j.0 != b)
  }

  /** A node that lists the owner twice never gets to send the message. */
  lemma StepBlocks(s: Net, e: Event, b: Id, msg: Message)
    requires Blocked(s, b, msg) && Doubled(s.nodes[b], msg.owner) && Moves(e) && Enabled(s, e)
    ensures Blocked(Step(s, e), b, msg)
  {
    hide Lists;
    if e.Process? {
      assert forall p :: p in Packets(s.nodes[s.jobs[e.i].0], s.jobs[e.i].1, e.order) ==> p.msg == s.jobs[e.i].1.msg;
    }
  }

  lemma {:induction false} AfterBlocks(s: Net, es: seq<Event>, b: Id, msg: Message)
    requires Schedule(s, es) && Blocked(s, b, msg) && Doubled(s.nodes[b], msg.owner)
    ensures Blocked(After(s, es), b, msg)
    decreases |es|
  {
    hide Enabled, Blocked;
    if es != [] {
      StepBlocks(s, es[0], b, msg);
      AfterBlocks(Step(s, es[0]), es[1..], b, msg);
    }
  }

  lemma {:induction false} RunAfter(nodes: map<Id, Node>, es: seq<Event>, more: seq<Event>)
    requires Schedule(Run(nodes, es), more)
    ensures Run(nodes, es + more) == After(Run(nodes, es), more)
    decreases |more|
  {
    hide Enabled, Step;
    if more == [] {
      assert es + more == es;
    } else {
      RunOne(nodes, es, more[0]);
      RunAfter(nodes, es + [more[0]], more[1..]);
      assert (es + [more[0]]) + more[1..] == es + more;
    }
  }

  lemma {:induction false} AfterKeeps(s: Net, es: seq<Event>, n: Id, m: MsgId)
    requires Schedule(s, es) && n in s.nodes && m in s.nodes[n].sent
    ensures m in After(s, es).nodes[n].sent
    decreases |es|
  {
    if es != [] {
      AfterKeeps(Step(s, es[0]), es[1..], n, m);
    }
  }

  /** Every network can be brought to rest by deliveries and events alone. */
  lemma {:induction false} Settle(s: Net, ids: seq<Id>, ms: seq<MsgId>) returns (es: seq<Event>)
    requires JobsPlaced(s.nodes, s.jobs) && Census(s, ids) && OnlyAbout(s, ms)
    ensures Schedule(s, es) && Quiet(After(s, es))
    decreases Total(s, ids, ms)
  {
    hide Total, OnlyAbout, Enabled, Step, Lists;
    if Quiet(s) {
      es := [];
    } else {
      var e := Progress(s);
      StepOnlyAbout(s, ms, e);
      TotalDescends(s, ids, ms, e);
      StepPlaces(s, e);
      var rest := Settle(Step(s, e), ids, ms);
      es := [e] + rest;
      assert es[1..] == rest;
    }
  }

  lemma StepPlaces(s: Net, e: Event)
    requires JobsPlaced(s.nodes, s.jobs) && Moves(e) && Enabled(s, e)
    ensures JobsPlaced(Step(s, e).nodes, Step(s, e).jobs)
  {
  }

  /** A packet that arrives at a node in a quiet network and is accepted. */
  lemma Accepted(s: Net, n: Id, msg: Message) returns (job: Job)
    requires Quiet(s) && n in s.nodes && msg.id !in s.nodes[n].sent && !Doubled(s.nodes[n], msg.owner)
    ensures var r := Step(Step(s, Inject(Packet(n, msg, msg.owner))), Deliver(0));
      r == s.(jobs := [(n, job)])
    ensures job.msg == msg && Sends(s.nodes[n], job)
  {
    var s1 := Step(s, Inject(Packet(n, msg, msg.owner)));
    LostExactly(s1, 0);
    job := Step(s1, Deliver(0)).jobs[0].1;
  }

  lemma Emitted(s: Net, n: Id, job: Job, order: seq<Id>)
    requires s.packets == [] && s.jobs == [(n, job)] && Enabled(s, Process(0, order)) && Sends(s.nodes[n], job)
    ensures var r := Step(s, Process(0, order));
      && r.jobs == [] && job.msg.id in r.nodes[n].sent
      && (forall k :: k in s.nodes && k != n ==> r.nodes[k] == s.nodes[k])
      && (forall p :: p in r.packets ==> p.msg == job.msg)
  {
    hide Lists;
  }

  /** So a listener's packet makes any node send that does not list him twice. */
  lemma FloodBegins(nodes: map<Id, Node>, n: Id, msg: Message) returns (es: seq<Event>)
    requires Start(nodes) && n in nodes && !Doubled(nodes[n], msg.owner)
    ensures forall e :: e in es ==> !e.Say? && (e.Inject? ==> e.packet.msg == msg)
    ensures var s := Run(nodes, es);
      && s.jobs == [] && msg.id in s.nodes[n].sent
      && (forall k :: k in nodes && k != n ==> s.nodes[k] == nodes[k])
      && (forall p :: p in s.packets ==> p.msg == msg)
  {
    hide Step, Audience, Lists, Sends;
    var p := Packet(n, msg, msg.owner);
    var s0 := Run(nodes, []);
    RunOne(nodes, [], Inject(p));
    assert |Step(s0, Inject(p)).packets| == 1 by {
      InjectAdds(s0, p);
    }
    RunOne(nodes, [] + [Inject(p)], Deliver(0));
    var job := Accepted(s0, n, msg);
    var order := Enumerate(Audience(nodes[n], job.msg, Skips(job)));
    RunOne(nodes, [] + [Inject(p)] + [Deliver(0)], Process(0, order));
    Emitted(s0.(jobs := [(n, job)]), n, job, order);
    es := [] + [Inject(p)] + [Deliver(0)] + [Process(0, order)];
  }

  lemma InjectAdds(s: Net, p: Packet)
    ensures Step(s, Inject(p)).packets == s.packets + [p]
  {
  }

  /** All messages under this ID are from the same owner. */
  ghost predicate OneOwner(es: seq<Event>, msg: Message) {
    forall e :: e in es ==>
      && (e.Say? && e.msg.id == msg.id ==> e.msg.owner == msg.owner)
      && (e.Inject? && e.packet.msg.id == msg.id ==> e.packet.msg.owner == msg.owner)
  }

  /** Whatever happens, once the network is quiet the message has spread along
      every path from a node that sent it. */
  ghost predicate AlwaysSpreads(nodes: map<Id, Node>, msg: Message) {
    forall es, path ::
      OneOwner(es, msg) && Path(nodes, path) && Quiet(Run(nodes, es))
      && msg.id in Run(nodes, es).nodes[path[0]].sent ==>
        msg.id in Run(nodes, es).nodes[path[|path|-1]].sent
  }

  /** Where the message does not spread: a connection from a node that accepts
      its owner to one that lists him twice. */
  lemma StopsShort(nodes: map<Id, Node>, msg: Message, n: Id, b: Id) returns (es: seq<Event>)
    requires Start(nodes) && n in nodes && b in nodes && b in nodes[n].broadcasters
    requires Doubled(nodes[b], msg.owner) && !Doubled(nodes[n], msg.owner)
    ensures OneOwner(es, msg) && Quiet(Run(nodes, es))
    ensures msg.id in Run(nodes, es).nodes[n].sent && msg.id !in Run(nodes, es).nodes[b].sent
  {
    hide After, Schedule, Step, Enabled, Passable;
    var first := FloodBegins(nodes, n, msg);
    var s := Run(nodes, first);
    var ids := Enumerate(s.nodes.Keys);
    assert forall k :: k in s.nodes.Keys <==> k in Elements(ids);
    var rest := Settle(s, ids, [msg.id]);
    es := first + rest;
    RunAfter(nodes, first, rest);
    AfterBlocks(s, rest, b, msg);
    AfterKeeps(s, rest, n, msg.id);
    ScheduleMoves(s, rest);
  }

  lemma {:induction false} ScheduleMoves(s: Net, es: seq<Event>)
    requires Schedule(s, es)
    ensures forall e :: e in es ==> Moves(e)
    decreases |es|
  {
    if es != [] {
      ScheduleMoves(Step(s, es[0]), es[1..]);
    }
  }

  /** A message spreads in every run if and only if no connection leads from a
      node that accepts its owner to one that lists him twice. */
  lemma SpreadsExactly(nodes: map<Id, Node>, msg: Message)
    requires Start(nodes)
    ensures AlwaysSpreads(nodes, msg) <==> Passable(nodes, msg.owner)
  {
    if AlwaysSpreads(nodes, msg) {
      forall n, b | n in nodes && b in nodes && b in nodes[n].broadcasters && Doubled(nodes[b], msg.owner)
        ensures Doubled(nodes[n], msg.owner)
      {
        if !Doubled(nodes[n], msg.owner) {
          var es := StopsShort(nodes, msg, n, b);
          assert Path(nodes, [n, b]);
        }
      }
    }
    if Passable(nodes, msg.owner) {
      forall es, path | OneOwner(es, msg) && Path(nodes, path) && Quiet(Run(nodes, es))
                        && msg.id in Run(nodes, es).nodes[path[0]].sent
        ensures msg.id in Run(nodes, es).nodes[path[|path|-1]].sent
      {
        FloodCovers(nodes, es, path, msg.id);
      }
    }
  }

  /** Two nodes, each the broadcaster of the other, where b also lists a as a
      listener, as AddBroadcaster allows. */
  function Mixed(a: Id, b: Id): map<Id, Node> {
    map[a := Node([b], map[], true, {}), b := Node([a], map[a := {}], true, {})]
  }

  /** There b drops what a owns, and nothing else. */
  lemma MixedStops(a: Id, b: Id, msg: Message)
    requires a != b
    ensures Start(Mixed(a, b)) && !Disjoint(Mixed(a, b)[b])
    ensures AlwaysSpreads(Mixed(a, b), msg) <==> msg.owner != a
  {
    hide AlwaysSpreads;
    var nodes := Mixed(a, b);
    SpreadsExactly(nodes, msg);
    assert b in nodes[a].broadcasters && a in nodes[b].broadcasters;
    assert !Disjoint(nodes[b]) by {
      assert a in nodes[b].broadcasters && a in nodes[b].listeners;
    }
  }
}
