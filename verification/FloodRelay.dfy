/** What one node makes of one packet: who gets the message on, and what changes
    when peers connect and disconnect. */
module FloodRelay {
  import opened Sequences
  import opened Flooding

  /** Whom a message is for: its owner is in the scope, or the scope is empty. */
  predicate InScope(node: Node, id: Id, msg: Message) {
    id in node.listeners && (node.listeners[id] == {} || msg.owner in node.listeners[id])
  }

  lemma CopiesTo(to: seq<Id>, msg: Message, id: Id)
    ensures Packet(id, msg, msg.owner) in Copies(to, msg) <==> id in to
  {
    if id in to {
      var k :| 0 <= k < |to| && to[k] == id;
      assert Copies(to, msg)[k] == Packet(id, msg, msg.owner);
    }
  }

  /** The event posted, and the listeners that it is for. */
  lemma PostedJob(s: Net, i: nat, id: Id)
    requires i < |s.packets| && s.packets[i].to in s.nodes
    requires var p := s.packets[i];
      p.msg.id !in s.nodes[p.to].sent && !Doubled(s.nodes[p.to], p.msg.owner)
    ensures var p, r := s.packets[i], Step(s, Deliver(i));
      var node := s.nodes[p.to];
      && r.nodes == s.nodes && r.heard == s.heard && |r.jobs| == |s.jobs| + 1
      && var job := r.jobs[|s.jobs|].1;
         && r.jobs == s.jobs + [(p.to, job)] && job.msg == p.msg && Sends(node, job)
         && (id in Audience(node, job.msg, Skips(job)) <==>
               InScope(node, id, p.msg) && (p.msg.owner in node.listeners ==> id != p.ownerId))
  {
    LostExactly(s, i);
  }

  /** What handling it adds. */
  lemma Emits(s: Net, at: Id, job: Job, jobs: seq<(Id, Job)>, order: seq<Id>)
    requires s.jobs == jobs + [(at, job)] && Enabled(s, Process(|jobs|, order)) && Sends(s.nodes[at], job)
    ensures var node, r := s.nodes[at], Step(s, Process(|jobs|, order));
      && r.packets == s.packets + Copies(order + node.broadcasters, job.msg)
      && r.jobs == jobs && at in r.nodes && job.msg.id in r.nodes[at].sent
      && r.heard == s.heard + if node.hears then [(at, job.msg.id)] else []
  {
    hide Lists, Audience;
    assert Drop(s.jobs, |jobs|) == jobs;
  }

  lemma Ordered(order: seq<Id>, ids: set<Id>, id: Id)
    requires Lists(order, ids)
    ensures id in order <==> id in ids
  {
    assert id in order <==> id in Elements(order);
  }

  /** A packet arrives at a node that has not sent its message, and the event that
      it posts is handled. The copies go to every broadcaster and to each listener
      in scope; but if the owner of the message is himself a listener, not to the
      owner of the packet, unless he is a broadcaster. */
  lemma Relayed(s: Net, i: nat, order: seq<Id>, id: Id)
    requires i < |s.packets| && s.packets[i].to in s.nodes
    requires var p := s.packets[i];
      p.msg.id !in s.nodes[p.to].sent && !Doubled(s.nodes[p.to], p.msg.owner)
    requires Enabled(Step(s, Deliver(i)), Process(|s.jobs|, order))
    ensures var p, before := s.packets[i], Step(s, Deliver(i));
      var node, after := s.nodes[p.to], Step(before, Process(|s.jobs|, order));
      && before.packets <= after.packets && after.jobs == s.jobs && p.msg.id in after.nodes[p.to].sent
      && (Packet(id, p.msg, p.msg.owner) in after.packets[|before.packets|..] <==>
            || id in node.broadcasters
            || (InScope(node, id, p.msg) && (p.msg.owner in node.listeners ==> id != p.ownerId)))
      && (forall c :: c in after.packets[|before.packets|..] ==> c.msg == p.msg && c.ownerId == p.msg.owner)
      && after.heard == s.heard + if node.hears then [(p.to, p.msg.id)] else []
  {
    hide Lists, Audience, Skips, Sends, Step, InScope, Doubled;
    var p, before := s.packets[i], Step(s, Deliver(i));
    var node := s.nodes[p.to];
    PostedJob(s, i, id);
    var job := before.jobs[|s.jobs|].1;
    var out := Copies(order + node.broadcasters, p.msg);
    CopiesTo(order + node.broadcasters, p.msg, id);
    Ordered(order, Audience(node, job.msg, Skips(job)), id);
    Emits(before, p.to, job, s.jobs, order);
    assert (before.packets + out)[|before.packets|..] == out;
  }

  /** A message of the node's own, once its event is handled, goes to exactly the
      broadcasters if nobody listens; and otherwise to nobody. */
  lemma OwnSaid(s: Net, at: Id, msg: Message, order: seq<Id>, id: Id)
    requires at in s.nodes && msg.id !in s.nodes[at].sent
    requires Lists(order, set l | l in s.nodes[at].listeners && InScope(s.nodes[at], l, msg))
    ensures Enabled(Step(s, Say(at, msg)), Process(|s.jobs|, order))
    ensures var node, r := s.nodes[at], Step(Step(s, Say(at, msg)), Process(|s.jobs|, order));
      if node.listeners == map[] then
        && s.packets <= r.packets && msg.id in r.nodes[at].sent && r.jobs == s.jobs
        && (Packet(id, msg, msg.owner) in r.packets[|s.packets|..] <==> id in node.broadcasters)
      else r.packets == s.packets && r.nodes == s.nodes && r.jobs == s.jobs && r.heard == s.heard
  {
    hide Lists;
    var job, before, node := Outbound(msg, Self), Step(s, Say(at, msg)), s.nodes[at];
    assert Audience(node, msg, {}) == set l | l in node.listeners && InScope(node, l, msg);
    assert before.jobs == s.jobs + [(at, job)] && Drop(before.jobs, |s.jobs|) == s.jobs;
    if node.listeners == map[] {
      Ordered(order, Audience(node, msg, {}), id);
      CopiesTo(order + node.broadcasters, msg, id);
      var out := Copies(order + node.broadcasters, msg);
      assert (s.packets + out)[|s.packets|..] == out;
    } else {
      assert s.packets + [] == s.packets && s.nodes[at := node] == s.nodes;
    }
  }

  /** A packet of a message that the node has sent already posts nothing. */
  lemma SentIgnored(s: Net, i: nat)
    requires i < |s.packets| && s.packets[i].to in s.nodes && s.packets[i].msg.id in s.nodes[s.packets[i].to].sent
    ensures Step(s, Deliver(i)) == s.(packets := Drop(s.packets, i))
  {
    assert s.jobs + [] == s.jobs;
  }

  /** After a connection its peer is listed, after a disconnection it is not, and
      every other peer stays as it was. */
  lemma Listed(node: Node, id: Id, scope: set<Id>, x: Id)
    requires NoDup(node.broadcasters)
    ensures x in AddBroadcaster(node, id).broadcasters <==> x in node.broadcasters || (x == id && id != "")
    ensures x in RemoveBroadcaster(node, id).broadcasters <==> x in node.broadcasters && x != id
    ensures var r := AddListener(node, id, scope).listeners;
      && (x in r <==> x in node.listeners || (x == id && id !in node.broadcasters))
      && (x in r ==> r[x] == if x == id && id !in node.broadcasters then scope else node.listeners[x])
    ensures var r := RemoveListener(node, id).listeners;
      (x in r <==> x in node.listeners && x != id) && (x in r ==> r[x] == node.listeners[x])
  {
    RemoveIsWithout(node.broadcasters, id);
  }
}
