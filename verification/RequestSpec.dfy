/** The requesting half of a supplier queue on values: the request runner that
    can call itself through the callbacks it fires, the answers, the deletions,
    and what every such step keeps. */
module RequestSpec {
  import opened Sequences
  import SendSpec

  type PacketId = string

  const FILE_REQUEST_MAX_LENGTH: nat := 2

  datatype Answer = Received | Failed | Exist

  /** One invocation of a request's callback. */
  datatype Call = Call(serial: nat, answer: Answer)

  /** spoiled remembers that the last answer to this request was Data that
      could not be unserialized. */
  datatype FileToRequest = FileToRequest(serial: nat, id: PacketId, requested: bool, spoiled: bool)

  /** The environment, indexed by a logical clock: when is which file already
      among the local backups, when does the attenuated delay exceed one second,
      and when does a dictionary list two entries in reverse order. A run asks
      finitely often, so finite sets cover every environment. */
  datatype World = World(storedAt: set<(nat, PacketId)>, slowAt: set<nat>, flippedAt: set<nat>) {
    predicate Stored(clock: nat, id: PacketId) {
      (clock, id) in storedAt
    }

    predicate Slow(clock: nat) {
      clock in slowAt
    }

    predicate Flipped(clock: nat) {
      clock in flippedAt
    }
  }

  /** What requestTask refers to: nothing, a call that is still to come, or one
      that is running or has run. */
  datatype Task = NoTask | Scheduled | Fired

  /** The request loop: its task, whether its delay exceeds one second, how many
      calls of RequestTask are to come, and whether an exception is on its way. */
  datatype Loop = Loop(task: Task, slow: bool, calls: nat, raised: bool)

  /** accepted, fates and retrieves are histories: a request
      is known by its index in accepted, and retrieves lists the Retrieve
      packets sent. */
  datatype Requests = Requests(
    queue: seq<PacketId>,
    dict: map<PacketId, FileToRequest>,
    failedIds: seq<PacketId>,
    accepted: seq<PacketId>,
    fates: Fates,
    retrieves: seq<nat>,
    refused: seq<PacketId>,
    loop: Loop,
    clock: nat)

  const EMPTY := Requests([], map[], [], [], Fates([], {}, {}), [], [], Loop(NoTask, false, 0, false), 0)

  // ----- invariants

  ghost predicate Linked(q: seq<PacketId>, d: map<PacketId, FileToRequest>) {
    && NoDup(q)
    && (forall id :: id in q ==> id in d)
    && (forall id :: id in d ==> d[id].id == id)
    && (forall id :: id in d ==> (d[id].spoiled <==> id !in q))
  }

  /** What has been asked for and not answered sits at the front. */
  ghost predicate Window(q: seq<PacketId>, d: map<PacketId, FileToRequest>)
    requires forall id :: id in q ==> id in d
  {
    forall j :: 0 <= j < |q| && d[q[j]].requested ==> j < FILE_REQUEST_MAX_LENGTH
  }

  ghost predicate Placed(q: seq<PacketId>, d: map<PacketId, FileToRequest>) {
    Linked(q, d) && Window(q, d)
  }

  function Called(calls: seq<Call>): set<nat> {
    set c | c in calls :: c.serial
  }

  ghost predicate CalledOnce(calls: seq<Call>) {
    forall i, j :: 0 <= i < j < |calls| ==> calls[i].serial != calls[j].serial
  }

  /** What became of the requests that are no longer in the dictionary. */
  datatype Fates = Fates(calls: seq<Call>, deleted: set<nat>, replaced: set<nat>) {
    function Closed(): set<nat> {
      Called(calls) + deleted + replaced
    }

    ghost predicate Disjoint() {
      CalledOnce(calls) && Called(calls) !! deleted && Called(calls) !! replaced && deleted !! replaced
    }
  }

  /** Every accepted request is in the dictionary, called back, deleted by name
      or replaced; never two of these, and called back at most once. */
  ghost predicate Ledger(d: map<PacketId, FileToRequest>, accepted: seq<PacketId>, fates: Fates) {
    && (forall id :: id in d ==>
          d[id].serial < |accepted| && accepted[d[id].serial] == id && d[id].serial !in fates.Closed())
    && (forall n :: n in fates.Closed() ==> n < |accepted|)
    && (forall n :: 0 <= n < |accepted| && n !in fates.Closed() ==>
          accepted[n] in d && d[accepted[n]].serial == n)
    && fates.Disjoint()
  }

  /** A request is asked for at most once, and exactly if it says so. */
  ghost predicate Asked(d: map<PacketId, FileToRequest>, accepted: seq<PacketId>, retrieves: seq<nat>) {
    && NoDup(retrieves)
    && (forall n :: n in retrieves ==> n < |accepted|)
    && (forall id :: id in d ==> (d[id].requested <==> d[id].serial in retrieves))
  }

  ghost predicate Inv(s: Requests) {
    && Placed(s.queue, s.dict)
    && Ledger(s.dict, s.accepted, s.fates)
    && Asked(s.dict, s.accepted, s.retrieves)
  }

  // ----- the request runner

  datatype Exam = Exam(s: Requests, todo: seq<(PacketId, Answer)>)

  function Ids(todo: seq<(PacketId, Answer)>): set<PacketId> {
    if todo == [] then {} else {todo[0].0} + Ids(todo[1..])
  }

  lemma {:induction false} IdsSnoc(todo: seq<(PacketId, Answer)>, p: (PacketId, Answer))
    ensures Ids(todo + [p]) == Ids(todo) + {p.0}
  {
    if todo == [] {
      assert todo + [p] == [p];
    } else {
      assert (todo + [p])[1..] == todo[1..] + [p];
      IdsSnoc(todo[1..], p);
    }
  }

  /** What is due for a report: a failed packet, or a stored one not asked for. */
  predicate Due(s: Requests, w: World, id: PacketId)
    requires id in s.dict
  {
    id in s.failedIds || (!s.dict[id].requested && w.Stored(s.clock, id))
  }

  /** One of the first positions of the queue. */
  function ExamineOne(e: Exam, w: World, id: PacketId): (r: Exam)
    requires id in e.s.dict
    ensures r.s.queue == e.s.queue && r.s.dict.Keys == e.s.dict.Keys && Advances(e.s.dict, r.s.dict)
    ensures r.s.loop == e.s.loop && r.s.clock == e.s.clock
    ensures Ids(r.todo) == if Due(e.s, w, id) then Ids(e.todo) + {id} else Ids(e.todo)
    ensures !Due(e.s, w, id) ==> r.s.dict[id].requested
  {
    IdsSnoc(e.todo, (id, Failed));
    IdsSnoc(e.todo, (id, Exist));
    var s := e.s;
    if id in s.failedIds then
      Exam(s.(failedIds := RemoveFirst(s.failedIds, id)), e.todo + [(id, Failed)])
    else if s.dict[id].requested then e
    else if w.Stored(s.clock, id) then
      Exam(s, e.todo + [(id, Exist)])
    else
      Exam(Ask(s, id), e.todo)
  }

  function Ask(s: Requests, id: PacketId): Requests
    requires id in s.dict
  {
    s.(dict := s.dict[id := s.dict[id].(requested := true)], retrieves := s.retrieves + [s.dict[id].serial])
  }

  lemma SerialsDiffer(s: Requests, id: PacketId, x: PacketId)
    requires Ledger(s.dict, s.accepted, s.fates)
    requires id in s.dict && x in s.dict && x != id
    ensures s.dict[x].serial != s.dict[id].serial
  {
    assert s.accepted[s.dict[x].serial] == x;
  }

  lemma AskKeeps(s: Requests, j: nat)
    requires Inv(s) && j < |s.queue| && j < FILE_REQUEST_MAX_LENGTH && !s.dict[s.queue[j]].requested
    ensures Inv(Ask(s, s.queue[j]))
  {
    var id := s.queue[j];
    var r := Ask(s, id);
    assert Ledger(r.dict, r.accepted, r.fates) by {
    }
    assert Asked(r.dict, r.accepted, r.retrieves) by {
      forall x | x in r.dict && x != id
        ensures s.dict[x].serial != s.dict[id].serial
      {
        SerialsDiffer(s, id, x);
      }
      NoDupSnoc(s.retrieves, s.dict[id].serial);
    }
    assert Placed(r.queue, r.dict) by {
    }
  }

  lemma PlacedKnown(s: Requests)
    requires Inv(s)
    ensures forall id :: id in s.queue ==> id in s.dict
  {
  }

  /** The first n positions of the queue, n at most the window. */
  function Examine(s: Requests, w: World, n: nat): (e: Exam)
    requires n <= |s.queue| && forall id :: id in s.queue ==> id in s.dict
    ensures e.s.queue == s.queue && e.s.dict.Keys == s.dict.Keys && Advances(s.dict, e.s.dict)
    ensures e.s.loop == s.loop && e.s.clock == s.clock
    ensures Ids(e.todo) <= Elements(s.queue)
  {
    if n == 0 then Exam(s, [])
    else
      var e := Examine(s, w, n - 1);
      ExamineOne(e, w, s.queue[n-1])
  }

  lemma ExamineNext(s: Requests, w: World, i: nat)
    requires i <= |s.queue| && forall id :: id in s.queue ==> id in s.dict
    ensures i == 0 ==> Examine(s, w, i) == Exam(s, [])
    ensures i < |s.queue| ==> Examine(s, w, i + 1) == ExamineOne(Examine(s, w, i), w, s.queue[i])
  {
  }

  lemma {:induction false} ExamineKeeps(s: Requests, w: World, n: nat)
    requires Inv(s) && n <= |s.queue| && n <= FILE_REQUEST_MAX_LENGTH
    ensures Inv(Examine(s, w, n).s)
  {
    hide Ledger, Asked, ExamineOne;
    if n > 0 {
      ExamineKeeps(s, w, n - 1);
      ExamineOneKeeps(Examine(s, w, n - 1), w, n - 1);
    }
  }

  lemma ExamineOneKeeps(e: Exam, w: World, j: nat)
    requires Inv(e.s) && j < |e.s.queue| && j < FILE_REQUEST_MAX_LENGTH
    ensures var r := ExamineOne(e, w, e.s.queue[j]);
      Inv(r.s) && r.s.queue == e.s.queue
  {
    if !e.s.dict[e.s.queue[j]].requested {
      AskKeeps(e.s, j);
    }
  }

  /** OnDataRequestFailed up to its DoRequest: leave the queue and the
      dictionary, and be called back. */
  function Settle(s: Requests, id: PacketId, answer: Answer): Requests {
    var s1 := s.(queue := RemoveFirst(s.queue, id));
    if id in s.dict then Answered(s1, id, answer) else s1
  }

  /** The callback is called and the entry deleted. */
  function Answered(s: Requests, id: PacketId, answer: Answer): Requests
    requires id in s.dict
  {
    s.(
      dict := s.dict - {id},
      fates := s.fates.(calls := s.fates.calls + [Call(s.dict[id].serial, answer)]))
  }

  lemma CallOnce(fates: Fates, n: nat, answer: Answer)
    requires fates.Disjoint() && n !in fates.Closed()
    ensures var r := fates.(calls := fates.calls + [Call(n, answer)]);
      r.Disjoint() && r.Closed() == fates.Closed() + {n}
  {
    var r := fates.(calls := fates.calls + [Call(n, answer)]);
    assert Called(r.calls) == Called(fates.calls) + {n} by {
      assert r.calls[|fates.calls|] == Call(n, answer);
      assert forall c :: c in r.calls <==> c in fates.calls || c == Call(n, answer);
    }
    assert forall i :: 0 <= i < |fates.calls| ==> fates.calls[i].serial in Called(fates.calls);
  }

  /** Closing one request moves it from the dictionary to its fate. */
  lemma CloseLedger(d: map<PacketId, FileToRequest>, accepted: seq<PacketId>, fates: Fates, id: PacketId, r: Fates)
    requires Ledger(d, accepted, fates) && id in d
    requires r.Disjoint() && r.Closed() == fates.Closed() + {d[id].serial}
    ensures Ledger(d - {id}, accepted, r)
  {
    assert forall x :: x in d && x != id ==> accepted[d[x].serial] == x;
  }

  lemma {:induction false} WithoutWindow(q: seq<PacketId>, d: map<PacketId, FileToRequest>, drop: set<PacketId>)
    requires (forall id :: id in q ==> id in d) && Window(q, d)
    ensures Window(Without(q, drop), d)
    decreases |q|
  {
    if q != [] {
      var rest, last := q[..|q|-1], q[|q|-1];
      assert q == rest + [last];
      WithoutWindow(rest, d, drop);
      WithoutSnoc(rest, last, drop);
    }
  }

  lemma WithoutPlaced(q: seq<PacketId>, d: map<PacketId, FileToRequest>, drop: set<PacketId>)
    requires Placed(q, d)
    ensures Placed(Without(q, drop), d - drop)
  {
    WithoutWindow(q, d, drop);
    WithoutNoDup(q, drop);
  }

  lemma SettleKeeps(s: Requests, id: PacketId, answer: Answer)
    requires Inv(s)
    ensures Inv(Settle(s, id, answer))
    ensures |Settle(s, id, answer).queue| == if id in s.queue then |s.queue| - 1 else |s.queue|
  {
    var r := Settle(s, id, answer);
    WithoutPlaced(s.queue, s.dict, {id});
    RemoveIsWithout(s.queue, id);
    if id in s.dict {
      CallOnce(s.fates, s.dict[id].serial, answer);
      CloseLedger(s.dict, s.accepted, s.fates, id, r.fates);
    } else {
      assert s.dict - {id} == s.dict;
    }
  }

  /** RequestTask schedules its next run. */
  function Arm(s: Requests, w: World): Requests {
    s.(loop := s.loop.(task := Scheduled, slow := w.Slow(s.clock), calls := s.loop.calls + 1), clock := s.clock + 1)
  }

  function Cancelled(s: Requests): Requests {
    s.(loop := s.loop.(task := NoTask, calls := if s.loop.calls > 0 then s.loop.calls - 1 else 0))
  }

  /** To cancel a call that has fired raises an exception. */
  predicate Stalls(s: Requests) {
    s.loop.task == Fired && s.loop.slow
  }

  predicate Sane(s: Requests) {
    !s.loop.raised && !Stalls(s)
  }

  function Ordered(todo: seq<(PacketId, Answer)>, flip: bool): (r: seq<(PacketId, Answer)>)
    ensures |r| == |todo| && Ids(r) == Ids(todo)
  {
    if flip && |todo| == 2 then
      assert todo[1..] == [todo[1]] && [todo[1], todo[0]][1..] == [todo[0]];
      assert [todo[1]][1..] == [] && [todo[0]][1..] == [];
      [todo[1], todo[0]]
    else todo
  }

  /** Entries may go, but no request is taken back. */
  ghost predicate Advances(d: map<PacketId, FileToRequest>, e: map<PacketId, FileToRequest>) {
    e.Keys <= d.Keys && forall id :: id in e && d[id].requested ==> e[id].requested
  }

  function WindowSize(s: Requests): nat {
    if |s.queue| < FILE_REQUEST_MAX_LENGTH then |s.queue| else FILE_REQUEST_MAX_LENGTH
  }

  /** The first loop of RunRequest, and the entries it leaves to report. */
  function Open(s: Requests, w: World): (e: Exam)
    requires Inv(s)
    ensures Inv(e.s) && e.s.queue == s.queue && Advances(s.dict, e.s.dict) && e.s.loop == s.loop
    ensures Ids(e.todo) <= Elements(s.queue)
  {
    ExamineKeeps(s, w, WindowSize(s));
    var e := Examine(s, w, WindowSize(s));
    Exam(
      e.s.(failedIds := if e.s.queue == [] then [] else e.s.failedIds, clock := e.s.clock + 1),
      Ordered(e.todo, w.Flipped(s.clock)))
  }

  /** RunRequest. The runs nested in its callbacks see a shorter queue. */
  function RunRequest(s: Requests, w: World): (r: Requests)
    requires Inv(s)
    ensures Inv(r) && |r.queue| <= |s.queue| && Advances(s.dict, r.dict)
    ensures Sane(s) ==> Sane(r)
    decreases |s.queue|, 1, 0
  {
    Drain(Open(s, w).s, w, Open(s, w).todo, |s.queue|)
  }

  /** The second loop of RunRequest, which an exception ends. Until its first
      report the packet to report is still queued; after it the queue is shorter
      than at the start. */
  function Drain(s: Requests, w: World, todo: seq<(PacketId, Answer)>, bound: nat): (r: Requests)
    requires Inv(s) && |s.queue| <= bound
    requires todo != [] && |s.queue| == bound ==> todo[0].0 in s.queue
    ensures Inv(r) && |r.queue| <= |s.queue| && Advances(s.dict, r.dict)
    ensures Sane(s) ==> Sane(r)
    decreases bound, 0, |todo|
  {
    if todo == [] || s.loop.raised then s
    else Drain(Finish(s, w, todo[0].0, todo[0].1), w, todo[1..], bound)
  }

  /** OnDataRequestFailed, and OnDataReceived after an answer that counts. */
  function Finish(s: Requests, w: World, id: PacketId, why: Answer): (r: Requests)
    requires Inv(s)
    ensures Inv(r) && |r.queue| <= |s.queue| && Advances(s.dict, r.dict)
    ensures id in s.queue ==> |r.queue| < |s.queue|
    ensures Sane(s) ==> Sane(r)
    decreases if id in s.queue then |s.queue| - 1 else |s.queue|, 4, 0
  {
    SettleKeeps(s, id, why);
    DoRequest(Settle(s, id, why), w)
  }

  function DoRequest(s: Requests, w: World): (r: Requests)
    requires Inv(s)
    ensures Inv(r) && |r.queue| <= |s.queue| && Advances(s.dict, r.dict)
    ensures Sane(s) ==> Sane(r)
    decreases |s.queue|, 3, 0
  {
    match s.loop.task
    case NoTask => RequestTask(s, w)
    case Scheduled => if s.loop.slow then RequestTask(Cancelled(s), w) else s
    case Fired => if s.loop.slow then s.(loop := s.loop.(raised := true)) else s
  }

  function RequestTask(s: Requests, w: World): (r: Requests)
    requires Inv(s)
    ensures Inv(r) && |r.queue| <= |s.queue| && Advances(s.dict, r.dict)
    ensures Sane(s) ==> Sane(r)
    decreases |s.queue|, 2, 0
  {
    var r := RunRequest(s, w);
    if r.loop.raised then r else Arm(r, w)
  }

  // ----- what one run achieves

  lemma {:induction false} ExamineServes(s: Requests, w: World, n: nat, j: nat)
    requires j < n <= |s.queue| && forall id :: id in s.queue ==> id in s.dict
    ensures var e := Examine(s, w, n); e.s.dict[s.queue[j]].requested || s.queue[j] in Ids(e.todo)
  {
    hide ExamineOne, Ids;
    if j < n - 1 {
      ExamineServes(s, w, n - 1, j);
    }
  }

  lemma {:induction false} DrainServes(s: Requests, w: World, todo: seq<(PacketId, Answer)>, bound: nat, id: PacketId)
    requires Inv(s) && Sane(s) && |s.queue| <= bound
    requires todo != [] && |s.queue| == bound ==> todo[0].0 in s.queue
    requires id in Ids(todo)
    ensures id !in Drain(s, w, todo, bound).dict
    decreases |todo|
  {
    SettleKeeps(s, todo[0].0, todo[0].1);
    var s1 := Finish(s, w, todo[0].0, todo[0].1);
    if id in Ids(todo[1..]) {
      DrainServes(s1, w, todo[1..], bound, id);
    } else {
      assert id !in Settle(s, todo[0].0, todo[0].1).dict;
    }
  }

  lemma StalledDo(s: Requests, w: World)
    requires Inv(s) && Stalls(s)
    ensures DoRequest(s, w) == s.(loop := s.loop.(raised := true))
  {
  }

  lemma StalledFinish(s: Requests, w: World, id: PacketId, why: Answer)
    requires Inv(s) && Stalls(s)
    ensures Finish(s, w, id, why) == Settle(s, id, why).(loop := s.loop.(raised := true))
  {
    hide Inv, DoRequest;
    SettleKeeps(s, id, why);
    StalledDo(Settle(s, id, why), w);
  }

  lemma DrainOne(s: Requests, w: World, todo: seq<(PacketId, Answer)>, bound: nat)
    requires Inv(s) && |s.queue| <= bound && todo != [] && !s.loop.raised && todo[0].0 in s.queue
    requires Finish(s, w, todo[0].0, todo[0].1).loop.raised
    ensures Drain(s, w, todo, bound) == Finish(s, w, todo[0].0, todo[0].1)
  {
    hide Inv, Finish;
    assert Drain(Finish(s, w, todo[0].0, todo[0].1), w, todo[1..], bound) == Finish(s, w, todo[0].0, todo[0].1);
  }

  /** In a slow loop whose call has fired, the first report raises, and the
      others are not made. */
  lemma StalledRun(s: Requests, w: World)
    requires Inv(s) && Stalls(s) && !s.loop.raised
    ensures var e, r := Open(s, w), RunRequest(s, w);
      if e.todo == [] then r == e.s
      else r == Settle(e.s, e.todo[0].0, e.todo[0].1).(loop := s.loop.(raised := true))
  {
    hide Open, Inv, Finish, Settle;
    var e := Open(s, w);
    if e.todo != [] {
      StalledFinish(e.s, w, e.todo[0].0, e.todo[0].1);
      DrainOne(e.s, w, e.todo, |s.queue|);
    }
  }

  /** So of the requests only the first reported one is closed. */
  lemma StalledDict(s: Requests, w: World)
    requires Inv(s) && Stalls(s) && !s.loop.raised
    ensures var e, r := Open(s, w), RunRequest(s, w);
      r.dict == (if e.todo == [] then e.s.dict else e.s.dict - {e.todo[0].0}) && r.loop.raised == (e.todo != [])
  {
    hide Open, Inv, RunRequest;
    StalledRun(s, w);
    var e := Open(s, w);
    if e.todo != [] && e.todo[0].0 !in e.s.dict {
      assert e.s.dict - {e.todo[0].0} == e.s.dict;
    }
  }

  lemma RunFromOpen(s: Requests, w: World, id: PacketId)
    requires Inv(s) && id in RunRequest(s, w).dict
    ensures id in Open(s, w).s.dict && (Open(s, w).s.dict[id].requested ==> RunRequest(s, w).dict[id].requested)
  {
    hide Inv, Open, Drain;
  }

  /** A packet that is due is left as it is, and the others are not touched. */
  lemma ExamineOneSpares(e: Exam, w: World, id: PacketId, x: PacketId)
    requires id in e.s.dict && x in e.s.dict
    ensures var r := ExamineOne(e, w, id);
      && (Due(e.s, w, id) ==> r.s.dict[id] == e.s.dict[id])
      && (x != id ==> r.s.dict[x] == e.s.dict[x] && Due(r.s, w, x) == Due(e.s, w, x))
  {
    hide RemoveFirst, Ids;
  }

  /** The first n packets are examined, and the others not touched. */
  lemma {:induction false} ExamineExact(s: Requests, w: World, n: nat, j: nat)
    requires j < |s.queue| && n <= |s.queue| && NoDup(s.queue) && forall id :: id in s.queue ==> id in s.dict
    ensures var e, id := Examine(s, w, n), s.queue[j];
      && (id in Ids(e.todo) <==> j < n && Due(s, w, id))
      && (j >= n || Due(s, w, id) ==> e.s.dict[id] == s.dict[id])
      && (j >= n ==> Due(e.s, w, id) == Due(s, w, id))
    decreases n
  {
    hide ExamineOne, Ids, Advances, Due;
    if n > 0 {
      var e := Examine(s, w, n - 1);
      ExamineExact(s, w, n - 1, j);
      ExamineExact(s, w, n - 1, n - 1);
      ExamineOneSpares(e, w, s.queue[n-1], s.queue[j]);
    } else {
      NoIds();
    }
  }

  lemma NoIds()
    ensures Ids([]) == {}
  {
  }

  lemma OpenExact(s: Requests, w: World, j: nat)
    requires Inv(s) && j < WindowSize(s)
    ensures var e, id := Open(s, w), s.queue[j];
      && e.s.dict.Keys == s.dict.Keys && id in s.dict
      && (id in Ids(e.todo) <==> Due(s, w, id))
      && (Due(s, w, id) ==> e.s.dict[id] == s.dict[id])
      && (!Due(s, w, id) ==> e.s.dict[id].requested)
  {
    hide Due, ExamineOne, Examine, Ids;
    ExamineExact(s, w, WindowSize(s), j);
    ExamineServes(s, w, WindowSize(s), j);
  }

  lemma ExamineOneAdds(e: Exam, w: World, id: PacketId)
    requires id in e.s.dict
    ensures var todo := ExamineOne(e, w, id).todo;
      if Due(e.s, w, id) then |todo| == |e.todo| + 1 && todo[..|e.todo|] == e.todo && todo[|e.todo|].0 == id
      else todo == e.todo
  {
    hide Ids, RemoveFirst;
  }

  /** The report of this packet is the first that a run makes: it is due, and no
      other that is due in the window comes before it, or after it if the
      dictionary lists the two in reverse order. */
  predicate ReportedFirst(s: Requests, w: World, j: nat)
    requires j < WindowSize(s) && forall id :: id in s.queue ==> id in s.dict
  {
    && Due(s, w, s.queue[j])
    && forall i :: 0 <= i < WindowSize(s) && i != j && Due(s, w, s.queue[i]) ==> (j < i <==> !w.Flipped(s.clock))
  }

  lemma FirstReport(s: Requests, w: World, j: nat)
    requires Inv(s) && j < WindowSize(s)
    ensures (Open(s, w).todo != [] && Open(s, w).todo[0].0 == s.queue[j]) <==> ReportedFirst(s, w, j)
  {
    hide Placed, Ledger, Asked, Due, ExamineOne, Ids, Advances;
    PlacedKnown(s);
    QueueOnce(s);
    var n := WindowSize(s);
    var e := Exam(s, []);
    ExamineNext(s, w, 0);
    ExamineOneAdds(e, w, s.queue[0]);
    if n == 2 {
      ExamineNext(s, w, 1);
      ExamineExact(s, w, 1, 1);
      ExamineOneAdds(Examine(s, w, 1), w, s.queue[1]);
      assert s.queue[0] != s.queue[1];
    }
  }

  lemma QueueOnce(s: Requests)
    requires Inv(s)
    ensures NoDup(s.queue)
  {
  }

  /** A run calls back for a packet in the first two positions that is due, and
      closes its request, exactly if the loop does not stall or this report is
      the first. */
  lemma RunReports(s: Requests, w: World, j: nat)
    requires Inv(s) && !s.loop.raised && j < WindowSize(s) && Due(s, w, s.queue[j])
    ensures s.queue[j] !in RunRequest(s, w).dict <==> !Stalls(s) || ReportedFirst(s, w, j)
  {
    hide Placed, Ledger, Asked, Due, Open, ReportedFirst;
    OpenExact(s, w, j);
    FirstReport(s, w, j);
    NoIds();
    var e := Open(s, w);
    if Stalls(s) {
      StalledDict(s, w);
    } else {
      DrainServes(e.s, w, e.todo, |s.queue|, s.queue[j]);
    }
  }

  /** After a run, a packet that was in the first two positions has been asked
      for or has left, called back as failed or as already stored; unless the
      loop stalls on the report of another packet before it asked for this one. */
  lemma RunServes(s: Requests, w: World, j: nat)
    requires Inv(s) && !s.loop.raised && j < WindowSize(s)
    ensures var id, r := s.queue[j], RunRequest(s, w);
      (id !in r.dict || r.dict[id].requested) <==>
        !(Stalls(s) && Due(s, w, id) && !s.dict[id].requested && !ReportedFirst(s, w, j))
  {
    hide Inv, Due, Open, RunRequest, Ids, Advances, Stalls, ReportedFirst;
    var id := s.queue[j];
    OpenExact(s, w, j);
    NoIds();
    if id in RunRequest(s, w).dict {
      RunFromOpen(s, w, id);
    }
    if Due(s, w, id) {
      RunReports(s, w, j);
      if Stalls(s) {
        StalledDict(s, w);
      }
    }
  }

  // ----- the steps of the queue

  /** The new entry takes the place of one left over after invalid Data. */
  function Enqueue(s: Requests, id: PacketId): Requests {
    s.(
      queue := s.queue + [id],
      dict := s.dict[id := FileToRequest(|s.accepted|, id, false, false)],
      accepted := s.accepted + [id],
      fates := if id in s.dict then s.fates.(replaced := s.fates.replaced + {s.dict[id].serial}) else s.fates)
  }

  lemma EnqueueLedger(d: map<PacketId, FileToRequest>, accepted: seq<PacketId>, fates: Fates, id: PacketId)
    requires Ledger(d, accepted, fates) && id !in d
    ensures Ledger(d[id := FileToRequest(|accepted|, id, false, false)], accepted + [id], fates)
  {
  }

  lemma EnqueueKeeps(s: Requests, id: PacketId)
    requires Inv(s) && id !in s.queue
    ensures Inv(Enqueue(s, id))
  {
    var r := Enqueue(s, id);
    assert Placed(r.queue, r.dict) by {
    }
    assert Ledger(r.dict, r.accepted, r.fates) by {
      if id in s.dict {
        CloseLedger(s.dict, s.accepted, s.fates, id, r.fates);
        EnqueueLedger(s.dict - {id}, s.accepted, r.fates, id);
        assert (s.dict - {id})[id := r.dict[id]] == r.dict;
      } else {
        EnqueueLedger(s.dict, s.accepted, s.fates, id);
      }
    }
  }

  function RequestFile(s: Requests, w: World, id: PacketId): (r: Requests)
    requires Inv(s)
    ensures Inv(r)
  {
    if id in s.queue then s.(refused := s.refused + [id])
    else
      EnqueueKeeps(s, id);
      DoRequest(Enqueue(s, id), w)
  }

  /** Invalid Data takes the packet off the queue and nothing else. */
  function Spoil(s: Requests, id: PacketId): Requests {
    s.(
      queue := RemoveFirst(s.queue, id),
      dict := if id in s.dict then s.dict[id := s.dict[id].(spoiled := true)] else s.dict)
  }

  lemma SpoilPlaced(q: seq<PacketId>, d: map<PacketId, FileToRequest>, id: PacketId)
    requires Placed(q, d - {id}) && id in d && d[id].id == id
    ensures Placed(q, d[id := d[id].(spoiled := true)])
  {
    assert forall x :: x in d - {id} ==> d[x].id == x;
  }

  lemma SpoilLedger(d: map<PacketId, FileToRequest>, accepted: seq<PacketId>, fates: Fates, retrieves: seq<nat>,
      id: PacketId)
    requires Ledger(d, accepted, fates) && Asked(d, accepted, retrieves) && id in d
    ensures var e := d[id := d[id].(spoiled := true)]; Ledger(e, accepted, fates) && Asked(e, accepted, retrieves)
  {
  }

  lemma SpoilKeeps(s: Requests, id: PacketId)
    requires Inv(s)
    ensures Inv(Spoil(s, id))
  {
    var r := Spoil(s, id);
    WithoutPlaced(s.queue, s.dict, {id});
    RemoveIsWithout(s.queue, id);
    if id in s.dict {
      SpoilPlaced(r.queue, s.dict, id);
      SpoilLedger(s.dict, s.accepted, s.fates, s.retrieves, id);
    } else {
      assert s.dict - {id} == s.dict;
    }
  }

  datatype Response = ValidData | InvalidData | FailCommand

  function DataReceived(s: Requests, w: World, id: PacketId, response: Response): (r: Requests)
    requires Inv(s)
    ensures Inv(r)
  {
    if response == InvalidData then
      SpoilKeeps(s, id);
      Spoil(s, id)
    else
      Finish(s, w, id, if response == ValidData then Received else Failed)
  }

  function Outbox(s: Requests, w: World, id: PacketId, finished: bool): (r: Requests)
    requires Inv(s)
    ensures Inv(r)
  {
    if finished || id !in s.queue then s
    else DoRequest(s.(failedIds := s.failedIds + [id]), w)
  }

  /** The serial numbers of some dictionary entries. */
  function Serials(d: map<PacketId, FileToRequest>, ids: set<PacketId>): set<nat>
    requires ids <= d.Keys
  {
    set id | id in ids :: d[id].serial
  }

  function Remove(s: Requests, drop: set<PacketId>): Requests
    requires drop <= s.dict.Keys
  {
    s.(
      queue := Without(s.queue, drop),
      dict := s.dict - drop,
      fates := s.fates.(deleted := s.fates.deleted + Serials(s.dict, drop)))
  }

  lemma RemoveLedger(d: map<PacketId, FileToRequest>, accepted: seq<PacketId>, fates: Fates, drop: set<PacketId>)
    requires Ledger(d, accepted, fates) && drop <= d.Keys
    ensures Ledger(d - drop, accepted, fates.(deleted := fates.deleted + Serials(d, drop)))
  {
    var r := fates.(deleted := fates.deleted + Serials(d, drop));
    assert r.Closed() == fates.Closed() + Serials(d, drop);
    assert forall x :: x in drop ==> accepted[d[x].serial] == x;
    assert r.Disjoint();
  }

  /** Removing one more packet. */
  lemma RemoveStep(s: Requests, drop: set<PacketId>, id: PacketId)
    requires NoDup(s.queue) && drop <= s.dict.Keys && id in s.dict && id !in drop
    ensures var r := Remove(s, drop);
      id in r.dict && Remove(s, drop + {id}) == r.(
        queue := RemoveFirst(r.queue, id),
        dict := r.dict - {id},
        fates := r.fates.(deleted := r.fates.deleted + {r.dict[id].serial}))
  {
    hide Without, RemoveFirst;
    WithoutStep(s.queue, drop, id);
    assert s.dict - (drop + {id}) == (s.dict - drop) - {id};
    assert s.fates.deleted + Serials(s.dict, drop + {id})
        == s.fates.deleted + Serials(s.dict, drop) + {s.dict[id].serial};
  }

  lemma RemoveNone(s: Requests)
    ensures Remove(s, {}) == s
  {
    WithoutNothing(s.queue, {});
    assert s.dict - {} == s.dict;
    assert s.fates.deleted + Serials(s.dict, {}) == s.fates.deleted;
  }

  function DeleteRequests(s: Requests, name: string): (r: Requests)
    requires Inv(s)
    ensures Inv(r)
  {
    var drop := SendSpec.Matching(s.queue, name);
    RemoveLedger(s.dict, s.accepted, s.fates, drop);
    WithoutPlaced(s.queue, s.dict, drop);
    Remove(s, drop)
  }

  // ----- runs

  /** Tick is a scheduled call of RequestTask, the one that requestTask refers to
      or an older one; Kick is a scheduled DoRequest. */
  datatype Event =
    | Request(id: PacketId)
    | Tick(current: bool)
    | Kick
    | Reply(id: PacketId, response: Response)
    | Status(id: PacketId, finished: bool)
    | Delete(name: string)

  /** Some call of RequestTask is to come, and an older one only beside the one
      that requestTask refers to. */
  predicate ToCome(s: Requests, current: bool) {
    s.loop.calls > 0 && (current || s.loop.task != Scheduled || s.loop.calls > 1)
  }

  /** The reactor fires a call of RequestTask. */
  function Fire(s: Requests, current: bool): Requests
    requires s.loop.calls > 0
  {
    s.(loop := s.loop.(
      task := if current && s.loop.task == Scheduled then Fired else s.loop.task, calls := s.loop.calls - 1))
  }

  /** An exception ends in the reactor. */
  function Caught(s: Requests): Requests {
    s.(loop := s.loop.(raised := false))
  }

  function Handle(s: Requests, w: World, e: Event): (r: Requests)
    requires Inv(s)
    ensures Inv(r)
  {
    match e
    case Request(id) => RequestFile(s, w, id)
    case Tick(current) => if ToCome(s, current) then RequestTask(Fire(s, current), w) else s
    case Kick => DoRequest(s, w)
    case Reply(id, response) => DataReceived(s, w, id, response)
    case Status(id, finished) => Outbox(s, w, id, finished)
    case Delete(name) => DeleteRequests(s, name)
  }

  function Step(s: Requests, w: World, e: Event): (r: Requests)
    requires Inv(s)
    ensures Inv(r) && !r.loop.raised
  {
    Caught(Handle(s, w, e))
  }

  function Run(w: World, es: seq<Event>): (r: Requests)
    ensures Inv(r) && !r.loop.raised
  {
    if es == [] then EMPTY
    else Step(Run(w, es[..|es|-1]), w, es[|es|-1])
  }

  // ----- a loop that stalls

  lemma NothingDue(s: Requests, w: World)
    requires Inv(s)
    ensures Open(s, w).todo == [] <==> forall j :: 0 <= j < WindowSize(s) ==> !Due(s, w, s.queue[j])
  {
    hide Due, Ids, Open, Inv;
    PlacedKnown(s);
    forall j | 0 <= j < WindowSize(s)
      ensures s.queue[j] in Ids(Open(s, w).todo) <==> Due(s, w, s.queue[j])
    {
      OpenExact(s, w, j);
    }
    TodoFromWindow(s, w);
  }

  lemma TodoFromWindow(s: Requests, w: World)
    requires Inv(s)
    ensures Ids([]) == {}
    ensures Open(s, w).todo != [] ==>
      exists j :: 0 <= j < WindowSize(s) && s.queue[j] in Ids(Open(s, w).todo)
  {
    var todo := Open(s, w).todo;
    if todo != [] {
      assert todo[0].0 in Ids(todo);
      ExamineWindow(s, w, WindowSize(s), todo[0].0);
      var j :| 0 <= j < WindowSize(s) && s.queue[j] == todo[0].0;
    }
  }

  lemma {:induction false} ExamineWindow(s: Requests, w: World, n: nat, id: PacketId)
    requires n <= |s.queue| && (forall x :: x in s.queue ==> x in s.dict) && id in Ids(Examine(s, w, n).todo)
    ensures id in s.queue[..n]
    decreases n
  {
    hide ExamineOne, Ids, Advances;
    if n == 0 {
      NoIds();
    } else {
      assert s.queue[..n] == s.queue[..n-1] + [s.queue[n-1]];
      if id != s.queue[n-1] {
        ExamineWindow(s, w, n - 1, id);
      }
    }
  }

  /** The current call of a slow loop fires: the loop stalls exactly if something
      in the first two positions is due. */
  lemma TickStalls(s: Requests, w: World)
    requires Inv(s) && !s.loop.raised && s.loop.task == Scheduled && s.loop.slow && s.loop.calls > 0
    ensures Stalls(Step(s, w, Tick(true))) <==> exists j :: 0 <= j < WindowSize(s) && Due(s, w, s.queue[j])
    ensures Stalls(Step(s, w, Tick(true))) ==> Step(s, w, Tick(true)).loop.calls == s.loop.calls - 1
  {
    hide Placed, Ledger, Asked, Open, RunRequest;
    var f := Fire(s, true);
    PlacedKnown(s);
    StalledRun(f, w);
    NothingDue(f, w);
    assert forall j :: 0 <= j < WindowSize(s) ==> Due(f, w, f.queue[j]) == Due(s, w, s.queue[j]);
  }

  /** A stalled loop with no other call to come is dead: whatever happens, no
      packet is asked for any more. */
  lemma StalledStep(s: Requests, w: World, e: Event)
    requires Inv(s) && !s.loop.raised && Stalls(s) && s.loop.calls == 0
    ensures var r := Step(s, w, e); Stalls(r) && r.loop.calls == 0 && r.retrieves == s.retrieves
  {
    hide Inv, DoRequest, Finish;
    match e
    case Request(id) =>
      if id !in s.queue {
        EnqueueKeeps(s, id);
        StalledDo(Enqueue(s, id), w);
      }
    case Tick(current) =>
    case Kick =>
      StalledDo(s, w);
    case Reply(id, response) =>
      StalledFinish(s, w, id, if response == ValidData then Received else Failed);
    case Status(id, finished) =>
      FailedIdsFree(s, s.failedIds + [id]);
      StalledDo(s.(failedIds := s.failedIds + [id]), w);
    case Delete(name) =>
  }

  lemma FailedIdsFree(s: Requests, ids: seq<PacketId>)
    requires Inv(s)
    ensures Inv(s.(failedIds := ids))
  {
  }

  function StepAll(s: Requests, w: World, es: seq<Event>): (r: Requests)
    requires Inv(s)
    ensures Inv(r) && (!s.loop.raised ==> !r.loop.raised)
  {
    if es == [] then s else Step(StepAll(s, w, es[..|es|-1]), w, es[|es|-1])
  }

  lemma {:induction false} StalledForGood(s: Requests, w: World, es: seq<Event>)
    requires Inv(s) && !s.loop.raised && Stalls(s) && s.loop.calls == 0
    ensures var r := StepAll(s, w, es); Stalls(r) && r.loop.calls == 0 && r.retrieves == s.retrieves
    decreases |es|
  {
    hide Inv, Step;
    if es != [] {
      StalledForGood(s, w, es[..|es|-1]);
      StalledStep(StepAll(s, w, es[..|es|-1]), w, es[|es|-1]);
    }
  }

  lemma {:induction false} RunOn(w: World, es: seq<Event>, more: seq<Event>)
    ensures Run(w, es + more) == StepAll(Run(w, es), w, more)
    decreases |more|
  {
    hide Inv, Step;
    if more == [] {
      assert es + more == es;
    } else {
      var rest := more[..|more|-1];
      assert (es + more)[..|es + more| - 1] == es + rest;
      RunOn(w, es, rest);
    }
  }

  /** A run with nothing to report, and the next call scheduled. */
  lemma QuietTask(s: Requests, w: World)
    requires Inv(s) && !s.loop.raised && forall j :: 0 <= j < WindowSize(s) ==> !Due(s, w, s.queue[j])
    ensures RequestTask(s, w) == Arm(Open(s, w).s, w)
  {
    hide Inv, Open, Due;
    NothingDue(s, w);
    assert Drain(Open(s, w).s, w, [], |s.queue|) == Open(s, w).s;
  }

  /** The loop waits for one call, delayed by more than a second; what is in the
      window has been asked for, and id, behind it, has not. */
  ghost predicate Waiting(s: Requests, queue: seq<PacketId>, clock: nat) {
    && s.queue == queue && (forall id :: id in queue ==> id in s.dict) && s.dict.Keys == Elements(queue)
    && (forall j :: 0 <= j < |queue| ==> (s.dict[queue[j]].requested <==> j < FILE_REQUEST_MAX_LENGTH))
    && s.failedIds == [] && s.clock == clock && s.loop == Loop(Scheduled, true, 1, false)
  }

  /** A run asks for what the window holds and touches nothing behind it. */
  lemma QuietWaits(s: Requests, w: World)
    requires Inv(s) && s.failedIds == [] && !s.loop.raised && s.loop.calls == 0 && s.dict.Keys == Elements(s.queue)
    requires forall j :: 0 <= j < |s.queue| ==> s.queue[j] in s.dict
    requires forall j :: FILE_REQUEST_MAX_LENGTH <= j < |s.queue| ==> !s.dict[s.queue[j]].requested
    requires forall j :: 0 <= j < WindowSize(s) ==> !Due(s, w, s.queue[j])
    requires w.Slow(s.clock + 1)
    ensures Waiting(RequestTask(s, w), s.queue, s.clock + 2)
  {
    hide Placed, Ledger, Asked, Due, Examine, Ids;
    QuietTask(s, w);
    QueueOnce(s);
    PlacedKnown(s);
    forall j | 0 <= j < |s.queue|
      ensures Open(s, w).s.dict[s.queue[j]].requested <==> j < FILE_REQUEST_MAX_LENGTH
    {
      if j < WindowSize(s) {
        OpenExact(s, w, j);
      } else {
        ExamineExact(s, w, WindowSize(s), j);
      }
    }
    QuietFailed(s, w, WindowSize(s));
  }

  lemma {:induction false} QuietFailed(s: Requests, w: World, n: nat)
    requires n <= |s.queue| && s.failedIds == [] && forall id :: id in s.queue ==> id in s.dict
    ensures Examine(s, w, n).s.failedIds == []
  {
    hide Ids, Due, Advances;
    if n > 0 {
      QuietFailed(s, w, n - 1);
    }
  }

  /** A new request to a waiting loop, or to one that has not begun. */
  lemma RequestWaits(s: Requests, w: World, queue: seq<PacketId>, clock: nat, id: PacketId)
    requires Inv(s) && id !in queue && (Waiting(s, queue, clock) || (s == EMPTY && queue == [] && clock == 0))
    requires w.Slow(clock + 1) && forall x :: x in queue + [id] ==> !w.Stored(clock, x)
    ensures Waiting(Step(s, w, Request(id)), queue + [id], clock + 2)
  {
    hide Placed, Ledger, Asked, RequestTask;
    EnqueueKeeps(s, id);
    var s1 := Enqueue(s, id);
    var s2 := if s == EMPTY then s1 else Cancelled(s1);
    assert s1.dict.Keys == Elements(queue + [id]);
    forall x | x in s2.queue
      ensures !Due(s2, w, x)
    {
      assert !w.Stored(clock, x);
    }
    QuietWaits(s2, w);
  }

  /** A run that stalls. Every call is delayed by more than a second; c is stored
      by the time that invalid Data for a, which restarts nothing, brings it into
      the window. The call that is due then stalls, and whatever comes after,
      no Retrieve packet is sent any more. */
  lemma StallReached(more: seq<Event>)
    ensures var w := World({(6, "c")}, {1, 3, 5}, {});
      var es := [Request("a"), Request("b"), Request("c"), Reply("a", InvalidData), Tick(true)];
      && Stalls(Run(w, es)) && Run(w, es).loop.calls == 0
      && Stalls(Run(w, es + more)) && Run(w, es + more).retrieves == Run(w, es).retrieves
  {
    hide Inv, Step, StepAll, Due, Stalls;
    var w := World({(6, "c")}, {1, 3, 5}, {});
    var es := [Request("a"), Request("b"), Request("c"), Reply("a", InvalidData), Tick(true)];
    var waiting := WindowFills(w);
    SpoiledDue(waiting, w);
    var s := Step(waiting, w, Reply("a", InvalidData));
    TickStalls(s, w);
    assert Due(s, w, s.queue[1]);
    RunFive(w, es);
    StalledForGood(Run(w, es), w, more);
    RunOn(w, es, more);
  }

  /** The first three requests of that run. */
  lemma WindowFills(w: World) returns (s: Requests)
    requires w == World({(6, "c")}, {1, 3, 5}, {})
    ensures s == Step(Step(Step(EMPTY, w, Request("a")), w, Request("b")), w, Request("c"))
    ensures Waiting(s, ["a", "b", "c"], 6)
  {
    hide Inv, Step, Waiting;
    assert Run(w, []) == EMPTY;
    RequestWaits(EMPTY, w, [], 0, "a");
    s := Step(EMPTY, w, Request("a"));
    assert [] + ["a"] == ["a"];
    RequestWaits(s, w, ["a"], 2, "b");
    s := Step(s, w, Request("b"));
    assert ["a"] + ["b"] == ["a", "b"];
    RequestWaits(s, w, ["a", "b"], 4, "c");
    s := Step(s, w, Request("c"));
    assert ["a", "b"] + ["c"] == ["a", "b", "c"];
  }

  lemma SpoiledDue(s: Requests, w: World)
    requires Inv(s) && Waiting(s, ["a", "b", "c"], 6) && w.Stored(6, "c")
    ensures var r := Step(s, w, Reply("a", InvalidData));
      && r.loop == s.loop && WindowSize(r) == 2 && r.queue == ["b", "c"] && "c" in r.dict && Due(r, w, "c")
  {
    SpoilKeeps(s, "a");
  }

  lemma RunFive(w: World, es: seq<Event>)
    requires |es| == 5
    ensures Run(w, es) == Step(Step(Step(Step(Step(EMPTY, w, es[0]), w, es[1]), w, es[2]), w, es[3]), w, es[4])
  {
    hide Inv, Step;
    assert es[..4][..3] == es[..3] && es[..3][..2] == es[..2] && es[..2][..1] == es[..1] && es[..1][..0] == [];
    assert Run(w, []) == EMPTY;
    assert Run(w, es[..1]) == Step(EMPTY, w, es[0]);
    assert Run(w, es[..2]) == Step(Run(w, es[..1]), w, es[1]);
    assert Run(w, es[..3]) == Step(Run(w, es[..2]), w, es[2]);
    assert Run(w, es[..4]) == Step(Run(w, es[..3]), w, es[3]);
  }

  // ----- every reachable state

  /** Requested and still queued, that is, not answered. */
  ghost function Outstanding(s: Requests): set<PacketId>
    requires Inv(s)
  {
    set id | id in s.queue && s.dict[id].requested
  }

  /** In every reachable state the outstanding requests sit in the first two
      positions of the queue, so there are at most two. */
  lemma RequestWindow(w: World, es: seq<Event>)
    ensures var s := Run(w, es);
      && |Outstanding(s)| <= 2
      && forall j :: 2 <= j < |s.queue| ==> s.queue[j] !in Outstanding(s)
  {
    var s := Run(w, es);
    var head := if |s.queue| < FILE_REQUEST_MAX_LENGTH then s.queue else s.queue[..FILE_REQUEST_MAX_LENGTH];
    SubsetBound(Outstanding(s), head);
  }

  /** The possible places of an accepted request. */
  ghost predicate Queued(s: Requests, n: nat) {
    exists id :: id in s.queue && id in s.dict && s.dict[id].serial == n
  }

  ghost predicate LeftOver(s: Requests, n: nat) {
    exists id :: id in s.dict && id !in s.queue && s.dict[id].spoiled && s.dict[id].serial == n
  }

  function Tally(b: bool): nat {
    if b then 1 else 0
  }

  /** In every reachable state an accepted request is in exactly one of five
      places: queued, left over after invalid Data, called back, deleted by
      name, or replaced; its callback ran at most once and its Retrieve packet
      was sent at most once. The queue has no duplicates and lists known IDs. */
  lemma RequestConservation(w: World, es: seq<Event>, n: nat)
    requires n < |Run(w, es).accepted|
    ensures var s := Run(w, es);
      && NoDup(s.queue) && (forall id :: id in s.queue ==> id in s.dict)
      && (forall id :: id in s.dict ==> (id !in s.queue <==> s.dict[id].spoiled))
      && Tally(Queued(s, n)) + Tally(LeftOver(s, n)) + Tally(n in Called(s.fates.calls))
         + Tally(n in s.fates.deleted) + Tally(n in s.fates.replaced) == 1
      && (forall i, j :: 0 <= i < j < |s.fates.calls| ==> s.fates.calls[i].serial != s.fates.calls[j].serial)
      && NoDup(s.retrieves)
  {
    var s := Run(w, es);
    assert Linked(s.queue, s.dict);
    if n !in s.fates.Closed() {
      var id := s.accepted[n];
      assert id in s.dict && s.dict[id].serial == n;
      forall x | x in s.dict && s.dict[x].serial == n
        ensures x == id
      {
        assert s.accepted[s.dict[x].serial] == x;
      }
    }
  }
}
