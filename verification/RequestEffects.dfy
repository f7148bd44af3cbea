/** What each event does to the requesting half of a supplier queue: which answer
    a callback gets and for which reason, and when the request loop lives on. */
module RequestEffects {
  import opened Sequences
  import opened RequestSpec

  // ----- why a request is called back

  ghost predicate CallReason(w: World, es: seq<Event>, id: PacketId, answer: Answer) {
    match answer
    case Received => Reply(id, ValidData) in es
    case Failed => Reply(id, FailCommand) in es || Status(id, false) in es
    case Exist => exists clock :: w.Stored(clock, id)
  }

  ghost predicate Justified(w: World, es: seq<Event>, s: Requests) {
    && (forall c :: c in s.fates.calls ==>
          c.serial < |s.accepted| && CallReason(w, es, s.accepted[c.serial], c.answer))
    && forall id :: id in s.failedIds ==> Status(id, false) in es
  }

  ghost predicate Reasons(w: World, es: seq<Event>, todo: seq<(PacketId, Answer)>) {
    forall p :: p in todo ==> CallReason(w, es, p.0, p.1)
  }

  /** Callbacks made stay made, and nothing new is accepted, refused or deleted. */
  ghost predicate Grows(s: Requests, r: Requests) {
    && s.fates.calls <= r.fates.calls && r.fates.deleted == s.fates.deleted && r.fates.replaced == s.fates.replaced
    && r.accepted == s.accepted && r.refused == s.refused && s.retrieves <= r.retrieves
  }

  lemma ExamineOneReasons(e: Exam, w: World, es: seq<Event>, id: PacketId)
    requires id in e.s.dict && Justified(w, es, e.s) && Reasons(w, es, e.todo)
    ensures var r := ExamineOne(e, w, id); Justified(w, es, r.s) && Reasons(w, es, r.todo)
  {
    hide Ids, Advances;
  }

  lemma ExamineOneGrows(e: Exam, w: World, id: PacketId)
    requires id in e.s.dict
    ensures var r := ExamineOne(e, w, id); Grows(e.s, r.s) && r.s.fates == e.s.fates
  {
    hide Ids, Advances, RemoveFirst;
  }

  lemma {:induction false} ExamineReasons(s: Requests, w: World, es: seq<Event>, n: nat)
    requires n <= |s.queue| && forall id :: id in s.queue ==> id in s.dict
    ensures var e := Examine(s, w, n);
      && Grows(s, e.s) && e.s.fates == s.fates
      && (Justified(w, es, s) ==> Justified(w, es, e.s) && Reasons(w, es, e.todo))
  {
    hide Ids, Advances, ExamineOne, Justified;
    if n > 0 {
      var e := Examine(s, w, n - 1);
      ExamineReasons(s, w, es, n - 1);
      ExamineOneGrows(e, w, s.queue[n-1]);
      if Justified(w, es, s) {
        ExamineOneReasons(e, w, es, s.queue[n-1]);
      }
    }
  }

  lemma OpenReasons(s: Requests, w: World, es: seq<Event>)
    requires Inv(s)
    ensures var e := Open(s, w);
      Grows(s, e.s) && (Justified(w, es, s) ==> Justified(w, es, e.s) && Reasons(w, es, e.todo))
  {
    hide Placed, Ledger, Asked, Examine, Ids, Advances, CallReason;
    PlacedKnown(s);
    ExamineReasons(s, w, es, WindowSize(s));
  }

  lemma SettleReasons(s: Requests, w: World, es: seq<Event>, id: PacketId, why: Answer)
    requires Inv(s)
    ensures var r := Settle(s, id, why);
      Grows(s, r) && (Justified(w, es, s) && CallReason(w, es, id, why) ==> Justified(w, es, r))
    ensures id in s.dict ==> Settle(s, id, why).fates.calls == s.fates.calls + [Call(s.dict[id].serial, why)]
  {
    hide Placed, Asked, CallReason, RemoveFirst;
    if id in s.dict {
      assert s.accepted[s.dict[id].serial] == id;
    }
  }

  lemma GrowsTwice(a: Requests, b: Requests, c: Requests)
    requires Grows(a, b) && Grows(b, c)
    ensures Grows(a, c)
  {
  }

  lemma GrowsSelf(s: Requests)
    ensures Grows(s, s)
  {
  }

  lemma {:induction false} RunReasons(s: Requests, w: World, es: seq<Event>)
    requires Inv(s)
    ensures Grows(s, RunRequest(s, w)) && (Justified(w, es, s) ==> Justified(w, es, RunRequest(s, w)))
    decreases |s.queue|, 1, 0
  {
    hide Inv, Open, Drain, Justified, Grows, Reasons;
    var e := Open(s, w);
    OpenReasons(s, w, es);
    DrainReasons(e.s, w, es, e.todo, |s.queue|);
    GrowsTwice(s, e.s, RunRequest(s, w));
  }

  lemma {:induction false} DrainReasons(s: Requests, w: World, es: seq<Event>, todo: seq<(PacketId, Answer)>,
      bound: nat)
    requires Inv(s) && |s.queue| <= bound && (todo != [] && |s.queue| == bound ==> todo[0].0 in s.queue)
    ensures var r := Drain(s, w, todo, bound);
      Grows(s, r) && (Justified(w, es, s) && Reasons(w, es, todo) ==> Justified(w, es, r))
    decreases bound, 0, |todo|
  {
    hide Inv, Finish, Justified, Grows, CallReason;
    GrowsSelf(s);
    if todo != [] && !s.loop.raised {
      var r := Finish(s, w, todo[0].0, todo[0].1);
      FinishReasons(s, w, es, todo[0].0, todo[0].1);
      DrainReasons(r, w, es, todo[1..], bound);
      GrowsTwice(s, r, Drain(s, w, todo, bound));
    }
  }

  lemma {:induction false} FinishReasons(s: Requests, w: World, es: seq<Event>, id: PacketId, why: Answer)
    requires Inv(s)
    ensures var r := Finish(s, w, id, why);
      && Grows(s, r) && (Justified(w, es, s) && CallReason(w, es, id, why) ==> Justified(w, es, r))
      && (id in s.dict ==> s.fates.calls + [Call(s.dict[id].serial, why)] <= r.fates.calls)
    decreases if id in s.queue then |s.queue| - 1 else |s.queue|, 4, 0
  {
    hide Inv, DoRequest, Justified, CallReason;
    var s1 := Settle(s, id, why);
    SettleKeeps(s, id, why);
    SettleReasons(s, w, es, id, why);
    DoRequestReasons(s1, w, es);
    GrowsTwice(s, s1, DoRequest(s1, w));
  }

  lemma {:induction false} DoRequestReasons(s: Requests, w: World, es: seq<Event>)
    requires Inv(s)
    ensures Grows(s, DoRequest(s, w)) && (Justified(w, es, s) ==> Justified(w, es, DoRequest(s, w)))
    decreases |s.queue|, 3, 0
  {
    hide Placed, Ledger, Asked, RequestTask, CallReason;
    if s.loop.task.NoTask? {
      RequestTaskReasons(s, w, es);
    } else if s.loop.task.Scheduled? && s.loop.slow {
      RequestTaskReasons(Cancelled(s), w, es);
    }
  }

  lemma {:induction false} RequestTaskReasons(s: Requests, w: World, es: seq<Event>)
    requires Inv(s)
    ensures Grows(s, RequestTask(s, w)) && (Justified(w, es, s) ==> Justified(w, es, RequestTask(s, w)))
    decreases |s.queue|, 2, 0
  {
    hide Placed, Ledger, Asked, RunRequest, CallReason;
    RunReasons(s, w, es);
  }

  // ----- what an event does at once

  /** Data that can be read is called back as received, a Fail packet as failed,
      whatever runs the answer starts. Other Data calls nobody back and asks for
      nothing: it takes the packet off the queue. */
  lemma ReplyTold(s: Requests, w: World, id: PacketId, response: Response)
    requires Inv(s) && id in s.dict
    ensures var r, n := Step(s, w, Reply(id, response)), s.dict[id].serial;
      match response
      case ValidData => s.fates.calls + [Call(n, Received)] <= r.fates.calls
      case FailCommand => s.fates.calls + [Call(n, Failed)] <= r.fates.calls
      case InvalidData =>
        && r.fates.calls == s.fates.calls && r.retrieves == s.retrieves
        && r.queue == Without(s.queue, {id}) && id in r.dict && r.dict[id].serial == n
  {
    hide Placed, Ledger, Asked, Finish;
    match response
    case ValidData => FinishReasons(s, w, [], id, Received);
    case FailCommand => FinishReasons(s, w, [], id, Failed);
    case InvalidData =>
      SpoilKeeps(s, id);
      QueueOnce(s);
      RemoveIsWithout(s.queue, id);
  }

  /** A queued packet is refused; any other is accepted, and in the dictionary
      until it is called back. */
  lemma RequestTold(s: Requests, w: World, id: PacketId)
    requires Inv(s)
    ensures var r := Step(s, w, Request(id));
      if id in s.queue then
        && r.refused == s.refused + [id] && r.accepted == s.accepted && r.queue == s.queue && r.dict == s.dict
        && r.fates == s.fates
      else
        && r.refused == s.refused && r.accepted == s.accepted + [id]
        && (|s.accepted| in Called(r.fates.calls) || (id in r.dict && r.dict[id].serial == |s.accepted|))
  {
    hide Placed, Asked, DoRequest;
    if id !in s.queue {
      var s1 := Enqueue(s, id);
      EnqueueKeeps(s, id);
      DoRequestReasons(s1, w, []);
      var r := Step(s, w, Request(id));
      assert Ledger(r.dict, r.accepted, r.fates);
      NotClosed(s1, |s.accepted|);
    }
  }

  /** A request just accepted is neither deleted nor replaced. */
  lemma NotClosed(s: Requests, n: nat)
    requires Inv(s) && n < |s.accepted| && s.accepted[n] in s.dict && s.dict[s.accepted[n]].serial == n
    ensures n !in s.fates.deleted && n !in s.fates.replaced
  {
  }

  /** Deletion takes out exactly the queued packets that contain the name, and
      calls nobody back. */
  lemma DeleteTold(s: Requests, w: World, name: string)
    requires Inv(s)
    ensures var r := Step(s, w, Delete(name));
      && r.fates.calls == s.fates.calls && r.accepted == s.accepted && r.retrieves == s.retrieves
      && r.queue == Without(s.queue, set id | id in s.queue && Occurs(id, name))
      && (forall id :: id in s.queue && id in s.dict && Occurs(id, name) ==>
            id !in r.dict && s.dict[id].serial in r.fates.deleted)
      && forall id :: id in s.dict && !(id in s.queue && Occurs(id, name)) ==> id in r.dict && r.dict[id] == s.dict[id]
  {
    hide Placed, Ledger, Asked, Occurs;
    assert SendSpec.Matching(s.queue, name) == set id | id in s.queue && Occurs(id, name) by {
      Mentioned(s.queue, name);
    }
  }

  lemma Mentioned(q: seq<PacketId>, name: string)
    ensures SendSpec.Matching(q, name) == set id | id in q && Occurs(id, name)
  {
    hide Occurs;
  }

  /** The transport could not send a queued packet: in a fast loop that is noted;
      in a slow one, or before it begins, a run reports what is in the window at
      once; in a stalled one it is noted, and nothing else happens. */
  lemma StatusTold(s: Requests, w: World, id: PacketId, finished: bool)
    requires Inv(s) && !s.loop.raised && (s.loop.task == Fired ==> s.loop.slow)
    ensures var r := Step(s, w, Status(id, finished));
      && (finished || id !in s.queue ==> r == s)
      && (!finished && id in s.queue && ((s.loop.task == Scheduled && !s.loop.slow) || Stalls(s)) ==>
            r == s.(failedIds := s.failedIds + [id]))
      && (!finished && !Stalls(s) && !(s.loop.task == Scheduled && !s.loop.slow) ==>
            forall j :: 0 <= j < WindowSize(s) && s.queue[j] == id ==> id !in r.dict)
  {
    hide Placed, Ledger, Asked, RequestTask;
    var s1 := s.(failedIds := s.failedIds + [id]);
    PlacedKnown(s);
    if !finished && !Stalls(s) && !(s.loop.task == Scheduled && !s.loop.slow) {
      forall j | 0 <= j < WindowSize(s) && s.queue[j] == id
        ensures id !in Step(s, w, Status(id, finished)).dict
      {
        var s2 := if s.loop.task == Scheduled then Cancelled(s1) else s1;
        RunCloses(s2, w, j);
      }
    }
  }

  lemma RunCloses(s: Requests, w: World, j: nat)
    requires Inv(s) && Sane(s) && j < WindowSize(s) && s.queue[j] in s.failedIds
    ensures s.queue[j] !in RequestTask(s, w).dict
  {
    hide Placed, Ledger, Asked, RunRequest;
    PlacedKnown(s);
    RunReports(s, w, j);
  }

  /** Unless the loop is fast or stalled, it runs as soon as it is kicked: what is
      in the window is then closed if it is due, and asked for if it is not. */
  lemma KickRuns(s: Requests, w: World, j: nat)
    requires Inv(s) && !s.loop.raised && s.loop.task != Fired && (s.loop.task == Scheduled ==> s.loop.slow)
    requires j < WindowSize(s) && s.queue[j] in s.dict
    ensures var id, r := s.queue[j], Step(s, w, Kick);
      && (Due(s, w, id) ==> id !in r.dict)
      && (!Due(s, w, id) ==> id !in r.dict || r.dict[id].requested)
      && r.loop.task == Scheduled
  {
    hide Placed, Ledger, Asked, RunRequest;
    var s1 := if s.loop.task == Scheduled then Cancelled(s) else s;
    assert Sane(s1) && Inv(s1) && WindowSize(s1) == WindowSize(s);
    assert Due(s1, w, s.queue[j]) == Due(s, w, s.queue[j]);
    assert DoRequest(s, w) == RequestTask(s1, w);
    RunServes(s1, w, j);
    if Due(s1, w, s.queue[j]) {
      RunReports(s1, w, j);
    }
    SaneArms(s1, w);
  }

  lemma SaneArms(s: Requests, w: World)
    requires Inv(s) && Sane(s)
    ensures RequestTask(s, w) == Arm(RunRequest(s, w), w)
  {
    hide Placed, Ledger, Asked;
  }

  /** A run asks for a packet in the window that has not been asked for, unless its
      file is stored or the transport reported it. */
  lemma WindowAsked(s: Requests, w: World, j: nat)
    requires Inv(s) && j < WindowSize(s) && s.queue[j] in s.dict
    requires s.queue[j] !in s.failedIds && !s.dict[s.queue[j]].requested && !w.Stored(s.clock, s.queue[j])
    ensures s.dict[s.queue[j]].serial in RunRequest(s, w).retrieves
  {
    hide Placed, Open, Drain;
    var id, e := s.queue[j], Open(s, w);
    OpenExact(s, w, j);
    OpenReasons(s, w, []);
    OpenSerials(s, w, id);
    DrainReasons(e.s, w, [], e.todo, |s.queue|);
  }

  lemma OpenSerials(s: Requests, w: World, id: PacketId)
    requires Inv(s) && id in s.dict
    ensures var d := Open(s, w).s.dict; id in d ==> d[id].serial == s.dict[id].serial
  {
    hide Placed, Asked, Open;
    OpenReasons(s, w, []);
    var r := Open(s, w).s;
    assert Ledger(r.dict, r.accepted, r.fates) && r.accepted == s.accepted;
    OpenFates(s, w);
  }

  lemma OpenFates(s: Requests, w: World)
    requires Inv(s)
    ensures Open(s, w).s.fates == s.fates
  {
    hide Placed, Ledger, Asked, Examine, Ids, Advances;
    PlacedKnown(s);
    ExamineReasons(s, w, [], WindowSize(s));
  }

  /** The first packet that a run reports is called back with its reason: as failed
      if the transport reported it, or as existing. */
  lemma FirstAnswer(s: Requests, w: World, j: nat)
    requires Inv(s) && !s.loop.raised && j < WindowSize(s) && (forall id :: id in s.queue ==> id in s.dict)
    requires ReportedFirst(s, w, j)
    ensures var id := s.queue[j];
      s.fates.calls + [Call(s.dict[id].serial, if id in s.failedIds then Failed else Exist)]
        <= RunRequest(s, w).fates.calls
  {
    hide Placed, Ledger, Asked, Open, Finish, ReportedFirst;
    var e, id := Open(s, w), s.queue[j];
    FirstReport(s, w, j);
    OpenExact(s, w, j);
    OpenFates(s, w);
    OpenSerials(s, w, id);
    TodoAnswer(s, w);
    FinishReasons(e.s, w, [], id, e.todo[0].1);
    var r := Finish(e.s, w, id, e.todo[0].1);
    DrainReasons(r, w, [], e.todo[1..], |s.queue|);
  }

  lemma TodoAnswer(s: Requests, w: World)
    requires Inv(s)
    ensures forall p :: p in Open(s, w).todo ==> p.1 == if p.0 in s.failedIds then Failed else Exist
  {
    hide Placed, Ledger, Asked, Examine, Ids, Advances;
    PlacedKnown(s);
    QueueOnce(s);
    ExamineAnswers(s, w, WindowSize(s));
  }

  lemma {:induction false} ExamineAnswers(s: Requests, w: World, n: nat)
    requires n <= |s.queue| && NoDup(s.queue) && forall id :: id in s.queue ==> id in s.dict
    ensures var e := Examine(s, w, n);
      && (forall p :: p in e.todo ==> p.1 == if p.0 in s.failedIds then Failed else Exist)
      && forall j :: n <= j < |s.queue| ==> (s.queue[j] in e.s.failedIds <==> s.queue[j] in s.failedIds)
    decreases n
  {
    hide Ids, Advances, ExamineOne;
    if n > 0 {
      ExamineAnswers(s, w, n - 1);
      ExamineOneAnswer(Examine(s, w, n - 1), w, s.queue[n-1]);
      assert forall j :: n <= j < |s.queue| ==> s.queue[j] != s.queue[n-1];
    }
  }

  lemma ExamineOneAnswer(e: Exam, w: World, id: PacketId)
    requires id in e.s.dict
    ensures var r := ExamineOne(e, w, id);
      && (forall p :: p in r.todo ==> p in e.todo || p == (id, if id in e.s.failedIds then Failed else Exist))
      && forall x :: x != id ==> (x in r.s.failedIds <==> x in e.s.failedIds)
  {
    hide Ids, Advances;
  }

  /** A fast loop, when kicked, does nothing before its call comes. */
  lemma KickWaits(s: Requests, w: World)
    requires Inv(s) && !s.loop.raised && s.loop.task == Scheduled && !s.loop.slow
    ensures Step(s, w, Kick) == s
  {
  }

  /** A run over an empty queue forgets what the transport reported. */
  lemma EmptyForgets(s: Requests, w: World)
    requires Inv(s) && s.queue == []
    ensures RunRequest(s, w) == s.(failedIds := [], clock := s.clock + 1)
  {
    hide Placed, Ledger, Asked;
    assert Drain(Open(s, w).s, w, [], 0) == Open(s, w).s;
  }

  // ----- every run

  lemma JustifiedLater(w: World, es: seq<Event>, e: Event, s: Requests)
    requires Justified(w, es, s)
    ensures Justified(w, es + [e], s)
  {
  }

  lemma StepReasons(w: World, es: seq<Event>, s: Requests, e: Event)
    requires Inv(s) && Justified(w, es, s) && e in es
    ensures Justified(w, es, Step(s, w, e))
  {
    hide Placed, Ledger, Asked, DoRequest, Finish, RequestTask;
    match e
    case Request(id) =>
      if id !in s.queue {
        EnqueueKeeps(s, id);
        DoRequestReasons(Enqueue(s, id), w, es);
      }
    case Tick(current) =>
      if ToCome(s, current) {
        RequestTaskReasons(Fire(s, current), w, es);
      }
    case Kick => DoRequestReasons(s, w, es);
    case Reply(id, response) =>
      FinishReasons(s, w, es, id, if response == ValidData then Received else Failed);
    case Status(id, finished) =>
      if !finished && id in s.queue {
        DoRequestReasons(s.(failedIds := s.failedIds + [id]), w, es);
      }
    case Delete(name) =>
  }

  lemma {:induction false} RunJustified(w: World, es: seq<Event>)
    ensures Justified(w, es, Run(w, es))
  {
    hide Inv, Step, Justified;
    if es == [] {
      NothingCalled(w);
    } else {
      var rest, e := es[..|es|-1], es[|es|-1];
      RunJustified(w, rest);
      assert rest + [e] == es;
      JustifiedLater(w, rest, e, Run(w, rest));
      StepReasons(w, es, Run(w, rest), e);
    }
  }

  lemma NothingCalled(w: World)
    ensures Justified(w, [], EMPTY)
  {
  }

  /** In every run, a request is called back as received only if valid Data came
      for it, as failed only if a Fail packet or a report of the transport did, and
      as existing only if its file was stored at some time. */
  lemma CallbacksCaused(w: World, es: seq<Event>, n: nat, answer: Answer)
    requires Call(n, answer) in Run(w, es).fates.calls
    ensures n < |Run(w, es).accepted|
    ensures var id := Run(w, es).accepted[n];
      match answer
      case Received => Reply(id, ValidData) in es
      case Failed => Reply(id, FailCommand) in es || Status(id, false) in es
      case Exist => exists clock :: w.Stored(clock, id)
  {
    RunJustified(w, es);
  }

  // ----- when the loop lives on

  /** A scheduled task refers to a call to come, and only a stalled loop raises. */
  ghost predicate Rolling(s: Requests) {
    (s.loop.task == Scheduled ==> s.loop.calls > 0) && (s.loop.raised ==> Stalls(s))
  }

  /** The task is scheduled anew, or as it was. */
  ghost predicate SameTask(s: Requests, r: Requests) {
    r.loop.task == Scheduled || (r.loop.task == s.loop.task && r.loop.slow == s.loop.slow)
  }

  lemma {:induction false} RunRolls(s: Requests, w: World)
    requires Inv(s) && Rolling(s) && !s.loop.raised
    ensures Rolling(RunRequest(s, w)) && SameTask(s, RunRequest(s, w))
    decreases |s.queue|, 1, 0
  {
    hide Inv, Open, Drain;
    DrainRolls(Open(s, w).s, w, Open(s, w).todo, |s.queue|);
  }

  lemma {:induction false} DrainRolls(s: Requests, w: World, todo: seq<(PacketId, Answer)>, bound: nat)
    requires Inv(s) && |s.queue| <= bound && (todo != [] && |s.queue| == bound ==> todo[0].0 in s.queue)
    requires Rolling(s)
    ensures Rolling(Drain(s, w, todo, bound)) && SameTask(s, Drain(s, w, todo, bound))
    decreases bound, 0, |todo|
  {
    hide Inv, Finish;
    if todo != [] && !s.loop.raised {
      FinishRolls(s, w, todo[0].0, todo[0].1);
      DrainRolls(Finish(s, w, todo[0].0, todo[0].1), w, todo[1..], bound);
    }
  }

  lemma {:induction false} FinishRolls(s: Requests, w: World, id: PacketId, why: Answer)
    requires Inv(s) && Rolling(s) && !s.loop.raised
    ensures var r := Finish(s, w, id, why); Rolling(r) && SameTask(s, r)
    ensures s.loop.task != Fired ==> Finish(s, w, id, why).loop.task == Scheduled
    ensures s.loop.task == Fired ==> Finish(s, w, id, why).loop == s.loop.(raised := s.loop.slow)
    decreases if id in s.queue then |s.queue| - 1 else |s.queue|, 4, 0
  {
    hide Inv, DoRequest;
    SettleKeeps(s, id, why);
    DoRequestRolls(Settle(s, id, why), w);
  }

  lemma {:induction false} DoRequestRolls(s: Requests, w: World)
    requires Inv(s) && Rolling(s) && !s.loop.raised
    ensures Rolling(DoRequest(s, w)) && SameTask(s, DoRequest(s, w))
    ensures s.loop.task != Fired ==> DoRequest(s, w).loop.task == Scheduled && !DoRequest(s, w).loop.raised
    ensures s.loop.task == Fired ==> DoRequest(s, w).loop == s.loop.(raised := s.loop.slow)
    decreases |s.queue|, 3, 0
  {
    hide Placed, Ledger, Asked, RequestTask;
    if s.loop.task.NoTask? {
      RequestTaskRolls(s, w);
    } else if s.loop.task.Scheduled? && s.loop.slow {
      RequestTaskRolls(Cancelled(s), w);
    }
  }

  lemma {:induction false} RequestTaskRolls(s: Requests, w: World)
    requires Inv(s) && Rolling(s) && !s.loop.raised
    ensures var r := RequestTask(s, w);
      && Rolling(r) && (r.loop.raised || (r.loop.task == Scheduled && r.loop.calls > 0))
      && (!Stalls(s) ==> !r.loop.raised)
    decreases |s.queue|, 2, 0
  {
    hide Placed, Ledger, Asked, RunRequest;
    RunRolls(s, w);
  }

  /** Between the steps: a call is to come, or the loop is stalled, or nothing was
      ever accepted. */
  ghost predicate Lives(s: Requests) {
    && Rolling(s) && !s.loop.raised
    && (s.loop.task == Fired ==> Stalls(s))
    && (s.loop.task == NoTask ==> s.accepted == [])
  }

  lemma StepLives(w: World, s: Requests, e: Event)
    requires Inv(s) && Lives(s)
    ensures Lives(Step(s, w, e))
  {
    hide Placed, Ledger, Asked, DoRequest, Finish, RequestTask;
    match e
    case Request(id) =>
      if id !in s.queue {
        EnqueueKeeps(s, id);
        DoRequestRolls(Enqueue(s, id), w);
      }
    case Tick(current) =>
      if ToCome(s, current) {
        RequestTaskRolls(Fire(s, current), w);
      }
    case Kick => DoRequestRolls(s, w);
    case Reply(id, response) =>
      FinishRolls(s, w, id, if response == ValidData then Received else Failed);
    case Status(id, finished) =>
      if !finished && id in s.queue {
        DoRequestRolls(s.(failedIds := s.failedIds + [id]), w);
      }
    case Delete(name) =>
  }

  /** In every reachable state in which something was accepted, the call that the
      task refers to is to come, or the loop is stalled: nothing else ends it. */
  lemma {:induction false} RequestLoopLives(w: World, es: seq<Event>)
    ensures Lives(Run(w, es))
    ensures var s := Run(w, es); s.accepted != [] ==> Stalls(s) || (s.loop.task == Scheduled && s.loop.calls > 0)
  {
    hide Inv, Step;
    if es != [] {
      RequestLoopLives(w, es[..|es|-1]);
      StepLives(w, Run(w, es[..|es|-1]), es[|es|-1]);
    }
  }
}
