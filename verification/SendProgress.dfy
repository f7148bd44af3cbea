/** What the sending loop achieves over a whole run: how many passes a packet has
    to wait, whatever else happens to the queue in between. */
module SendProgress {
  import opened Sequences
  import opened SendSpec

  // ----- the queue is in the order of acceptance

  ghost predicate Ordered(q: seq<PacketId>, d: map<PacketId, FileToSend>)
    requires Known(q, d)
  {
    forall i, j :: 0 <= i < j < |q| ==> d[q[i]].serial < d[q[j]].serial
  }

  ghost predicate Steady(s: Sends) {
    Inv(s) && Ordered(s.queue, s.dict)
  }

  /** Accepted, and still in the queue. */
  ghost predicate Present(s: Sends, n: nat) {
    n < |s.accepted| && n !in s.gone
  }

  ghost function Packet(s: Sends, n: nat): FileToSend
    requires Inv(s) && Present(s, n)
  {
    s.dict[s.accepted[n]]
  }

  /** From s to r nobody came back, nobody was overtaken, and who was sent is
      sent or gone. */
  ghost predicate Grows(s: Sends, r: Sends) {
    && Steady(s) && Steady(r) && s.accepted <= r.accepted && s.gone.Keys <= r.gone.Keys
    && forall n :: Present(s, n) && Present(r, n) && Packet(s, n).sent ==> Packet(r, n).sent
  }

  lemma GrowsTwice(a: Sends, b: Sends, c: Sends)
    requires Grows(a, b) && Grows(b, c)
    ensures Grows(a, c)
  {
    hide Inv, Ordered;
    forall n | Present(a, n) && Present(c, n) && Packet(a, n).sent
      ensures Packet(c, n).sent
    {
      assert Present(b, n);
    }
  }

  lemma GrowsSelf(s: Sends)
    requires Steady(s)
    ensures Grows(s, s)
  {
  }

  // ----- every step keeps the order

  lemma {:induction false} WithoutOrdered(q: seq<PacketId>, d: map<PacketId, FileToSend>, drop: set<PacketId>)
    requires Known(q, d) && Ordered(q, d)
    ensures Known(Without(q, drop), d) && Ordered(Without(q, drop), d)
    decreases |q|
  {
    if q != [] {
      var rest, last := q[..|q|-1], q[|q|-1];
      assert q == rest + [last];
      WithoutOrdered(rest, d, drop);
      WithoutSnoc(rest, last, drop);
      assert forall id :: id in rest ==> d[id].serial < d[last].serial;
    }
  }

  /** Packets may leave, and flags change, but no sent flag is taken back. */
  lemma ShrinkGrows(s: Sends, r: Sends, drop: set<PacketId>)
    requires Steady(s) && Inv(r) && r.accepted == s.accepted && s.gone.Keys <= r.gone.Keys
    requires r.queue == Without(s.queue, drop)
    requires forall id :: id in r.dict ==>
               id in s.dict && r.dict[id].serial == s.dict[id].serial && (s.dict[id].sent ==> r.dict[id].sent)
    ensures Grows(s, r)
  {
    hide Window, Notified, NoDup, Without;
    WithoutOrdered(s.queue, s.dict, drop);
    forall n: nat | Present(s, n) && Present(r, n)
      ensures s.accepted[n] in r.dict
    {
    }
  }

  lemma FlagGrows(s: Sends, r: Sends)
    requires Steady(s) && Inv(r) && r.accepted == s.accepted && s.gone.Keys <= r.gone.Keys && r.queue == s.queue
    requires forall id :: id in r.dict ==>
               id in s.dict && r.dict[id].serial == s.dict[id].serial && (s.dict[id].sent ==> r.dict[id].sent)
    ensures Grows(s, r)
  {
    hide Window, Notified, Ledger;
    WithoutNothing(s.queue, {});
    ShrinkGrows(s, r, {});
  }

  lemma RunSendGrows(s: Sends, w: World)
    requires Steady(s)
    ensures Grows(s, RunSend(s, w))
  {
    hide Window, Notified, Ledger, Ordered, FailNotes, Leaving;
    RunSendKeeps(s, w);
    ScanTouches(s.queue, s.dict, s.failedIds, w, s.clock);
    ShrinkGrows(s, RunSend(s, w), Scan(s.queue, s.dict, s.failedIds, w, s.clock).Removed());
  }

  lemma SendingTaskGrows(s: Sends, w: World)
    requires Steady(s)
    ensures Grows(s, SendingTask(s, w))
  {
    hide RunSend, Linked, Window, Notified, Ledger;
    RunSendGrows(s, w);
  }

  lemma DoSendGrows(s: Sends, w: World)
    requires Steady(s)
    ensures Grows(s, DoSend(s, w))
  {
    hide SendingTask, Linked, Window, Notified, Ledger;
    SendingTaskGrows(s, w);
  }

  lemma AcceptGrows(s: Sends, id: PacketId, size: nat, callOnAck: bool, callOnFail: bool)
    requires Steady(s) && id !in s.queue
    ensures Grows(s, Accept(s, id, size, callOnAck, callOnFail))
  {
    AcceptKeeps(s, id, size, callOnAck, callOnFail);
  }

  lemma ConcludeGrows(s: Sends, f: FileToSend)
    requires Steady(s) && f.id in s.dict && f.result != NoOutcome
    requires f == s.dict[f.id].(acked := f.acked, result := f.result)
    ensures Grows(s, Conclude(s, f))
  {
    hide Window, Notified, Ledger;
    ConcludeKeeps(s, f);
    FlagGrows(s, Conclude(s, f));
  }

  lemma FailReceivedGrows(s: Sends, w: World, id: PacketId, why: Outcome)
    requires Steady(s) && why != NoOutcome && why != Acked
    ensures Grows(s, FailReceived(s, w, id, why))
  {
    hide Window, Notified, Ledger, Ordered, DoSend;
    if id in s.dict {
      var f := s.dict[id].(result := why);
      ConcludeGrows(s, f);
      DoSendGrows(Conclude(s, f), w);
      GrowsTwice(s, Conclude(s, f), FailReceived(s, w, id, why));
    } else {
      GrowsSelf(s);
    }
  }

  lemma DiscardGrows(s: Sends, drop: set<PacketId>)
    requires Steady(s) && Inv(Discard(s, drop))
    ensures Grows(s, Discard(s, drop))
  {
    hide Window, Notified, Ledger, Leaving;
    ShrinkGrows(s, Discard(s, drop), drop);
  }

  lemma {:induction false} DeleteScanKeepsOrder(s: Sends, w: World, name: string, i: nat, marked: set<PacketId>)
    requires Steady(s) && Reported(s, marked)
    ensures Grows(s, DeleteScan(s, w, name, i, marked).0)
    decreases |s.queue| - i
  {
    hide Linked, Ledger, Window, Notified, Ordered, Mentions, FailReceived, Reported;
    if i >= |s.queue| {
      GrowsSelf(s);
    } else if Mentions(s.queue[i], name) {
      var s1 := FailReceived(s, w, s.queue[i], DeleteRequest);
      ReportRound(s, w, name, i, marked);
      FailReceivedGrows(s, w, s.queue[i], DeleteRequest);
      DeleteScanKeepsOrder(s1, w, name, i + 1, marked + {s.queue[i]});
      GrowsTwice(s, s1, DeleteScan(s, w, name, i, marked).0);
    } else {
      QuietRound(s, w, name, i, marked);
      DeleteScanKeepsOrder(s, w, name, i + 1, marked);
    }
  }

  lemma DeleteSendingsGrows(s: Sends, w: World, name: string)
    requires Steady(s)
    ensures Grows(s, DeleteSendings(s, w, name))
  {
    hide Linked, Ledger, Window, Notified, Ordered, DeleteScan, Discard;
    var (s1, marked) := DeleteScan(s, w, name, 0, {});
    DeleteScanKeepsOrder(s, w, name, 0, {});
    DiscardKeeps(s1, marked);
    DiscardGrows(s1, marked);
    GrowsTwice(s, s1, DeleteSendings(s, w, name));
  }

  lemma SendFileGrows(s: Sends, w: World, id: PacketId, size: nat, callOnAck: bool, callOnFail: bool, offline: bool)
    requires Steady(s)
    ensures Grows(s, SendFile(s, w, id, size, callOnAck, callOnFail, offline))
  {
    hide Linked, Ledger, Window, Notified, Ordered, DoSend, Accept;
    var r := SendFile(s, w, id, size, callOnAck, callOnFail, offline);
    if offline || id in s.queue {
      SameGrows(s, r);
    } else {
      AcceptGrows(s, id, size, callOnAck, callOnFail);
      DoSendGrows(Accept(s, id, size, callOnAck, callOnFail), w);
      GrowsTwice(s, Accept(s, id, size, callOnAck, callOnFail), r);
    }
  }

  lemma SameGrows(s: Sends, r: Sends)
    requires Steady(s) && Inv(r) && r.queue == s.queue && r.dict == s.dict && r.accepted == s.accepted
    requires r.gone == s.gone
    ensures Grows(s, r)
  {
    hide Linked, Ledger, Window, Notified, Ordered;
  }

  lemma AckReceivedGrows(s: Sends, w: World, id: PacketId, isAck: bool)
    requires Steady(s)
    ensures Grows(s, AckReceived(s, w, id, isAck))
  {
    hide Ledger, Window, Notified, Ordered, DoSend;
    if id in s.queue {
      var f := s.dict[id].(acked := true, result := if isAck then Acked else Failed);
      ConcludeGrows(s, f);
      DoSendGrows(Conclude(s, f), w);
      GrowsTwice(s, Conclude(s, f), AckReceived(s, w, id, isAck));
    } else {
      GrowsSelf(s);
    }
  }

  lemma OutboxGrows(s: Sends, w: World, id: PacketId, finished: bool)
    requires Steady(s)
    ensures Grows(s, Outbox(s, w, id, finished))
  {
    hide Linked, Ledger, Window, Notified, Ordered, DoSend;
    var s1 := s.(failedIds := s.failedIds + [id]);
    assert Inv(s1);
    SameGrows(s, s1);
    DoSendGrows(s1, w);
    GrowsTwice(s, s1, DoSend(s1, w));
    GrowsSelf(s);
  }

  lemma FiredGrows(s: Sends, w: World)
    requires Steady(s)
    ensures Grows(s, Fired(s, w))
  {
    hide Linked, Window, Notified, Ledger, Ordered, SendingTask;
    if s.calls == 0 {
      GrowsSelf(s);
    } else {
      var s1 := s.(calls := s.calls - 1);
      SameGrows(s, s1);
      SendingTaskGrows(s1, w);
      GrowsTwice(s, s1, SendingTask(s1, w));
    }
  }

  lemma StepGrows(s: Sends, w: World, e: Event)
    requires Steady(s)
    ensures Grows(s, Step(s, w, e))
  {
    hide Inv, Ordered, Grows, SendFile, Fired, DoSend, AckReceived, Outbox, DeleteSendings;
    match e
    case QueueFile(id, size, onAck, onFail, offline) => SendFileGrows(s, w, id, size, onAck, onFail, offline);
    case Tick => FiredGrows(s, w);
    case Kick => DoSendGrows(s, w);
    case Answer(id, isAck) => AckReceivedGrows(s, w, id, isAck);
    case Status(id, finished) => OutboxGrows(s, w, id, finished);
    case Delete(name) => DeleteSendingsGrows(s, w, name);
  }

  lemma {:induction false} RunSteady(w: World, es: seq<Event>)
    ensures Steady(Run(w, es))
  {
    hide Inv, Ordered, Step;
    if es != [] {
      RunSteady(w, es[..|es|-1]);
      StepGrows(Run(w, es[..|es|-1]), w, es[|es|-1]);
    } else {
      NobodyOrdered();
    }
  }

  lemma NobodyOrdered()
    ensures Steady(EMPTY)
  {
  }

  // ----- who is ahead of a packet

  /** The packets accepted earlier that are still queued. */
  ghost function Before(s: Sends, n: nat): set<nat> {
    set m: nat | 0 <= m < n && m !in s.gone
  }

  lemma Position(s: Sends, n: nat) returns (k: nat)
    requires Steady(s) && Present(s, n)
    ensures k < |s.queue| && s.queue[k] == s.accepted[n] && s.dict[s.queue[k]].serial == n
  {
    k :| 0 <= k < |s.queue| && s.queue[k] == s.accepted[n];
  }

  lemma SerialAt(s: Sends, k: nat)
    requires Steady(s) && k < |s.queue|
    ensures var n := s.dict[s.queue[k]].serial; Present(s, n) && s.accepted[n] == s.queue[k]
  {
  }

  lemma BeforeFirst(s: Sends)
    requires Steady(s) && s.queue != []
    ensures Before(s, s.dict[s.queue[0]].serial) == {}
  {
    hide Window, Notified;
    forall m: nat | m in Before(s, s.dict[s.queue[0]].serial)
      ensures false
    {
      SerialAt(s, 0);
      var i := Position(s, m);
    }
  }

  lemma BeforeNext(s: Sends, k: nat)
    requires Steady(s) && 0 < k < |s.queue|
    ensures var m, n := s.dict[s.queue[k-1]].serial, s.dict[s.queue[k]].serial;
      Before(s, n) == Before(s, m) + {m} && m !in Before(s, m)
  {
    hide Window, Notified;
    var m, n := s.dict[s.queue[k-1]].serial, s.dict[s.queue[k]].serial;
    SerialAt(s, k - 1);
    SerialAt(s, k);
    forall x: nat | x in Before(s, n)
      ensures x <= m
    {
      var i := Position(s, x);
    }
  }

  /** The packet at position k has k packets before it. */
  lemma {:induction false} BeforeCount(s: Sends, k: nat)
    requires Steady(s) && k < |s.queue|
    ensures |Before(s, s.dict[s.queue[k]].serial)| == k
  {
    hide Inv, Ordered, Before;
    QueueKnown(s);
    if k == 0 {
      BeforeFirst(s);
    } else {
      BeforeCount(s, k - 1);
      BeforeNext(s, k);
    }
  }

  lemma QueueKnown(s: Sends)
    requires Steady(s)
    ensures forall id :: id in s.queue ==> id in s.dict
  {
  }

  // ----- the passes that count

  /** Each packet up to n that was sent has been answered, is late or failed, so
      it leaves in the next pass. */
  ghost predicate Answered(s: Sends, w: World, n: nat)
    requires Inv(s)
  {
    forall id :: id in s.queue && s.dict[id].serial <= n && s.dict[id].sent ==>
      Leaves(s.dict[id], id in s.failedIds, w.Sees(s.clock, id))
  }

  function After(s: Sends, w: World, es: seq<Event>): (r: Sends)
    requires Inv(s)
    ensures Inv(r)
    decreases |es|
  {
    if es == [] then s else After(Step(s, w, es[0]), w, es[1..])
  }

  /** How many passes of the sending task come at such a time. */
  ghost function Passes(s: Sends, w: World, es: seq<Event>, n: nat): nat
    requires Inv(s)
    decreases |es|
  {
    if es == [] then 0
    else
      Passes(Step(s, w, es[0]), w, es[1..], n) + if es[0].Tick? && s.calls > 0 && Answered(s, w, n) then 1 else 0
  }

  lemma PassesNext(s: Sends, w: World, es: seq<Event>, n: nat)
    requires Inv(s)
    ensures es == [] ==> Passes(s, w, es, n) == 0 && After(s, w, es) == s
    ensures es != [] ==> After(s, w, es) == After(Step(s, w, es[0]), w, es[1..])
    ensures var counts := if es != [] && es[0].Tick? && s.calls > 0 && Answered(s, w, n) then 1 else 0;
      es != [] ==> (Passes(s, w, es, n) == Passes(Step(s, w, es[0]), w, es[1..], n) + counts)
  {
    hide Inv, Step, Answered;
  }

  /** m is gone, or at least sent. */
  ghost predicate Out(s: Sends, m: nat)
    requires Inv(s)
  {
    m in s.gone || (Present(s, m) && Packet(s, m).sent)
  }

  lemma LeftIsGone(s: Sends, r: Sends, m: nat)
    requires Inv(s) && Inv(r) && Present(s, m) && r.accepted == s.accepted
    ensures m in r.gone || s.accepted[m] in r.queue
  {
  }

  lemma PassAccepts(s: Sends, w: World)
    requires Inv(s)
    ensures RunSend(s, w).accepted == s.accepted
  {
  }

  lemma TickSent(s: Sends, w: World, n: nat, m: nat)
    requires Steady(s) && s.calls > 0 && Answered(s, w, n) && m <= n && Present(s, m) && Packet(s, m).sent
    ensures m in Step(s, w, Tick).gone
  {
    hide Window, Notified, Leaves, RunSend, Fired;
    TickIs(s, w);
    RunSendKeeps(s, w);
    PassRemoves(s, w);
    RunSendGrows(s, w);
    PassAccepts(s, w);
    LeftIsGone(s, RunSend(s, w), m);
  }

  lemma TickSends(s: Sends, w: World, m: nat, k: nat)
    requires Steady(s) && s.calls > 0 && Present(s, m)
    requires k < |s.queue| && k <= FILE_SEND_MAX_LENGTH && s.queue[k] == s.accepted[m]
    ensures Out(Step(s, w, Tick), m)
  {
    hide Window, Notified, RunSend, Fired;
    TickIs(s, w);
    RunSendKeeps(s, w);
    RunSendGrows(s, w);
    PassAccepts(s, w);
    LeftIsGone(s, RunSend(s, w), m);
    if m !in RunSend(s, w).gone {
      PassSends(s, w, k);
    }
  }

  /** The first five packets of the queue, or those up to n if that is less. */
  lemma Front(s: Sends, w: World, n: nat) returns (front: set<nat>)
    requires Steady(s) && s.calls > 0 && Present(s, n)
    ensures forall m :: m in front ==> m <= n && m < |s.accepted| && Out(Step(s, w, Tick), m)
    ensures |Before(s, n)| <= FILE_SEND_MAX_LENGTH ==> n in front
    ensures |Before(s, n)| > FILE_SEND_MAX_LENGTH ==>
      n !in front && front <= Before(s, n) && |front| == FILE_SEND_MAX_LENGTH + 1
  {
    hide Inv, Ordered, Before, Out, Step;
    QueueKnown(s);
    var k := Position(s, n);
    BeforeCount(s, k);
    if k <= FILE_SEND_MAX_LENGTH {
      front := {n};
      TickSends(s, w, n, k);
    } else {
      var x := s.dict[s.queue[FILE_SEND_MAX_LENGTH + 1]].serial;
      front := Before(s, x);
      BeforeCount(s, FILE_SEND_MAX_LENGTH + 1);
      BeforeOrder(s, FILE_SEND_MAX_LENGTH + 1, k);
      forall m | m in front
        ensures m <= n && m < |s.accepted| && Out(Step(s, w, Tick), m)
      {
        BeforeOut(s, w, m);
      }
    }
  }

  lemma BeforeOrder(s: Sends, i: nat, k: nat)
    requires Steady(s) && i <= k < |s.queue|
    ensures var x, n := s.dict[s.queue[i]].serial, s.dict[s.queue[k]].serial;
      x <= n && Before(s, x) <= Before(s, n) && n !in Before(s, x)
  {
    hide Window, Notified, Ledger;
  }

  lemma BeforeOut(s: Sends, w: World, m: nat)
    requires Steady(s) && s.calls > 0 && FILE_SEND_MAX_LENGTH + 1 < |s.queue|
    requires m in Before(s, s.dict[s.queue[FILE_SEND_MAX_LENGTH+1]].serial)
    ensures m < s.dict[s.queue[FILE_SEND_MAX_LENGTH+1]].serial && m < |s.accepted| && Out(Step(s, w, Tick), m)
  {
    hide Window, Notified, Out, Step;
    SerialAt(s, FILE_SEND_MAX_LENGTH + 1);
    var i := Position(s, m);
    TickSends(s, w, m, i);
  }

  lemma {:induction false} GoneStays(s: Sends, w: World, es: seq<Event>, n: nat)
    requires Steady(s) && n in s.gone
    ensures n in After(s, w, es).gone
    decreases |es|
  {
    hide Inv, Ordered, Step;
    if es != [] {
      StepGrows(s, w, es[0]);
      GoneStays(Step(s, w, es[0]), w, es[1..], n);
    }
  }

  lemma BeforeShrinks(s: Sends, r: Sends, n: nat)
    requires Grows(s, r)
    ensures Before(r, n) <= Before(s, n)
  {
  }

  /** However the run goes on, a packet with p packets before it leaves the queue
      within 2 * (p / 5 + 1) passes that come when those sent are answered. */
  lemma {:induction false} Leave(s: Sends, w: World, es: seq<Event>, n: nat)
    requires Steady(s) && n < |s.accepted|
    requires Passes(s, w, es, n) >= 2 * (|Before(s, n)| / (FILE_SEND_MAX_LENGTH + 1) + 1)
    ensures n in After(s, w, es).gone
    decreases |es|
  {
    hide Inv, Ordered, Step, Answered, Before, Out, Passes, After;
    PassesNext(s, w, es, n);
    if n in s.gone {
      GoneStays(s, w, es, n);
    } else {
      var r := Step(s, w, es[0]);
      StepGrows(s, w, es[0]);
      BeforeShrinks(s, r, n);
      CardinalityMonotone(Before(r, n), Before(s, n));
      if es[0].Tick? && s.calls > 0 && Answered(s, w, n) {
        var front := Front(s, w, n);
        if n !in front {
          Sooner(s, r, n, front);
        }
        LeaveSoon(r, w, es[1..], n, front);
      } else {
        Leave(r, w, es[1..], n);
      }
    }
  }

  /** What is left before n when the front has gone. */
  lemma Sooner(s: Sends, r: Sends, n: nat, front: set<nat>)
    requires Before(r, n) <= Before(s, n) && front <= Before(s, n) && |front| == FILE_SEND_MAX_LENGTH + 1
    ensures |Before(r, n) - front| <= |Before(s, n)| - (FILE_SEND_MAX_LENGTH + 1)
  {
    hide Before;
    CardinalityMonotone(Before(r, n) - front, Before(s, n) - front);
  }

  ghost predicate AllOut(s: Sends, front: set<nat>, n: nat)
    requires Inv(s)
  {
    forall m :: m in front ==> m <= n && m < |s.accepted| && Out(s, m)
  }

  lemma AllGone(s: Sends, w: World, n: nat, front: set<nat>)
    requires Steady(s) && s.calls > 0 && AllOut(s, front, n) && Answered(s, w, n)
    ensures forall m :: m in front ==> m in Step(s, w, Tick).gone
  {
    hide Inv, Ordered, Step, Answered;
    StepGrows(s, w, Tick);
    forall m | m in front
      ensures m in Step(s, w, Tick).gone
    {
      if m !in s.gone {
        TickSent(s, w, n, m);
      }
    }
  }

  lemma AllStay(s: Sends, r: Sends, n: nat, front: set<nat>)
    requires Grows(s, r) && AllOut(s, front, n)
    ensures AllOut(r, front, n)
  {
    hide Inv, Ordered;
  }

  /** The same when the packets in front are gone or sent already. */
  lemma {:induction false} LeaveSoon(s: Sends, w: World, es: seq<Event>, n: nat, front: set<nat>)
    requires Steady(s) && n < |s.accepted| && AllOut(s, front, n)
    requires Passes(s, w, es, n) >=
      1 + if n in front then 0 else 2 * (|Before(s, n) - front| / (FILE_SEND_MAX_LENGTH + 1) + 1)
    ensures n in After(s, w, es).gone
    decreases |es|
  {
    hide Inv, Ordered, Step, Answered, Before, AllOut, Passes, After;
    PassesNext(s, w, es, n);
    var r := Step(s, w, es[0]);
    StepGrows(s, w, es[0]);
    BeforeShrinks(s, r, n);
    if es[0].Tick? && s.calls > 0 && Answered(s, w, n) {
      AllGone(s, w, n, front);
      if n in front {
        GoneStays(r, w, es[1..], n);
      } else {
        BeforeGone(r, n, front);
        CardinalityMonotone(Before(r, n), Before(s, n) - front);
        Leave(r, w, es[1..], n);
      }
    } else {
      AllStay(s, r, n, front);
      CardinalityMonotone(Before(r, n) - front, Before(s, n) - front);
      LeaveSoon(r, w, es[1..], n, front);
    }
  }

  lemma BeforeGone(s: Sends, n: nat, front: set<nat>)
    requires forall m :: m in front ==> m in s.gone
    ensures Before(s, n) !! front
  {
  }

  // ----- in every run

  lemma {:induction false} RunAfter(w: World, es: seq<Event>, more: seq<Event>)
    ensures Run(w, es + more) == After(Run(w, es), w, more)
    decreases |more|
  {
    hide Inv, Step;
    if more == [] {
      assert es + more == es;
    } else {
      assert (es + [more[0]])[..|es|] == es;
      RunAfter(w, es + [more[0]], more[1..]);
      assert (es + [more[0]]) + more[1..] == es + more;
    }
  }

  /** In every run: an accepted packet with p packets queued before it has left
      the queue, and its callback has been scheduled, if given, as soon as
      2 * (p / 5 + 1) passes have come at times when each packet up to it that was
      sent had been answered, was late or had failed. New packets, deletions and
      further passes in between do not delay it. */
  lemma PacketServed(w: World, es: seq<Event>, more: seq<Event>, n: nat)
    requires n < |Run(w, es).accepted|
    requires Passes(Run(w, es), w, more, n) >= 2 * (|Before(Run(w, es), n)| / 5 + 1)
    ensures var r := Run(w, es + more);
      n in r.gone && r.gone[n].id == Run(w, es).accepted[n] && Told(r.gone[n], r.scheduled)
  {
    hide Steady, Passes, Before, Step;
    RunSteady(w, es);
    RunAfter(w, es, more);
    Leave(Run(w, es), w, more, n);
    AfterAccepts(Run(w, es), w, more);
    GoneTold(Run(w, es + more), n);
  }

  lemma GoneTold(s: Sends, n: nat)
    requires Inv(s) && n in s.gone
    ensures n < |s.accepted| && s.gone[n].id == s.accepted[n] && Told(s.gone[n], s.scheduled)
  {
  }

  lemma {:induction false} AfterAccepts(s: Sends, w: World, es: seq<Event>)
    requires Steady(s)
    ensures s.accepted <= After(s, w, es).accepted
    decreases |es|
  {
    hide Inv, Ordered, Step;
    if es != [] {
      StepGrows(s, w, es[0]);
      AfterAccepts(Step(s, w, es[0]), w, es[1..]);
    }
  }

  lemma {:induction false} PassesFewer(s: Sends, w: World, es: seq<Event>, n: nat, m: nat)
    requires Inv(s) && n <= m
    ensures Passes(s, w, es, n) >= Passes(s, w, es, m)
    decreases |es|
  {
    hide Linked, Window, Notified, Ledger, Step, Leaves;
    if es != [] {
      PassesFewer(Step(s, w, es[0]), w, es[1..], n, m);
    }
  }

  /** So if nothing is accepted any more, the whole queue of q packets is served
      in 2 * ceil(q / 5) such passes. */
  lemma QueueServed(w: World, es: seq<Event>, more: seq<Event>)
    requires Run(w, es + more).accepted == Run(w, es).accepted
    requires Passes(Run(w, es), w, more, |Run(w, es).accepted|) >=
      2 * ((|Run(w, es).queue| + 4) / 5)
    ensures Run(w, es + more).queue == []
  {
    hide Passes, Before, Step, Window, Notified, Ledger, Ordered;
    var s, r := Run(w, es), Run(w, es + more);
    RunSteady(w, es);
    RunSteady(w, es + more);
    if r.queue != [] {
      var n := r.dict[r.queue[0]].serial;
      SerialAt(r, 0);
      RunAfter(w, es, more);
      if n in s.gone {
        GoneStays(s, w, more, n);
      } else {
        var k := Position(s, n);
        BeforeCount(s, k);
        PassesFewer(s, w, more, n, |s.accepted|);
        Leave(s, w, more, n);
      }
      assert false;
    }
  }

  // ----- the bound is reached

  const BURST: nat := FILE_SEND_MAX_LENGTH + 1

  /** All files are there, no answer is late, and the sending loop is fast. */
  const CALM := World(map[], {})

  function Min(a: nat, b: nat): nat {
    if a < b then a else b
  }

  /** Only large packets, the first of them sent and answered, the others not. */
  ghost predicate Large(q: seq<PacketId>, d: map<PacketId, FileToSend>, sent: nat, acked: nat) {
    && Known(q, d)
    && (forall j :: 0 <= j < |q| ==> d[q[j]].size > LARGE_FILE)
    && (forall j :: 0 <= j < |q| ==> (d[q[j]].sent <==> j < sent) && (d[q[j]].acked <==> j < acked))
  }

  /** A pass over such a queue counts up to five packets: it either sends them,
      or finds them answered. */
  ghost predicate LargeTally(q: seq<PacketId>, d: map<PacketId, FileToSend>, sent: nat, i: nat, t: Tally)
    requires Known(q, d)
  {
    && t.count == Min(i, BURST) && t.failedIds == [] && t.dropped == map[] && Known(q, t.dict)
    && (forall j :: 0 <= j < |q| ==> (q[j] in t.done <==> j < i && j < sent))
    && (forall j :: 0 <= j < |q| ==> t.dict[q[j]] == d[q[j]].(sent := j < sent || (sent == 0 && j < i && j < BURST)))
  }

  lemma LargeNext(q: seq<PacketId>, d: map<PacketId, FileToSend>, sent: nat, i: nat, t: Tally, v: Verdict)
    requires NoDup(q) && Known(q, d) && i < |q| && LargeTally(q, d, sent, i, t)
    requires v == if i < sent then Done else if i < BURST then SendNow else Hold
    requires sent == 0 || sent == BURST
    ensures LargeTally(q, d, sent, i + 1, Note1(t, q[i], v))
  {
    hide RemoveFirst;
    assert forall j :: 0 <= j < |q| && j != i ==> q[j] != q[i];
  }

  lemma LargeVerdict(q: seq<PacketId>, d: map<PacketId, FileToSend>, sent: nat, i: nat, t: Tally, clock: nat)
    requires Large(q, d, sent, sent) && i < |q| && LargeTally(q, d, sent, i, t) && (sent == 0 || sent == BURST)
    ensures VerdictOn(t, q[i], CALM.Sees(clock, q[i])) == if i < sent then Done else if i < BURST then SendNow else Hold
  {
  }

  lemma {:induction false} ScanLarge(q: seq<PacketId>, d: map<PacketId, FileToSend>, clock: nat, sent: nat, i: nat)
    requires NoDup(q) && Known(q, d) && Large(q, d, sent, sent) && (sent == 0 || sent == BURST) && i <= |q|
    ensures LargeTally(q, d, sent, i, Scan(q[..i], d, [], CALM, clock))
    decreases i
  {
    hide NoDup, Note1, VerdictOn, LargeTally, Large, Scan;
    ScanNext(q, d, [], CALM, clock, 0);
    if i == 0 {
      LargeNone(q, d, sent);
    } else {
      ScanLarge(q, d, clock, sent, i - 1);
      ScanNext(q, d, [], CALM, clock, i - 1);
      var t := Scan(q[..i-1], d, [], CALM, clock);
      LargeVerdict(q, d, sent, i - 1, t, clock);
      LargeNext(q, d, sent, i - 1, t, VerdictOn(t, q[i-1], CALM.Sees(clock, q[i-1])));
    }
  }

  lemma LargeNone(q: seq<PacketId>, d: map<PacketId, FileToSend>, sent: nat)
    requires Large(q, d, sent, sent)
    ensures LargeTally(q, d, sent, 0, Tally(d, [], map[], {}, 0))
  {
  }

  ghost predicate Backlog(s: Sends, sent: nat, acked: nat) {
    Steady(s) && s.task && !s.slow && s.calls > 0 && s.failedIds == [] && Large(s.queue, s.dict, sent, acked)
  }

  /** The queue without its first packets, with the same packets in it. */
  ghost predicate Moved(s: Sends, r: Sends, k: nat) {
    && Inv(s) && Inv(r)
    && r.queue == s.queue[Min(k, |s.queue|)..]
    && forall id :: id in r.queue ==> id in s.dict && r.dict[id].serial == s.dict[id].serial
  }

  lemma {:induction false} WithoutFirst(q: seq<PacketId>, k: nat, drop: set<PacketId>)
    requires NoDup(q) && k <= |q| && forall j :: 0 <= j < |q| ==> (q[j] in drop <==> j < k)
    ensures Without(q, drop) == q[k..]
    decreases |q|
  {
    if k == 0 {
      WithoutNothing(q, drop);
    } else {
      assert forall j :: 0 <= j < |q[1..]| ==> q[1..][j] == q[j+1];
      WithoutFirst(q[1..], k - 1, drop);
      assert q[1..][k-1..] == q[k..];
    }
  }

  /** What a pass with nothing to report leaves. */
  lemma PassQuiet(s: Sends, w: World)
    requires Inv(s) && Scan(s.queue, s.dict, s.failedIds, w, s.clock).dropped == map[]
    ensures var t, r := Scan(s.queue, s.dict, s.failedIds, w, s.clock), RunSend(s, w);
      && r.queue == Without(s.queue, t.done) && r.dict == t.dict - t.done
      && r.failedIds == (if r.queue == [] then [] else t.failedIds)
      && r.task == s.task && r.slow == s.slow && r.calls == s.calls
  {
    hide NoDup, Window, Notified, Ledger, Scan, Without, Leaving, FailAll;
    var t := Scan(s.queue, s.dict, s.failedIds, w, s.clock);
    FailNone(s.(dict := t.dict, failedIds := t.failedIds), w);
    assert t.Removed() == t.done;
  }

  lemma PassLarge(s: Sends, sent: nat)
    requires Backlog(s, sent, sent) && (sent == 0 || sent == BURST)
    ensures var r := RunSend(s, CALM);
      && r.task && !r.slow && r.calls > 0 && r.failedIds == []
      && Large(r.queue, r.dict, if sent == 0 then BURST else 0, 0) && Moved(s, r, sent)
  {
    hide Linked, Window, Notified, Ledger, RunSend, Ordered;
    RunSendInv(s, CALM);
    LargePass(s, sent);
    var q, r, k := s.queue, RunSend(s, CALM), Min(sent, |s.queue|);
    forall j | 0 <= j < |r.queue|
      ensures r.queue[j] in s.dict && r.queue[j] in r.dict
      ensures r.dict[r.queue[j]] == s.dict[r.queue[j]].(sent := sent == 0 && j < BURST)
      ensures s.dict[r.queue[j]].size > LARGE_FILE && !s.dict[r.queue[j]].acked
    {
      assert r.queue[j] == q[k+j];
    }
  }

  lemma LargePass(s: Sends, sent: nat)
    requires Backlog(s, sent, sent) && (sent == 0 || sent == BURST)
    ensures var q, r, k := s.queue, RunSend(s, CALM), Min(sent, |s.queue|);
      && r.task && !r.slow && r.calls > 0 && r.failedIds == [] && r.queue == q[k..]
      && forall j :: k <= j < |q| ==>
           q[j] in s.dict && q[j] in r.dict && r.dict[q[j]] == s.dict[q[j]].(sent := sent == 0 && j < BURST)
  {
    hide Inv, Ordered, Large, Scan, RunSend, NoDup, Without;
    BacklogScan(s, sent);
    PassQuiet(s, CALM);
    WithoutFirst(s.queue, Min(sent, |s.queue|), Scan(s.queue, s.dict, s.failedIds, CALM, s.clock).done);
  }

  lemma BacklogScan(s: Sends, sent: nat)
    requires Backlog(s, sent, sent) && (sent == 0 || sent == BURST)
    ensures NoDup(s.queue) && Known(s.queue, s.dict) && s.failedIds == []
    ensures LargeTally(s.queue, s.dict, sent, |s.queue|, Scan(s.queue, s.dict, s.failedIds, CALM, s.clock))
  {
    hide Window, Notified, Ledger, Scan, Ordered, Large, LargeTally, NoDup;
    assert s.queue[..|s.queue|] == s.queue;
    ScanLarge(s.queue, s.dict, s.clock, sent, |s.queue|);
  }

  lemma TickLarge(s: Sends, sent: nat, n: nat)
    requires Backlog(s, sent, sent) && (sent == 0 || sent == BURST)
    ensures var r := Step(s, CALM, Tick);
      Backlog(r, if sent == 0 then BURST else 0, 0) && Moved(s, r, sent) && Answered(s, CALM, n)
  {
    hide Window, Notified, Ledger, RunSend, Fired, Ordered;
    StepGrows(s, CALM, Tick);
    TickIs(s, CALM);
    PassLarge(s, sent);
  }

  lemma AnswerLarge(s: Sends, i: nat)
    requires Backlog(s, BURST, i) && i < |s.queue|
    ensures var r := Step(s, CALM, Answer(s.queue[i], true)); Backlog(r, BURST, i + 1) && Moved(s, r, 0)
  {
    hide Window, Notified, Ledger, Ordered;
    StepGrows(s, CALM, Answer(s.queue[i], true));
    ConcludeKeeps(s, s.dict[s.queue[i]].(acked := true, result := Acked));
    assert forall j :: 0 <= j < |s.queue| && j != i ==> s.queue[j] != s.queue[i];
  }

  function Answers(q: seq<PacketId>, i: nat, k: nat): seq<Event>
    requires i <= k <= |q|
    decreases k - i
  {
    if i == k then [] else [Answer(q[i], true)] + Answers(q, i + 1, k)
  }

  lemma {:induction false} AnswersLarge(s: Sends, i: nat, k: nat, n: nat)
    requires Backlog(s, BURST, i) && i <= k <= |s.queue|
    ensures var r := After(s, CALM, Answers(s.queue, i, k)); Backlog(r, BURST, k) && Moved(s, r, 0)
    ensures Passes(s, CALM, Answers(s.queue, i, k), n) == 0
    decreases k - i
  {
    hide Inv, Ordered, Large, Step;
    BacklogValid(s, BURST, i);
    if i < k {
      AnswerLarge(s, i);
      var r := Step(s, CALM, Answer(s.queue[i], true));
      assert Answers(s.queue, i, k)[1..] == Answers(s.queue, i + 1, k);
      AnswersLarge(r, i + 1, k, n);
    }
  }

  lemma BacklogValid(s: Sends, sent: nat, acked: nat)
    requires Backlog(s, sent, acked)
    ensures Inv(s) && forall id :: id in s.queue ==> id in s.dict
  {
  }

  lemma {:induction false} AfterMore(s: Sends, w: World, es: seq<Event>, more: seq<Event>, n: nat)
    requires Inv(s)
    ensures After(s, w, es + more) == After(After(s, w, es), w, more)
    ensures Passes(s, w, es + more, n) == Passes(s, w, es, n) + Passes(After(s, w, es), w, more, n)
    decreases |es|
  {
    hide Inv, Step, Answered;
    if es == [] {
      assert es + more == more;
    } else {
      assert (es + more)[1..] == es[1..] + more;
      AfterMore(Step(s, w, es[0]), w, es[1..], more, n);
    }
  }

  lemma OneTick(s: Sends, w: World, n: nat)
    requires Inv(s) && s.calls > 0 && Answered(s, w, n)
    ensures After(s, w, [Tick]) == Step(s, w, Tick) && Passes(s, w, [Tick], n) == 1
  {
    hide Inv, Step, Answered;
    assert [Tick][1..] == [];
  }

  /** Two passes for five large packets, and no more. */
  lemma BurstRound(s: Sends, n: nat) returns (es: seq<Event>)
    requires Backlog(s, 0, 0)
    ensures Backlog(After(s, CALM, es), 0, 0) && Moved(s, After(s, CALM, es), BURST)
    ensures Passes(s, CALM, es, n) == 2
  {
    hide Inv, Ordered, Step, Answered, Large;
    BacklogValid(s, 0, 0);
    TickLarge(s, 0, n);
    OneTick(s, CALM, n);
    var a, k := After(s, CALM, [Tick]), Min(BURST, |s.queue|);
    AnswersLarge(a, 0, k, n);
    var answers := Answers(a.queue, 0, k);
    var b := After(a, CALM, answers);
    AllAnswered(b, k);
    TickLarge(b, BURST, n);
    OneTick(b, CALM, n);
    AfterMore(s, CALM, [Tick], answers, n);
    AfterMore(s, CALM, [Tick] + answers, [Tick], n);
    es := [Tick] + answers + [Tick];
  }

  lemma AllAnswered(s: Sends, k: nat)
    requires Backlog(s, BURST, k) && k == Min(BURST, |s.queue|)
    ensures Backlog(s, BURST, BURST)
  {
  }

  /** A packet with p large ones before it is still there after one pass less
      than it has to wait at most. */
  lemma {:induction false} StillThere(s: Sends, p: nat) returns (es: seq<Event>)
    requires Backlog(s, 0, 0) && p < |s.queue|
    ensures var n := s.dict[s.queue[p]].serial;
      Passes(s, CALM, es, n) == 2 * (p / BURST + 1) - 1 && n !in After(s, CALM, es).gone
    decreases p
  {
    hide Ordered, Step, Answered, Large, Linked, Window, Notified, Ledger;
    BacklogValid(s, 0, 0);
    var n := s.dict[s.queue[p]].serial;
    if p < BURST {
      TickLarge(s, 0, n);
      OneTick(s, CALM, n);
      es := [Tick];
      SerialAt(After(s, CALM, es), p);
    } else {
      var round := BurstRound(s, n);
      var r := After(s, CALM, round);
      assert r.queue[p-BURST] == s.queue[p];
      BacklogValid(r, 0, 0);
      var rest := StillThere(r, p - BURST);
      AfterMore(s, CALM, round, rest, n);
      es := round + rest;
    }
  }

  // ----- such a queue in a run

  function Name(i: nat): (r: PacketId)
    ensures |r| == i
  {
    seq(i, _ => 'x')
  }

  function Uploads(k: nat): seq<Event> {
    if k == 0 then [Kick] else Uploads(k - 1) + [QueueFile(Name(k), LARGE_FILE + 1, true, true, false)]
  }

  ghost predicate Uploaded(s: Sends, k: nat) {
    Backlog(s, 0, 0) && |s.queue| == k && forall id :: id in s.queue ==> |id| <= k
  }

  lemma UploadNext(s: Sends, k: nat)
    requires Uploaded(s, k)
    ensures Uploaded(Step(s, CALM, QueueFile(Name(k + 1), LARGE_FILE + 1, true, true, false)), k + 1)
  {
    hide Linked, Window, Notified, Ledger, Ordered;
    var e := QueueFile(Name(k + 1), LARGE_FILE + 1, true, true, false);
    StepGrows(s, CALM, e);
    AcceptKeeps(s, Name(k + 1), LARGE_FILE + 1, true, true);
  }

  lemma NothingUploaded()
    ensures Inv(EMPTY) && Uploaded(Step(EMPTY, CALM, Kick), 0)
  {
    assert Run(CALM, []) == EMPTY;
    NobodyOrdered();
    StepGrows(EMPTY, CALM, Kick);
  }

  lemma {:induction false} UploadsQueue(k: nat)
    ensures Uploaded(Run(CALM, Uploads(k)), k)
  {
    hide Inv, Step, Uploaded;
    var es := Uploads(k);
    if k > 0 {
      UploadsQueue(k - 1);
      UploadNext(Run(CALM, Uploads(k - 1)), k - 1);
      assert es[..|es|-1] == Uploads(k - 1);
    } else {
      NothingUploaded();
      assert es[..0] == [] && Run(CALM, []) == EMPTY;
    }
  }

  /** The bound on the wait cannot be lowered: for every p there is a run in which
      a packet with p queued before it is still queued after one pass less. */
  lemma WaitReached(p: nat) returns (es: seq<Event>, more: seq<Event>, n: nat)
    ensures n < |Run(CALM, es).accepted| && |Before(Run(CALM, es), n)| == p
    ensures Passes(Run(CALM, es), CALM, more, n) == 2 * (p / 5 + 1) - 1
    ensures n !in Run(CALM, es + more).gone
  {
    hide Window, Notified, Ledger, Large, Passes, Before, Ordered;
    es := Uploads(p + 1);
    var s := Run(CALM, es);
    UploadsQueue(p + 1);
    BacklogValid(s, 0, 0);
    n := s.dict[s.queue[p]].serial;
    SerialAt(s, p);
    BeforeCount(s, p);
    more := StillThere(s, p);
    RunAfter(CALM, es, more);
  }
}
