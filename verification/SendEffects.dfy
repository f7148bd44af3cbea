/** What each event does to the sending half of a supplier queue: which callback
    is scheduled with which result, and for which reason, in every run. */
module SendEffects {
  import opened Sequences
  import opened SendSpec

  // ----- one pass

  /** The packet examined last, and the others. */
  lemma NoteLast(t: Tally, last: PacketId, look: Look, failed: bool)
    requires last in t.dict && last !in t.Removed() && (last in t.failedIds <==> failed)
    ensures var f, r := t.dict[last], Note1(t, last, VerdictOn(t, last, look));
      && (last in r.done ==> f.sent && f.acked && !failed && last !in r.dropped)
      && (last in r.dropped ==>
            (r.dropped[last] == if failed then Failed else if f.sent then Timeout else NotExist)
            && (f.sent && f.acked ==> failed))
      && (last in r.Removed() <==> Leaves(f, failed, look))
      && forall x :: x != last ==>
           && (x in r.done <==> x in t.done) && (x in r.dropped <==> x in t.dropped)
           && (x in r.dropped ==> r.dropped[x] == t.dropped[x])
  {
    hide RemoveFirst;
  }

  lemma {:induction false} ScanVerdict(q: seq<PacketId>, d: map<PacketId, FileToSend>, failedIds: seq<PacketId>,
      w: World, clock: nat, id: PacketId)
    requires NoDup(q) && Known(q, d) && id in q
    ensures var t, f, look := Scan(q, d, failedIds, w, clock), d[id], w.Sees(clock, id);
      && (id in t.done ==> f.sent && f.acked && id !in failedIds && id !in t.dropped)
      && (id in t.dropped ==>
            (t.dropped[id] == if id in failedIds then Failed else if f.sent then Timeout else NotExist)
            && (f.sent && f.acked ==> id in failedIds))
      && (id in t.Removed() <==> Leaves(f, id in failedIds, look))
    decreases |q|
  {
    hide Note1, VerdictOn, Leaves;
    var rest, last := q[..|q|-1], q[|q|-1];
    assert q == rest + [last];
    ScanTouches(rest, d, failedIds, w, clock);
    ScanFailedIds(rest, d, failedIds, w, clock, last);
    NoteLast(Scan(rest, d, failedIds, w, clock), last, w.Sees(clock, last), last in failedIds);
    if id != last {
      ScanVerdict(rest, d, failedIds, w, clock, id);
    }
  }

  /** The packet left with this result, and its callback for it is scheduled. */
  ghost predicate LeftAs(r: Sends, f: FileToSend, result: Outcome) {
    && f.serial in r.gone && r.gone[f.serial].result == result
    && (result == Acked && f.callOnAck ==> AckNote(f.serial) in r.scheduled)
    && (result != Acked && f.callOnFail ==> FailNote(f.serial, result) in r.scheduled)
  }

  /** What a call of the sending task makes of each queued packet. It leaves as
      failed if the transport said so; if it was sent, with its answer if there is
      one, or by timeout; if not, if its file has gone. Any other stays. */
  lemma TickOutcome(s: Sends, w: World, id: PacketId)
    requires Inv(s) && s.calls > 0 && id in s.queue
    ensures var f, look, r := s.dict[id], w.Sees(s.clock, id), Step(s, w, Tick);
      if id in s.failedIds then LeftAs(r, f, Failed)
      else if f.sent && f.acked then LeftAs(r, f, f.result)
      else if f.sent && look.late then LeftAs(r, f, Timeout)
      else if !f.sent && !look.present then LeftAs(r, f, NotExist)
      else id in r.queue && r.dict[id] == f.(sent := r.dict[id].sent) && (f.sent ==> r.dict[id].sent)
  {
    hide Window, RunSend, Fired, Scan, Without;
    TickIs(s, w);
    LinkedKnown(s.queue, s.dict);
    ScanVerdict(s.queue, s.dict, s.failedIds, w, s.clock, id);
    ScanTouches(s.queue, s.dict, s.failedIds, w, s.clock);
    PassLeaves(s, w, id);
    PassTells(s, w, id);
  }

  lemma PassShape(s: Sends, w: World)
    requires Inv(s)
    ensures Known(s.queue, s.dict)
    ensures var t, r := Scan(s.queue, s.dict, s.failedIds, w, s.clock), RunSend(s, w);
      && r.queue == Without(s.queue, t.Removed())
      && r.dict == MarkAll(t.dict, t.dropped) - t.Removed()
      && r.gone == s.gone + Leaving(MarkAll(t.dict, t.dropped), s.accepted, t.Removed())
      && r.scheduled == s.scheduled + FailNotes(t.dict, t.dropped)
  {
    hide Linked, Window, Notified, Ledger, Scan, Without, Leaving, MarkAll, FailNotes;
    LinkedKnown(s.queue, s.dict);
  }

  /** Where the pass puts a packet. */
  lemma PassLeaves(s: Sends, w: World, id: PacketId)
    requires Inv(s) && id in s.queue
    ensures Known(s.queue, s.dict)
    ensures var t, r := Scan(s.queue, s.dict, s.failedIds, w, s.clock), RunSend(s, w);
      && id in t.dict
      && (id in t.Removed() ==>
            s.dict[id].serial in r.gone
            && r.gone[s.dict[id].serial] ==
                 t.dict[id].(result := if id in t.dropped then t.dropped[id] else t.dict[id].result))
      && (id !in t.Removed() ==> id in r.queue && id in r.dict && r.dict[id] == t.dict[id])
  {
    hide Window, Notified, Scan, RunSend, NoDup, Without, Leaving, MarkAll;
    PassShape(s, w);
    ScanTouches(s.queue, s.dict, s.failedIds, w, s.clock);
    var t := Scan(s.queue, s.dict, s.failedIds, w, s.clock);
    assert s.dict[id].serial < |s.accepted| && s.accepted[s.dict[id].serial] == id;
    MarkedLeaves(t.dict, t.dropped, s.accepted, t.Removed(), id);
  }

  lemma MarkedLeaves(d: map<PacketId, FileToSend>, drops: map<PacketId, Outcome>, accepted: seq<PacketId>,
      drop: set<PacketId>, id: PacketId)
    requires id in d && d[id].serial < |accepted| && accepted[d[id].serial] == id
    ensures var e, n := MarkAll(d, drops), d[id].serial;
      && id in e && e[id] == d[id].(result := if id in drops then drops[id] else d[id].result)
      && (id in drop ==> n in Leaving(e, accepted, drop) && Leaving(e, accepted, drop)[n] == e[id])
  {
  }

  /** The callbacks that a pass schedules. */
  lemma PassTells(s: Sends, w: World, id: PacketId)
    requires Inv(s) && id in s.queue
    ensures var t, r := Scan(s.queue, s.dict, s.failedIds, w, s.clock), RunSend(s, w);
      && s.scheduled <= r.scheduled
      && (id in t.dropped && s.dict[id].callOnFail ==> FailNote(s.dict[id].serial, t.dropped[id]) in r.scheduled)
      && (s.dict[id].acked && s.dict[id].result == Acked && s.dict[id].callOnAck ==>
            AckNote(s.dict[id].serial) in r.scheduled)
      && (s.dict[id].acked && s.dict[id].result != Acked && s.dict[id].callOnFail ==>
            FailNote(s.dict[id].serial, s.dict[id].result) in r.scheduled)
  {
    hide Window, Ledger, Scan, RunSend, NoDup;
    PassShape(s, w);
    ScanTouches(s.queue, s.dict, s.failedIds, w, s.clock);
    var t := Scan(s.queue, s.dict, s.failedIds, w, s.clock);
    if id in t.dropped && s.dict[id].callOnFail {
      assert FailNote(t.dict[id].serial, t.dropped[id]) in FailNotes(t.dict, t.dropped);
    }
  }

  /** What the transport reported of packets that are not queued is kept until the
      queue is empty, and then forgotten. */
  lemma TickForgets(s: Sends, w: World, id: PacketId)
    requires Inv(s) && s.calls > 0 && id !in s.queue
    ensures var r := Step(s, w, Tick); id in r.failedIds <==> id in s.failedIds && r.queue != []
  {
    hide Linked, Window, Notified, Ledger, Scan, Fired, MarkAll, FailNotes, Leaving, Without;
    TickIs(s, w);
    LinkedKnown(s.queue, s.dict);
    ScanFailedIds(s.queue, s.dict, s.failedIds, w, s.clock, id);
  }

  /** The positions of packets not reported failed that are sent. */
  ghost function Going(q: seq<PacketId>, d: map<PacketId, FileToSend>, failedIds: seq<PacketId>): set<nat>
    requires Known(q, d)
  {
    set j: nat | j < |q| && q[j] !in failedIds && d[q[j]].sent
  }

  lemma GoingNext(q: seq<PacketId>, last: PacketId, d: map<PacketId, FileToSend>, e: map<PacketId, FileToSend>,
      failedIds: seq<PacketId>)
    requires Known(q, d) && Known(q, e) && last in e && forall id :: id in q ==> d[id] == e[id]
    ensures Known(q + [last], e)
    ensures |Going(q + [last], e, failedIds)| ==
      |Going(q, d, failedIds)| + if last !in failedIds && e[last].sent then 1 else 0
  {
    var before, after := Going(q, d, failedIds), Going(q + [last], e, failedIds);
    var own := if last !in failedIds && e[last].sent then {|q|} else {};
    forall j: nat
      ensures j in after <==> j in before + own
    {
      if j < |q| {
        assert (q + [last])[j] == q[j] && q[j] in q;
      }
    }
    assert after == before + own;
  }

  lemma NoteCounts(t: Tally, last: PacketId, look: Look, failed: bool)
    requires last in t.dict && (last in t.failedIds <==> failed)
    ensures var r := Note1(t, last, VerdictOn(t, last, look));
      && r.count == t.count + (if !failed && r.dict[last].sent then 1 else 0)
      && (forall x :: x in t.dict && x != last ==> r.dict[x] == t.dict[x])
      && (!failed && !t.dict[last].sent && look.present ==>
            (r.dict[last].sent <==>
               t.count <= FILE_SEND_MAX_LENGTH || (look.sizeKnown && t.dict[last].size <= LARGE_FILE)))
  {
    hide RemoveFirst;
  }

  /** The count of a pass is the number of packets going out or under way. */
  lemma {:induction false} ScanCounts(q: seq<PacketId>, d: map<PacketId, FileToSend>, failedIds: seq<PacketId>,
      w: World, clock: nat)
    requires NoDup(q) && Known(q, d)
    ensures var t := Scan(q, d, failedIds, w, clock);
      Known(q, t.dict) && t.count == |Going(q, t.dict, failedIds)|
    decreases |q|
  {
    hide Going, Note1, VerdictOn;
    if q == [] {
      NobodyGoing(d, failedIds);
    } else {
      var rest, last := q[..|q|-1], q[|q|-1];
      assert q == rest + [last];
      var t := Scan(rest, d, failedIds, w, clock);
      ScanCounts(rest, d, failedIds, w, clock);
      ScanFailedIds(rest, d, failedIds, w, clock, last);
      NoteCounts(t, last, w.Sees(clock, last), last in failedIds);
      GoingNext(rest, last, t.dict, Scan(q, d, failedIds, w, clock).dict, failedIds);
    }
  }

  lemma NobodyGoing(d: map<PacketId, FileToSend>, failedIds: seq<PacketId>)
    ensures Going([], d, failedIds) == {}
  {
  }

  lemma ExaminedOnce(q: seq<PacketId>, k: nat)
    requires NoDup(q) && k < |q|
    ensures q[k] !in q[..k] && NoDup(q[..k]) && forall j :: 0 <= j < k ==> q[j] != q[k]
  {
  }

  lemma NoteOthers(t: Tally, last: PacketId, look: Look, x: PacketId)
    requires last in t.dict && x in t.dict && x != last
    ensures Note1(t, last, VerdictOn(t, last, look)).dict[x] == t.dict[x]
  {
    hide RemoveFirst;
  }

  /** What is decided about position j stands when the pass goes on. */
  lemma {:induction false} ScanStays(q: seq<PacketId>, d: map<PacketId, FileToSend>, failedIds: seq<PacketId>,
      w: World, clock: nat, k: nat, n: nat, j: nat)
    requires NoDup(q) && Known(q, d) && j < k <= n <= |q|
    ensures Scan(q[..k], d, failedIds, w, clock).dict[q[j]] == Scan(q[..n], d, failedIds, w, clock).dict[q[j]]
    decreases n
  {
    hide Scan, Note1, VerdictOn;
    if k < n {
      ScanStays(q, d, failedIds, w, clock, k, n - 1, j);
      ScanNext(q, d, failedIds, w, clock, n - 1);
      assert q[j] != q[n-1];
      NoteOthers(Scan(q[..n-1], d, failedIds, w, clock), q[n-1], w.Sees(clock, q[n-1]), q[j]);
    }
  }

  /** n has been sent, be it gone or not. */
  predicate WasSent(s: Sends, n: nat) {
    if n in s.gone then s.gone[n].sent
    else n < |s.accepted| && s.accepted[n] in s.dict && s.dict[s.accepted[n]].sent
  }

  /** A call of the sending task sends a waiting packet exactly if it is known to
      be small, or at most four packets before it, not counting those reported
      failed, have been sent or go out now. */
  lemma TickSendsExactly(s: Sends, w: World, k: nat)
    requires Inv(s) && s.calls > 0 && k < |s.queue| && s.queue[k] in s.dict && s.queue[k] !in s.failedIds
    requires !s.dict[s.queue[k]].sent && w.Sees(s.clock, s.queue[k]).present
    ensures var r, f := Step(s, w, Tick), s.dict[s.queue[k]];
      var ahead := set j: nat | j < k && s.queue[j] in s.dict && s.queue[j] !in s.failedIds
                                && WasSent(r, s.dict[s.queue[j]].serial);
      && s.queue[k] in r.dict
      && (r.dict[s.queue[k]].sent <==>
            |ahead| <= 4 || (w.Sees(s.clock, s.queue[k]).sizeKnown && f.size <= 10240))
  {
    hide Window, Notified, Ledger, RunSend, Fired, Scan, Leaves, NoDup, WasSent;
    var q, r := s.queue, Step(s, w, Tick);
    TickIs(s, w);
    LinkedKnown(q, s.dict);
    var t := Scan(q, s.dict, s.failedIds, w, s.clock);
    AheadIs(s, w, k);
    SameSent(RunSend(s, w), r);
    assert (set j: nat | j < k && q[j] in s.dict && q[j] !in s.failedIds && WasSent(r, s.dict[q[j]].serial))
        == set j: nat | j < k && q[j] in s.dict && q[j] !in s.failedIds && WasSent(RunSend(s, w), s.dict[q[j]].serial);
    ScanDecides(s, w, k);
    PassLeaves(s, w, q[k]);
    ScanVerdict(q, s.dict, s.failedIds, w, s.clock, q[k]);
    StaysWaiting(s.dict[q[k]], w.Sees(s.clock, q[k]));
  }

  lemma SameSent(s: Sends, r: Sends)
    requires r.gone == s.gone && r.dict == s.dict && r.accepted == s.accepted
    ensures forall n :: WasSent(r, n) == WasSent(s, n)
  {
  }

  /** Those ahead of position k that are sent by the end of the pass. */
  lemma AheadIs(s: Sends, w: World, k: nat)
    requires Inv(s) && k < |s.queue|
    ensures Known(s.queue, s.dict)
    ensures var q, r := s.queue, RunSend(s, w);
      Scan(q[..k], s.dict, s.failedIds, w, s.clock).count ==
        |set j: nat | j < k && q[j] in s.dict && q[j] !in s.failedIds && WasSent(r, s.dict[q[j]].serial)|
  {
    hide Window, Notified, Ledger, RunSend, Scan, WasSent, NoDup;
    var q, r := s.queue, RunSend(s, w);
    LinkedKnown(q, s.dict);
    assert q[..|q|] == q;
    ExaminedOnce(q, k);
    ScanCounts(q[..k], s.dict, s.failedIds, w, s.clock);
    var u := Scan(q[..k], s.dict, s.failedIds, w, s.clock);
    forall j: nat | j < k
      ensures q[..k][j] == q[j] && q[j] in s.dict && WasSent(r, s.dict[q[j]].serial) == u.dict[q[j]].sent
    {
      PassSent(s, w, q[j]);
      ScanStays(q, s.dict, s.failedIds, w, s.clock, k, |q|, j);
    }
    assert (set j: nat | j < k && q[j] in s.dict && q[j] !in s.failedIds && WasSent(r, s.dict[q[j]].serial))
        == Going(q[..k], u.dict, s.failedIds);
  }

  lemma StaysWaiting(f: FileToSend, look: Look)
    requires !f.sent && look.present
    ensures !Leaves(f, false, look)
  {
  }

  lemma PassSent(s: Sends, w: World, id: PacketId)
    requires Inv(s) && id in s.queue
    ensures Known(s.queue, s.dict)
    ensures WasSent(RunSend(s, w), s.dict[id].serial)
         == Scan(s.queue, s.dict, s.failedIds, w, s.clock).dict[id].sent
  {
    hide Window, Notified, RunSend, Scan, NoDup;
    PassLeaves(s, w, id);
    RunSendInv(s, w);
    PassAccepted(s, w);
    ScanTouches(s.queue, s.dict, s.failedIds, w, s.clock);
    assert s.accepted[s.dict[id].serial] == id;
  }

  lemma PassAccepted(s: Sends, w: World)
    requires Inv(s)
    ensures RunSend(s, w).accepted == s.accepted
  {
  }

  lemma ScanDecides(s: Sends, w: World, k: nat)
    requires Inv(s) && k < |s.queue| && s.queue[k] in s.dict && s.queue[k] !in s.failedIds
    requires !s.dict[s.queue[k]].sent && w.Sees(s.clock, s.queue[k]).present
    ensures Known(s.queue, s.dict)
    ensures var f, look := s.dict[s.queue[k]], w.Sees(s.clock, s.queue[k]);
      Scan(s.queue, s.dict, s.failedIds, w, s.clock).dict[s.queue[k]].sent <==>
        Scan(s.queue[..k], s.dict, s.failedIds, w, s.clock).count <= FILE_SEND_MAX_LENGTH
        || (look.sizeKnown && f.size <= LARGE_FILE)
  {
    hide Window, Notified, Ledger, Scan, NoDup;
    LinkedKnown(s.queue, s.dict);
    PrefixDecides(s.queue, s.dict, s.failedIds, w, s.clock, k);
    ScanStays(s.queue, s.dict, s.failedIds, w, s.clock, k + 1, |s.queue|, k);
    assert s.queue[..|s.queue|] == s.queue;
  }

  /** When the pass comes to position k. */
  lemma PrefixDecides(q: seq<PacketId>, d: map<PacketId, FileToSend>, failedIds: seq<PacketId>, w: World, clock: nat,
      k: nat)
    requires NoDup(q) && Known(q, d) && k < |q| && q[k] !in failedIds && !d[q[k]].sent && w.Sees(clock, q[k]).present
    ensures Scan(q[..k+1], d, failedIds, w, clock).dict[q[k]].sent <==>
      Scan(q[..k], d, failedIds, w, clock).count <= FILE_SEND_MAX_LENGTH
      || (w.Sees(clock, q[k]).sizeKnown && d[q[k]].size <= LARGE_FILE)
  {
    hide Scan, Note1, VerdictOn, NoDup;
    var t := Scan(q[..k], d, failedIds, w, clock);
    ScanNext(q, d, failedIds, w, clock, k);
    ExaminedOnce(q, k);
    ScanFailedIds(q[..k], d, failedIds, w, clock, q[k]);
    ScanTouches(q[..k], d, failedIds, w, clock);
    NoteCounts(t, q[k], w.Sees(clock, q[k]), false);
  }

  // ----- answers, reports of the transport, new packets

  lemma DoSendTells(s: Sends, w: World)
    requires Inv(s)
    ensures var r := DoSend(s, w);
      && s.scheduled <= r.scheduled && r.accepted == s.accepted
      && (s.task ==> r.queue == s.queue && r.dict == s.dict && r.failedIds == s.failedIds && r.gone == s.gone)
      && (s.task ==> r.scheduled == s.scheduled)
  {
    hide Linked, Window, Notified, Ledger, RunSend;
    PassKeepsNotes(s, w);
    PassAccepted(s, w);
  }

  lemma PassKeepsNotes(s: Sends, w: World)
    requires Inv(s)
    ensures s.scheduled <= RunSend(s, w).scheduled
  {
    hide FailNotes;
    PassShape(s, w);
  }

  /** An Ack is told as an Ack and a Fail as a failure, whatever comes of the pass
      that the answer may start; and an answer to no queued packet does nothing. */
  lemma AnswerTold(s: Sends, w: World, id: PacketId, isAck: bool)
    requires Inv(s)
    ensures var r := Step(s, w, Answer(id, isAck));
      && (id !in s.queue ==> r == s)
      && (id in s.queue ==>
            var f := s.dict[id];
            && (isAck && f.callOnAck ==> AckNote(f.serial) in r.scheduled)
            && (!isAck && f.callOnFail ==> FailNote(f.serial, Failed) in r.scheduled)
            && (s.task ==> id in r.dict && r.dict[id] == f.(acked := true, result := r.dict[id].result)
                           && (r.dict[id].result == if isAck then Acked else Failed)
                           && forall x :: x in r.dict && x != id ==> x in s.dict && r.dict[x] == s.dict[x]))
  {
    hide Linked, Window, Notified, Ledger, DoSend;
    InvKnown(s);
    if id in s.queue {
      var f := s.dict[id].(acked := true, result := if isAck then Acked else Failed);
      ConcludeKeeps(s, f);
      DoSendTells(Conclude(s, f), w);
    }
  }

  /** The transport could not send a queued packet: with the loop running that is
      noted for the next pass, and otherwise a pass reports it at once. */
  lemma StatusNoted(s: Sends, w: World, id: PacketId, finished: bool)
    requires Inv(s)
    ensures var r := Step(s, w, Status(id, finished));
      && (finished || id !in s.queue ==> r == s)
      && (!finished && id in s.queue ==>
            if s.task then r.failedIds == s.failedIds + [id] && r.queue == s.queue && r.dict == s.dict
            else LeftAs(r, s.dict[id], Failed))
  {
    hide Linked, Window, Notified, Ledger, DoSend, RunSend, Leaves;
    InvKnown(s);
    if !finished && id in s.queue {
      var s1 := s.(failedIds := s.failedIds + [id]);
      DoSendTells(s1, w);
      if !s.task {
        FailedLeaves(s1, w, id);
        StartsPass(s1, w);
      }
    }
  }

  lemma StartsPass(s: Sends, w: World)
    requires Inv(s) && !s.task
    ensures DoSend(s, w) == Arm(RunSend(s, w), w)
  {
  }

  lemma FailedLeaves(s: Sends, w: World, id: PacketId)
    requires Inv(s) && id in s.queue && id in s.dict && id in s.failedIds
    ensures LeftAs(RunSend(s, w), s.dict[id], Failed)
  {
    hide Window, Notified, Ledger, RunSend, Scan, NoDup;
    ScanVerdict(s.queue, s.dict, s.failedIds, w, s.clock, id);
    FailedDropped(s, w, id);
    PassLeaves(s, w, id);
    PassTells(s, w, id);
  }

  lemma FailedDropped(s: Sends, w: World, id: PacketId)
    requires Inv(s) && id in s.queue && id in s.failedIds
    ensures Known(s.queue, s.dict) && id in Scan(s.queue, s.dict, s.failedIds, w, s.clock).dropped
  {
    hide Window, Notified, Ledger, Scan;
    LinkedKnown(s.queue, s.dict);
    ScanVerdict(s.queue, s.dict, s.failedIds, w, s.clock, id);
  }

  /** A new packet is refused, with its reason, or appended with what was given. */
  lemma QueueFileExact(s: Sends, w: World, id: PacketId, size: nat, callOnAck: bool, callOnFail: bool, offline: bool)
    requires Inv(s)
    ensures var r := Step(s, w, QueueFile(id, size, callOnAck, callOnFail, offline));
      if offline || id in s.queue then
        && r.queue == s.queue && r.dict == s.dict && r.accepted == s.accepted && r.gone == s.gone
        && r.scheduled == s.scheduled
             + if callOnFail then {RefusalNote(id, if offline then Offline else InQueue)} else {}
      else
        && r.accepted == s.accepted + [id]
        && (|s.accepted| in r.gone || (id in r.queue && r.dict[id].serial == |s.accepted|))
        && (s.task ==> r.queue == s.queue + [id])
        && (id in r.dict ==>
              && r.dict[id].size == size && r.dict[id].callOnAck == callOnAck && r.dict[id].callOnFail == callOnFail
              && r.dict[id].result == NoOutcome && !r.dict[id].acked)
  {
    hide Linked, Window, Notified, Ledger, DoSend, RunSend;
    if !offline && id !in s.queue {
      AcceptKeeps(s, id, size, callOnAck, callOnFail);
      var s1 := Accept(s, id, size, callOnAck, callOnFail);
      DoSendTells(s1, w);
      if !s.task {
        StartsPass(s1, w);
        PassLeaves(s1, w, id);
        ScanTouches(s1.queue, s1.dict, s1.failedIds, w, s1.clock);
        PassShape(s1, w);
        RemovedGone(s1, w, id);
      }
    }
  }

  lemma RemovedGone(s: Sends, w: World, id: PacketId)
    requires Inv(s) && id in s.queue
    ensures Known(s.queue, s.dict)
    ensures id in Scan(s.queue, s.dict, s.failedIds, w, s.clock).Removed() ==> id !in RunSend(s, w).dict
  {
    hide Linked, Window, Notified, Ledger, RunSend, Scan;
    PassShape(s, w);
  }

  // ----- the loop stays alive

  /** The task refers to a call to come, and if anything was accepted, one is. */
  ghost predicate Alive(s: Sends) {
    (s.task ==> s.calls > 0) && (s.accepted != [] ==> s.calls > 0)
  }

  lemma DoSendCalls(s: Sends, w: World)
    requires Inv(s) && (s.task ==> s.calls > 0)
    ensures var r := DoSend(s, w);
      && r.calls > 0 && r.calls >= s.calls && (r.task ==> r.calls > 0) && r.accepted == s.accepted
      && (s.task ==> r.task == !s.slow && r.calls == s.calls)
      && (!s.task ==> r.task && r.calls > s.calls)
  {
    hide Linked, Window, Notified, Ledger, RunSend;
    PassAccepted(s, w);
    PassCalls(s, w);
  }

  lemma PassCalls(s: Sends, w: World)
    requires Inv(s)
    ensures RunSend(s, w).calls >= s.calls
  {
    hide Linked, Window, Notified, Ledger, Scan, MarkAll, FailNotes, Leaving, Without;
    LinkedKnown(s.queue, s.dict);
  }

  lemma FailReceivedCalls(s: Sends, w: World, id: PacketId)
    requires Inv(s) && Alive(s)
    ensures var r := FailReceived(s, w, id, DeleteRequest); Alive(r) && r.calls >= s.calls
  {
    hide Linked, Window, Notified, Ledger, DoSend;
    if id in s.dict {
      InvNames(s);
      var f := s.dict[id].(result := DeleteRequest);
      ConcludeKeeps(s, f);
      DoSendCalls(Conclude(s, f), w);
    }
  }

  lemma InvNames(s: Sends)
    requires Inv(s)
    ensures forall id :: id in s.dict ==> s.dict[id].id == id
  {
  }

  lemma {:induction false} DeleteScanCalls(s: Sends, w: World, name: string, i: nat, marked: set<PacketId>)
    requires Inv(s) && Reported(s, marked) && Alive(s)
    ensures var r := DeleteScan(s, w, name, i, marked).0; Alive(r) && r.calls >= s.calls
    decreases |s.queue| - i
  {
    hide Inv, Mentions, FailReceived, Reported, Alive;
    if i < |s.queue| {
      if Mentions(s.queue[i], name) {
        var s1 := FailReceived(s, w, s.queue[i], DeleteRequest);
        ReportRound(s, w, name, i, marked);
        FailReceivedCalls(s, w, s.queue[i]);
        DeleteScanCalls(s1, w, name, i + 1, marked + {s.queue[i]});
      } else {
        QuietRound(s, w, name, i, marked);
        DeleteScanCalls(s, w, name, i + 1, marked);
      }
    }
  }

  /** No step ends a loop of calls, and every step leaves one if there is work. */
  lemma StepLives(s: Sends, w: World, e: Event)
    requires Inv(s) && Alive(s)
    ensures Alive(Step(s, w, e)) && Step(s, w, e).calls >= s.calls
  {
    hide Linked, Window, Notified, Ledger, DoSend, SendingTask, DeleteScan, RunSend;
    match e
    case QueueFile(id, size, onAck, onFail, offline) =>
      if !offline && id !in s.queue {
        AcceptKeeps(s, id, size, onAck, onFail);
        DoSendCalls(Accept(s, id, size, onAck, onFail), w);
      }
    case Tick =>
      if s.calls > 0 {
        TickIs(s, w);
        PassCalls(s, w);
        PassAccepted(s, w);
      }
    case Kick => DoSendCalls(s, w);
    case Answer(id, isAck) =>
      if id in s.queue {
        InvKnown(s);
        var f := s.dict[id].(acked := true, result := if isAck then Acked else Failed);
        ConcludeKeeps(s, f);
        DoSendCalls(Conclude(s, f), w);
      }
    case Status(id, finished) =>
      if !finished && id in s.queue {
        DoSendCalls(s.(failedIds := s.failedIds + [id]), w);
      }
    case Delete(name) => DeleteScanCalls(s, w, name, 0, {});
  }

  /** In every reachable state, a call of the sending task is to come if anything
      was ever accepted: the sending loop never dies. */
  lemma {:induction false} SendLoopLives(w: World, es: seq<Event>)
    ensures Run(w, es).accepted != [] ==> Run(w, es).calls > 0
    ensures Run(w, es).task ==> Run(w, es).calls > 0
  {
    hide Inv, Step;
    if es != [] {
      SendLoopLives(w, es[..|es|-1]);
      StepLives(Run(w, es[..|es|-1]), w, es[|es|-1]);
    }
  }

  /** What should wake a slow loop leaves it without a task, so that the next such
      event runs a pass at once; and two in a row, before the call posted has
      come, leave one loop more, for good. */
  lemma SlowLoop(s: Sends, w: World)
    requires Inv(s) && s.task && s.slow && s.calls > 0
    ensures var a, b := Step(s, w, Kick), Step(Step(s, w, Kick), w, Kick);
      && !a.task && a.calls == s.calls
      && b.task && b.calls > s.calls && b.queue == RunSend(a, w).queue
  {
    hide Linked, Window, Notified, Ledger, RunSend;
    DoSendCalls(s, w);
    DoSendCalls(DoSend(s, w), w);
  }

  // ----- no callback without a cause

  ghost predicate FailReason(w: World, es: seq<Event>, id: PacketId, why: Outcome) {
    match why
    case Failed => Answer(id, false) in es || Status(id, false) in es
    case Timeout => exists clock :: w.Sees(clock, id).late
    case NotExist => exists clock :: !w.Sees(clock, id).present
    case DeleteRequest => exists e :: e in es && e.Delete? && Mentions(id, e.name)
    case _ => false
  }

  ghost predicate RefusalReason(es: seq<Event>, id: PacketId, reason: Refusal) {
    exists e :: e in es && e.QueueFile? && e.id == id && e.callOnFail && (e.offline <==> reason == Offline)
  }

  ghost predicate Because(w: World, es: seq<Event>, accepted: seq<PacketId>, note: Note) {
    match note
    case AckNote(n) => n < |accepted| && Answer(accepted[n], true) in es
    case FailNote(n, why) => n < |accepted| && FailReason(w, es, accepted[n], why)
    case RefusalNote(id, reason) => RefusalReason(es, id, reason)
  }

  ghost predicate Justified(w: World, es: seq<Event>, s: Sends) {
    && (forall note :: note in s.scheduled ==> Because(w, es, s.accepted, note))
    && forall id :: id in s.failedIds ==> Status(id, false) in es
  }

  lemma BecauseLater(w: World, es: seq<Event>, e: Event, accepted: seq<PacketId>, more: seq<PacketId>, note: Note)
    requires Because(w, es, accepted, note) && accepted <= more
    ensures Because(w, es + [e], more, note)
  {
    hide Mentions;
  }

  lemma JustifiedLater(w: World, es: seq<Event>, e: Event, s: Sends)
    requires Justified(w, es, s)
    ensures Justified(w, es + [e], s)
  {
    hide Because;
    forall note | note in s.scheduled
      ensures Because(w, es + [e], s.accepted, note)
    {
      BecauseLater(w, es, e, s.accepted, s.accepted, note);
    }
  }

  lemma {:induction false} ScanForgets(q: seq<PacketId>, d: map<PacketId, FileToSend>, failedIds: seq<PacketId>,
      w: World, clock: nat)
    requires Known(q, d)
    ensures forall id :: id in Scan(q, d, failedIds, w, clock).failedIds ==> id in failedIds
    decreases |q|
  {
    if q != [] {
      ScanForgets(q[..|q|-1], d, failedIds, w, clock);
    }
  }

  lemma DroppedBecause(w: World, es: seq<Event>, s: Sends, id: PacketId)
    requires Inv(s) && Justified(w, es, s) && id in s.queue
    ensures Known(s.queue, s.dict)
    ensures var t := Scan(s.queue, s.dict, s.failedIds, w, s.clock);
      id in t.dropped ==> FailReason(w, es, id, t.dropped[id])
  {
    hide Window, Notified, Ledger, Scan, Because, Mentions;
    LinkedKnown(s.queue, s.dict);
    ScanVerdict(s.queue, s.dict, s.failedIds, w, s.clock, id);
  }

  lemma PassJustified(w: World, es: seq<Event>, s: Sends)
    requires Inv(s) && Justified(w, es, s)
    ensures Justified(w, es, RunSend(s, w))
  {
    hide Linked, Window, Notified, Ledger, RunSend, Scan, Because, Without, Leaving, FailNotes;
    PassShape(s, w);
    PassAccepted(s, w);
    PassFailedIds(s, w);
    FailNotesBecause(w, es, s);
  }

  lemma FailNotesBecause(w: World, es: seq<Event>, s: Sends)
    requires Inv(s) && Justified(w, es, s)
    ensures Known(s.queue, s.dict)
    ensures var t := Scan(s.queue, s.dict, s.failedIds, w, s.clock);
      forall note :: note in FailNotes(t.dict, t.dropped) ==> Because(w, es, s.accepted, note)
  {
    hide Window, Notified, Scan, FailReason, RefusalReason, NoDup, Justified;
    LinkedKnown(s.queue, s.dict);
    var t := Scan(s.queue, s.dict, s.failedIds, w, s.clock);
    ScanTouches(s.queue, s.dict, s.failedIds, w, s.clock);
    forall note | note in FailNotes(t.dict, t.dropped)
      ensures Because(w, es, s.accepted, note)
    {
      var id :| id in t.dropped && id in t.dict && note == FailNote(t.dict[id].serial, t.dropped[id]);
      assert id in s.queue && s.accepted[s.dict[id].serial] == id;
      DroppedBecause(w, es, s, id);
    }
  }

  lemma PassFailedIds(s: Sends, w: World)
    requires Inv(s)
    ensures forall id :: id in RunSend(s, w).failedIds ==> id in s.failedIds
  {
    hide Linked, Window, Notified, Ledger, Scan, MarkAll, FailNotes, Leaving, Without;
    LinkedKnown(s.queue, s.dict);
    ScanForgets(s.queue, s.dict, s.failedIds, w, s.clock);
  }

  lemma DoSendJustified(w: World, es: seq<Event>, s: Sends)
    requires Inv(s) && Justified(w, es, s)
    ensures Justified(w, es, DoSend(s, w))
  {
    hide Linked, Window, Notified, Ledger, RunSend, Because;
    PassJustified(w, es, s);
  }

  /** A result recorded with a cause. */
  lemma ConcludeJustified(w: World, es: seq<Event>, s: Sends, f: FileToSend)
    requires Inv(s) && Justified(w, es, s) && f.id in s.dict && f.serial == s.dict[f.id].serial
    requires f.result == Acked ==> Answer(f.id, true) in es
    requires f.result != Acked ==> FailReason(w, es, f.id, f.result)
    ensures Justified(w, es, Conclude(s, f))
  {
    hide Linked, Window, Notified, FailReason, RefusalReason;
    assert f.serial < |s.accepted| && s.accepted[f.serial] == f.id;
  }

  lemma FailReceivedJustified(w: World, es: seq<Event>, s: Sends, id: PacketId, name: string)
    requires Inv(s) && Justified(w, es, s) && Delete(name) in es && Mentions(id, name)
    ensures Justified(w, es, FailReceived(s, w, id, DeleteRequest))
  {
    hide Linked, Window, Notified, Ledger, DoSend, Because, Mentions;
    if id in s.dict {
      InvNames(s);
      var f := s.dict[id].(result := DeleteRequest);
      ConcludeKeeps(s, f);
      ConcludeJustified(w, es, s, f);
      DoSendJustified(w, es, Conclude(s, f));
    }
  }

  lemma {:induction false} DeleteScanJustified(w: World, es: seq<Event>, s: Sends, name: string, i: nat,
      marked: set<PacketId>)
    requires Inv(s) && Reported(s, marked) && Justified(w, es, s) && Delete(name) in es
    ensures Justified(w, es, DeleteScan(s, w, name, i, marked).0)
    decreases |s.queue| - i
  {
    hide Inv, Mentions, FailReceived, Reported, Justified;
    if i < |s.queue| {
      if Mentions(s.queue[i], name) {
        var s1 := FailReceived(s, w, s.queue[i], DeleteRequest);
        ReportRound(s, w, name, i, marked);
        FailReceivedJustified(w, es, s, s.queue[i], name);
        DeleteScanJustified(w, es, s1, name, i + 1, marked + {s.queue[i]});
      } else {
        QuietRound(s, w, name, i, marked);
        DeleteScanJustified(w, es, s, name, i + 1, marked);
      }
    }
  }

  lemma SendFileJustified(w: World, es: seq<Event>, s: Sends, e: Event)
    requires Inv(s) && Justified(w, es, s) && e.QueueFile? && e in es
    ensures Justified(w, es, Step(s, w, e))
  {
    hide Linked, Window, Notified, Ledger, DoSend, FailReason;
    var accepted := s.accepted + [e.id];
    if !e.offline && e.id !in s.queue {
      AcceptKeeps(s, e.id, e.size, e.callOnAck, e.callOnFail);
      DoSendJustified(w, es, Accept(s, e.id, e.size, e.callOnAck, e.callOnFail));
    }
  }

  lemma AnswerJustified(w: World, es: seq<Event>, s: Sends, id: PacketId, isAck: bool)
    requires Inv(s) && Justified(w, es, s) && Answer(id, isAck) in es
    ensures Justified(w, es, AckReceived(s, w, id, isAck))
  {
    hide Linked, Window, Notified, Ledger, DoSend, Because, Mentions;
    if id in s.queue {
      InvKnown(s);
      var f := s.dict[id].(acked := true, result := if isAck then Acked else Failed);
      ConcludeKeeps(s, f);
      ConcludeJustified(w, es, s, f);
      DoSendJustified(w, es, Conclude(s, f));
    }
  }

  lemma StepJustified(w: World, es: seq<Event>, s: Sends, e: Event)
    requires Inv(s) && Justified(w, es, s) && e in es
    ensures Justified(w, es, Step(s, w, e))
  {
    hide Linked, Window, Notified, Ledger, DoSend, SendFile, AckReceived, DeleteScan, RunSend, Because;
    match e
    case QueueFile(id, size, onAck, onFail, offline) => SendFileJustified(w, es, s, e);
    case Tick =>
      if s.calls > 0 {
        TickIs(s, w);
        PassJustified(w, es, s);
      }
    case Kick => DoSendJustified(w, es, s);
    case Answer(id, isAck) => AnswerJustified(w, es, s, id, isAck);
    case Status(id, finished) =>
      if !finished && id in s.queue {
        DoSendJustified(w, es, s.(failedIds := s.failedIds + [id]));
      }
    case Delete(name) => DeleteScanJustified(w, es, s, name, 0, {});
  }

  lemma {:induction false} RunJustified(w: World, es: seq<Event>)
    ensures Justified(w, es, Run(w, es))
  {
    hide Inv, Step, Justified;
    if es == [] {
      NothingScheduled(w);
    } else {
      var rest, e := es[..|es|-1], es[|es|-1];
      RunJustified(w, rest);
      assert rest + [e] == es;
      JustifiedLater(w, rest, e, Run(w, rest));
      StepJustified(w, es, Run(w, rest), e);
    }
  }

  lemma NothingScheduled(w: World)
    ensures Justified(w, [], EMPTY)
  {
  }

  /** In every run, a callback tells of something that happened: an Ack, a Fail, a
      report of the transport, a timeout, a file that was not there, a deletion by
      a name that the packet ID contains, or a refusal with its reason. */
  lemma CallbacksCaused(w: World, es: seq<Event>, n: nat, why: Outcome, id: PacketId, reason: Refusal)
    ensures var s := Run(w, es);
      && (AckNote(n) in s.scheduled ==> n < |s.accepted| && Answer(s.accepted[n], true) in es)
      && (FailNote(n, why) in s.scheduled ==> n < |s.accepted| && FailReason(w, es, s.accepted[n], why))
      && (RefusalNote(id, reason) in s.scheduled ==> RefusalReason(es, id, reason))
  {
    hide FailReason, RefusalReason;
    RunJustified(w, es);
  }
}
