/** The sending half of a supplier queue on values: what a sending pass, an
    acknowledgement, a failure report and a deletion do to the queue, its
    dictionary and the callbacks handed to the reactor, and what every such
    step keeps. The class SupplierQueue is proved against these functions. */
module SendSpec {
  import opened Sequences

  type PacketId = string

  const FILE_SEND_MAX_LENGTH: nat := 4
  const LARGE_FILE: nat := 1024 * 10

  datatype Outcome = NoOutcome | Acked | Failed | Timeout | NotExist | DeleteRequest

  datatype Refusal = Offline | InQueue

  /** A callback passed to reactor.callLater(0, ...). The serial number stands
      for the identity of the FileToSend object it belongs to. */
  datatype Note =
    | AckNote(serial: nat)
    | FailNote(serial: nat, why: Outcome)
    | RefusalNote(id: PacketId, reason: Refusal)

  datatype FileToSend = FileToSend(
    serial: nat, id: PacketId, size: nat, callOnAck: bool, callOnFail: bool,
    sent: bool, acked: bool, result: Outcome)

  /** What one pass sees of one packet: is the file on disk, can its size be
      read, and has the acknowledgement timeout run out. */
  datatype Look = Look(present: bool, sizeKnown: bool, late: bool)

  /** Everything the queue cannot control, indexed by a logical clock: what is
      seen of a packet (present, readable and in time unless listed), and when
      the attenuated delay exceeds one second. A run asks finitely often, so
      finite tables cover every environment. */
  datatype World = World(looks: map<(nat, PacketId), Look>, slowAt: set<nat>) {
    function Sees(clock: nat, id: PacketId): Look {
      if (clock, id) in looks then looks[(clock, id)] else Look(true, true, false)
    }

    predicate Slow(clock: nat) {
      clock in slowAt
    }
  }

  /** accepted is the history of accepted packets (a packet's serial number is
      its index), gone holds each packet as it was when it left the queue; calls
      counts the calls of SendingTask that are to come. */
  datatype Sends = Sends(
    queue: seq<PacketId>,
    dict: map<PacketId, FileToSend>,
    failedIds: seq<PacketId>,
    scheduled: set<Note>,
    accepted: seq<PacketId>,
    gone: map<nat, FileToSend>,
    task: bool,
    slow: bool,
    calls: nat,
    clock: nat)

  const EMPTY := Sends([], map[], [], {}, [], map[], false, false, 0, 0)

  // ----- invariants

  ghost predicate Known(q: seq<PacketId>, d: map<PacketId, FileToSend>) {
    forall id :: id in q ==> id in d
  }

  ghost predicate Linked(q: seq<PacketId>, d: map<PacketId, FileToSend>) {
    && NoDup(q)
    && (forall id :: id in q <==> id in d)
    && (forall id :: id in d ==> d[id].id == id)
  }

  predicate BigSent(f: FileToSend) {
    f.sent && f.size > LARGE_FILE
  }

  /** A sent large packet has at most FILE_SEND_MAX_LENGTH packets queued ahead
      of it, and all of those are sent. */
  ghost predicate Window(q: seq<PacketId>, d: map<PacketId, FileToSend>)
    requires Known(q, d)
  {
    && (forall j :: 0 <= j < |q| && BigSent(d[q[j]]) ==> j <= FILE_SEND_MAX_LENGTH)
    && (forall j, k :: 0 <= k < j < |q| && BigSent(d[q[j]]) ==> d[q[k]].sent)
  }

  /** The callback matching the packet's result has been scheduled. */
  ghost predicate Told(f: FileToSend, scheduled: set<Note>) {
    && (f.result == Acked && f.callOnAck ==> AckNote(f.serial) in scheduled)
    && (f.result != Acked && f.result != NoOutcome && f.callOnFail ==>
          FailNote(f.serial, f.result) in scheduled)
  }

  ghost predicate Notified(d: map<PacketId, FileToSend>, gone: map<nat, FileToSend>, scheduled: set<Note>) {
    && (forall id :: id in d ==> Told(d[id], scheduled))
    && (forall id :: id in d && d[id].acked ==> d[id].result != NoOutcome)
    && (forall n :: n in gone ==> Told(gone[n], scheduled) && gone[n].result != NoOutcome)
  }

  /** Every accepted packet is queued or gone, and never both. */
  ghost predicate Ledger(d: map<PacketId, FileToSend>, accepted: seq<PacketId>, gone: map<nat, FileToSend>) {
    && (forall id :: id in d ==>
          d[id].serial < |accepted| && accepted[d[id].serial] == id && d[id].serial !in gone)
    && (forall n :: n in gone ==>
          n < |accepted| && gone[n].serial == n && gone[n].id == accepted[n])
    && (forall n :: 0 <= n < |accepted| && n !in gone ==>
          accepted[n] in d && d[accepted[n]].serial == n)
  }

  ghost predicate Inv(s: Sends) {
    && Linked(s.queue, s.dict) && Window(s.queue, s.dict)
    && Ledger(s.dict, s.accepted, s.gone) && Notified(s.dict, s.gone, s.scheduled)
  }

  // ----- one sending pass

  /** What a pass decides about one packet. */
  datatype Verdict = Drop(why: Outcome) | Done | Wait | Hold | SendNow

  predicate Removes(v: Verdict) {
    v.Drop? || v.Done?
  }

  predicate Counts(v: Verdict) {
    v.Done? || v.Wait? || v.SendNow? || v == Drop(Timeout)
  }

  function Judge(f: FileToSend, failed: bool, look: Look, count: nat): Verdict {
    if failed then Drop(Failed)
    else if f.sent then
      if f.acked then Done else if look.late then Drop(Timeout) else Wait
    else if !look.present then Drop(NotExist)
    else if count > FILE_SEND_MAX_LENGTH && (!look.sizeKnown || f.size > LARGE_FILE) then Hold
    else SendNow
  }

  /** The local variables of a pass. */
  datatype Tally = Tally(
    dict: map<PacketId, FileToSend>,
    failedIds: seq<PacketId>,
    dropped: map<PacketId, Outcome>,
    done: set<PacketId>,
    count: nat)
  {
    function Removed(): set<PacketId> {
      done + dropped.Keys
    }
  }

  function Note1(t: Tally, id: PacketId, v: Verdict): (r: Tally)
    requires id in t.dict
    ensures r.dict.Keys == t.dict.Keys
    ensures r.Removed() == if Removes(v) then t.Removed() + {id} else t.Removed()
  {
    Tally(
      if v.SendNow? then t.dict[id := t.dict[id].(sent := true)] else t.dict,
      if v == Drop(Failed) then RemoveFirst(t.failedIds, id) else t.failedIds,
      if v.Drop? then t.dropped[id := v.why] else t.dropped,
      if v.Done? then t.done + {id} else t.done,
      if Counts(v) then t.count + 1 else t.count)
  }

  function VerdictOn(t: Tally, id: PacketId, look: Look): Verdict
    requires id in t.dict
  {
    Judge(t.dict[id], id in t.failedIds, look, t.count)
  }

  function Scan(q: seq<PacketId>, d: map<PacketId, FileToSend>, failedIds: seq<PacketId>, w: World,
      clock: nat): (t: Tally)
    requires Known(q, d)
    ensures t.dict.Keys == d.Keys
    decreases |q|
  {
    if q == [] then Tally(d, failedIds, map[], {}, 0)
    else
      var last := q[|q|-1];
      var t := Scan(q[..|q|-1], d, failedIds, w, clock);
      Note1(t, last, VerdictOn(t, last, w.Sees(clock, last)))
  }

  lemma ScanNext(q: seq<PacketId>, d: map<PacketId, FileToSend>, failedIds: seq<PacketId>, w: World, clock: nat, i: nat)
    requires Known(q, d) && i <= |q|
    ensures Scan(q[..0], d, failedIds, w, clock) == Tally(d, failedIds, map[], {}, 0)
    ensures i < |q| ==>
      var t := Scan(q[..i], d, failedIds, w, clock);
      Scan(q[..i+1], d, failedIds, w, clock) == Note1(t, q[i], VerdictOn(t, q[i], w.Sees(clock, q[i])))
  {
    if i < |q| {
      assert q[..i+1][..i] == q[..i];
    }
  }

  /** A pass changes nothing but the sent flags of packets it has examined,
      and removes only packets it has examined. */
  lemma {:induction false} ScanTouches(q: seq<PacketId>, d: map<PacketId, FileToSend>, failedIds: seq<PacketId>,
      w: World, clock: nat)
    requires Known(q, d)
    ensures var t := Scan(q, d, failedIds, w, clock);
      && (forall id :: id in d ==> t.dict[id] == d[id].(sent := t.dict[id].sent))
      && (forall id :: id in d && d[id].sent ==> t.dict[id].sent)
      && (forall id :: id in d && id !in q ==> t.dict[id] == d[id])
      && (forall id :: id in t.Removed() ==> id in q)
    decreases |q|
  {
    if q != [] {
      ScanTouches(q[..|q|-1], d, failedIds, w, clock);
    }
  }

  /** What a pass keeps, packet by packet. */
  lemma KeptStep(q: seq<PacketId>, last: PacketId, t: Tally, v: Verdict)
    requires last !in q && last in t.dict && last !in t.Removed()
    ensures Without(q + [last], Note1(t, last, v).Removed())
         == Without(q, t.Removed()) + if Removes(v) then [] else [last]
  {
    WithoutMore(q, t.Removed(), last);
    WithoutSnoc(q, last, Note1(t, last, v).Removed());
  }

  /** As long as the pass has counted no more than the limit nothing was held
      back, so all it keeps so far is sent and counted. */
  ghost predicate Tight(kept: seq<PacketId>, t: Tally)
    requires forall id :: id in kept ==> id in t.dict
  {
    t.count <= FILE_SEND_MAX_LENGTH ==>
      |kept| <= t.count && forall id :: id in kept ==> t.dict[id].sent
  }

  /** One more examined packet keeps the window; ahead says that if the packet
      was large and sent before the pass, then the window already held for it. */
  lemma WindowStep(kept: seq<PacketId>, last: PacketId, t: Tally, look: Look)
    requires forall id :: id in kept ==> id in t.dict
    requires last in t.dict && last !in kept
    requires Window(kept, t.dict) && Tight(kept, t)
    requires BigSent(t.dict[last]) ==>
               |kept| <= FILE_SEND_MAX_LENGTH && forall id :: id in kept ==> t.dict[id].sent
    ensures var v := VerdictOn(t, last, look);
      var r, k := Note1(t, last, v), kept + if Removes(v) then [] else [last];
      && (forall id :: id in k ==> id in r.dict)
      && Window(k, r.dict) && Tight(k, r)
  {
    var v := VerdictOn(t, last, look);
    var r := Note1(t, last, v);
    assert forall id :: id in kept ==> r.dict[id] == t.dict[id];
  }

  lemma {:induction false} ScanWindow(q: seq<PacketId>, d: map<PacketId, FileToSend>, failedIds: seq<PacketId>,
      w: World, clock: nat)
    requires NoDup(q) && Known(q, d)
    requires Window(q, d)
    ensures var t := Scan(q, d, failedIds, w, clock);
      var kept := Without(q, t.Removed());
      Window(kept, t.dict) && Tight(kept, t)
    decreases |q|
  {
    if q != [] {
      var rest, last := q[..|q|-1], q[|q|-1];
      var t := Scan(rest, d, failedIds, w, clock);
      assert q == rest + [last];
      ScanWindow(rest, d, failedIds, w, clock);
      ScanTouches(rest, d, failedIds, w, clock);
      if BigSent(d[last]) {
        assert forall id :: id in rest ==> d[id].sent;
      }
      WindowStep(Without(rest, t.Removed()), last, t, w.Sees(clock, last));
      KeptStep(rest, last, t, VerdictOn(t, last, w.Sees(clock, last)));
    }
  }

  ghost predicate Reasons(drops: map<PacketId, Outcome>) {
    forall id :: id in drops ==> drops[id] != NoOutcome && drops[id] != Acked
  }

  /** Only acknowledged packets are done, and a dropped one has a reason. */
  lemma {:induction false} ScanReasons(q: seq<PacketId>, d: map<PacketId, FileToSend>, failedIds: seq<PacketId>,
      w: World, clock: nat)
    requires Known(q, d)
    ensures var t := Scan(q, d, failedIds, w, clock);
      && (forall id :: id in t.done ==> id in d && d[id].acked)
      && Reasons(t.dropped)
    decreases |q|
  {
    if q != [] {
      ScanReasons(q[..|q|-1], d, failedIds, w, clock);
      ScanTouches(q[..|q|-1], d, failedIds, w, clock);
    }
  }

  /** SendingTask schedules its next run. */
  function Arm(s: Sends, w: World): Sends {
    s.(task := true, slow := w.Slow(s.clock), calls := s.calls + 1, clock := s.clock + 1)
  }

  function MarkAll(d: map<PacketId, FileToSend>, drops: map<PacketId, Outcome>): map<PacketId, FileToSend> {
    map id | id in d :: if id in drops then d[id].(result := drops[id]) else d[id]
  }

  function FailNotes(d: map<PacketId, FileToSend>, drops: map<PacketId, Outcome>): set<Note> {
    set id | id in drops && id in d && d[id].callOnFail :: FailNote(d[id].serial, drops[id])
  }

  /** Report each packet of drops as failed, while a pass is running: DoSend
      then does no more than schedule the sending task if there is none. */
  function FailAll(s: Sends, w: World, drops: map<PacketId, Outcome>): Sends {
    var s1 := s.(dict := MarkAll(s.dict, drops), scheduled := s.scheduled + FailNotes(s.dict, drops));
    if drops != map[] && !s.task then Arm(s1, w) else s1
  }

  /** The packets of drop by serial number, as they are when they leave. */
  function Leaving(d: map<PacketId, FileToSend>, accepted: seq<PacketId>, drop: set<PacketId>): map<nat, FileToSend> {
    map n: nat | n < |accepted| && accepted[n] in drop && accepted[n] in d && d[accepted[n]].serial == n
      :: d[accepted[n]]
  }

  /** Remove packets from the queue and the dictionary. */
  function Discard(s: Sends, drop: set<PacketId>): Sends {
    s.(
      queue := Without(s.queue, drop),
      dict := s.dict - drop,
      gone := s.gone + Leaving(s.dict, s.accepted, drop))
  }

  function RunSend(s: Sends, w: World): Sends
    requires Linked(s.queue, s.dict)
  {
    var t := Scan(s.queue, s.dict, s.failedIds, w, s.clock);
    var s1 := FailAll(s.(dict := t.dict, failedIds := t.failedIds), w, t.dropped);
    var s2 := Discard(s1, t.Removed());
    s2.(failedIds := if s2.queue == [] then [] else s2.failedIds, clock := s2.clock + 1)
  }

  /** Same packets, with the same identity and file: only flags may differ. */
  ghost predicate SameFiles(d: map<PacketId, FileToSend>, e: map<PacketId, FileToSend>) {
    && d.Keys == e.Keys
    && forall id :: id in d ==>
         e[id] == d[id].(sent := e[id].sent, acked := e[id].acked, result := e[id].result)
  }

  lemma LedgerFrame(d: map<PacketId, FileToSend>, e: map<PacketId, FileToSend>, accepted: seq<PacketId>,
      gone: map<nat, FileToSend>)
    requires Ledger(d, accepted, gone) && SameFiles(d, e)
    ensures Ledger(e, accepted, gone)
  {
  }

  lemma DiscardLedger(d: map<PacketId, FileToSend>, accepted: seq<PacketId>, gone: map<nat, FileToSend>,
      drop: set<PacketId>)
    requires Ledger(d, accepted, gone) && forall id :: id in d ==> d[id].id == id
    ensures Ledger(d - drop, accepted, gone + Leaving(d, accepted, drop))
  {
  }

  lemma DiscardNotified(d: map<PacketId, FileToSend>, accepted: seq<PacketId>, gone: map<nat, FileToSend>,
      scheduled: set<Note>, drop: set<PacketId>)
    requires Notified(d, gone, scheduled)
    requires forall id :: id in drop && id in d ==> d[id].result != NoOutcome
    ensures Notified(d - drop, gone + Leaving(d, accepted, drop), scheduled)
  {
  }

  lemma MarkAllNotified(d: map<PacketId, FileToSend>, gone: map<nat, FileToSend>, scheduled: set<Note>,
      drops: map<PacketId, Outcome>)
    requires Notified(d, gone, scheduled)
    requires Reasons(drops)
    ensures Notified(MarkAll(d, drops), gone, scheduled + FailNotes(d, drops))
  {
    forall id | id in d && id in drops && d[id].callOnFail
      ensures FailNote(d[id].serial, drops[id]) in FailNotes(d, drops)
    {
    }
  }

  lemma WindowSnoc(q: seq<PacketId>, d: map<PacketId, FileToSend>, last: PacketId)
    requires Known(q, d) && Window(q, d) && last in d
    requires BigSent(d[last]) ==> |q| <= FILE_SEND_MAX_LENGTH && forall id :: id in q ==> d[id].sent
    ensures Known(q + [last], d) && Window(q + [last], d)
  {
  }

  lemma WindowInit(q: seq<PacketId>, d: map<PacketId, FileToSend>)
    requires Known(q, d) && Window(q, d) && q != []
    ensures var rest, last := q[..|q|-1], d[q[|q|-1]];
      Known(rest, d) && Window(rest, d)
      && (BigSent(last) ==> |rest| <= FILE_SEND_MAX_LENGTH && forall id :: id in rest ==> d[id].sent)
  {
  }

  lemma {:induction false} WithoutWindow(q: seq<PacketId>, d: map<PacketId, FileToSend>, drop: set<PacketId>)
    requires Known(q, d) && Window(q, d)
    ensures Known(Without(q, drop), d) && Window(Without(q, drop), d)
    decreases |q|
  {
    hide Window, BigSent;
    if q != [] {
      var rest, last := q[..|q|-1], q[|q|-1];
      assert q == rest + [last];
      WindowInit(q, d);
      WithoutWindow(rest, d, drop);
      WithoutSnoc(rest, last, drop);
      WindowSnoc(Without(rest, drop), d, last);
      assert Without(rest, drop) + [] == Without(rest, drop);
    } else {
      WindowNone(d);
    }
  }

  lemma WindowNone(d: map<PacketId, FileToSend>)
    ensures Known([], d) && Window([], d)
  {
  }

  lemma WindowFrame(q: seq<PacketId>, d: map<PacketId, FileToSend>, e: map<PacketId, FileToSend>)
    requires forall id :: id in q ==> id in d && id in e && e[id].sent == d[id].sent && e[id].size == d[id].size
    requires Window(q, d)
    ensures Window(q, e)
  {
  }

  lemma DiscardLinked(q: seq<PacketId>, d: map<PacketId, FileToSend>, drop: set<PacketId>)
    requires Linked(q, d)
    ensures Linked(Without(q, drop), d - drop)
  {
    WithoutNoDup(q, drop);
  }

  /** The queue got no longer, and who is left has the same result. */
  ghost predicate Shrinks(s: Sends, r: Sends) {
    && |r.queue| <= |s.queue|
    && forall id :: id in r.dict ==> id in s.dict && r.dict[id].result == s.dict[id].result
  }

  /** The dictionary that a pass leaves behind. */
  function AfterPass(t: Tally): map<PacketId, FileToSend> {
    MarkAll(t.dict, t.dropped) - t.Removed()
  }

  /** What the examination of the queue hands to the rest of the pass. */
  ghost predicate Examined(s: Sends, t: Tally) {
    && SameFiles(s.dict, t.dict)
    && Notified(t.dict, s.gone, s.scheduled)
    && (forall id :: id in t.done && id in t.dict ==> t.dict[id].acked)
    && Reasons(t.dropped)
    && (forall id :: id in t.dict ==> t.dict[id].result == s.dict[id].result)
  }

  lemma ScanExamines(s: Sends, w: World)
    requires Linked(s.queue, s.dict) && Notified(s.dict, s.gone, s.scheduled)
    ensures Examined(s, Scan(s.queue, s.dict, s.failedIds, w, s.clock))
  {
    ScanTouches(s.queue, s.dict, s.failedIds, w, s.clock);
    ScanReasons(s.queue, s.dict, s.failedIds, w, s.clock);
  }

  lemma PassLedger(s: Sends, t: Tally)
    requires Linked(s.queue, s.dict) && Ledger(s.dict, s.accepted, s.gone) && Examined(s, t)
    ensures Ledger(AfterPass(t), s.accepted, s.gone + Leaving(MarkAll(t.dict, t.dropped), s.accepted, t.Removed()))
  {
    var d := MarkAll(t.dict, t.dropped);
    assert SameFiles(s.dict, d);
    LedgerFrame(s.dict, d, s.accepted, s.gone);
    DiscardLedger(d, s.accepted, s.gone, t.Removed());
  }

  lemma PassNotified(s: Sends, t: Tally)
    requires Examined(s, t)
    ensures Notified(AfterPass(t), s.gone + Leaving(MarkAll(t.dict, t.dropped), s.accepted, t.Removed()),
                     s.scheduled + FailNotes(t.dict, t.dropped))
  {
    var d := MarkAll(t.dict, t.dropped);
    MarkAllNotified(t.dict, s.gone, s.scheduled, t.dropped);
    DiscardNotified(d, s.accepted, s.gone, s.scheduled + FailNotes(t.dict, t.dropped), t.Removed());
  }

  lemma PassPlaced(s: Sends, w: World)
    requires Linked(s.queue, s.dict) && Window(s.queue, s.dict)
    requires Examined(s, Scan(s.queue, s.dict, s.failedIds, w, s.clock))
    ensures var t := Scan(s.queue, s.dict, s.failedIds, w, s.clock);
      var kept := Without(s.queue, t.Removed());
      Linked(kept, AfterPass(t)) && Window(kept, AfterPass(t))
  {
    hide NoDup, Scan, Without;
    var t := Scan(s.queue, s.dict, s.failedIds, w, s.clock);
    var d := MarkAll(t.dict, t.dropped);
    ScanWindow(s.queue, s.dict, s.failedIds, w, s.clock);
    assert Linked(s.queue, d);
    DiscardLinked(s.queue, d, t.Removed());
    WindowFrame(Without(s.queue, t.Removed()), t.dict, AfterPass(t));
  }

  lemma RunSendInv(s: Sends, w: World)
    requires Inv(s)
    ensures Inv(RunSend(s, w))
  {
    hide Ledger, Notified, Window, Examined, Leaving, FailNotes, NoDup;
    ScanExamines(s, w);
    PassPlaced(s, w);
    PassLedger(s, Scan(s.queue, s.dict, s.failedIds, w, s.clock));
    PassNotified(s, Scan(s.queue, s.dict, s.failedIds, w, s.clock));
  }

  lemma PassShrinks(s: Sends, t: Tally)
    requires SameFiles(s.dict, t.dict) && forall id :: id in t.dict ==> t.dict[id].result == s.dict[id].result
    ensures forall id :: id in AfterPass(t) ==> id in s.dict && AfterPass(t)[id].result == s.dict[id].result
  {
  }

  lemma RunSendShrinks(s: Sends, w: World)
    requires Linked(s.queue, s.dict)
    ensures Shrinks(s, RunSend(s, w))
  {
    hide Linked, NoDup, Scan, Leaving, FailNotes;
    LinkedKnown(s.queue, s.dict);
    ScanTouches(s.queue, s.dict, s.failedIds, w, s.clock);
    PassShrinks(s, Scan(s.queue, s.dict, s.failedIds, w, s.clock));
  }

  lemma LinkedKnown(q: seq<PacketId>, d: map<PacketId, FileToSend>)
    requires Linked(q, d)
    ensures Known(q, d)
  {
  }

  lemma RunSendKeeps(s: Sends, w: World)
    requires Inv(s)
    ensures Inv(RunSend(s, w)) && Shrinks(s, RunSend(s, w))
  {
    RunSendInv(s, w);
    RunSendShrinks(s, w);
  }

  // ----- what one pass achieves

  /** Exactly these packets leave the queue in a pass. */
  predicate Leaves(f: FileToSend, failed: bool, look: Look) {
    failed || (f.sent && (f.acked || look.late)) || (!f.sent && !look.present)
  }

  lemma {:induction false} ScanFailedIds(q: seq<PacketId>, d: map<PacketId, FileToSend>, failedIds: seq<PacketId>,
      w: World, clock: nat, id: PacketId)
    requires Known(q, d) && id !in q
    ensures id in Scan(q, d, failedIds, w, clock).failedIds <==> id in failedIds
    decreases |q|
  {
    if q != [] {
      ScanFailedIds(q[..|q|-1], d, failedIds, w, clock, id);
    }
  }

  lemma {:induction false} ScanRemoves(q: seq<PacketId>, d: map<PacketId, FileToSend>, failedIds: seq<PacketId>,
      w: World, clock: nat, id: PacketId)
    requires NoDup(q) && Known(q, d) && id in q
    ensures id in Scan(q, d, failedIds, w, clock).Removed() <==> Leaves(d[id], id in failedIds, w.Sees(clock, id))
    decreases |q|
  {
    hide RemoveFirst;
    var rest, last := q[..|q|-1], q[|q|-1];
    assert q == rest + [last];
    if id == last {
      ScanFailedIds(rest, d, failedIds, w, clock, last);
      ScanTouches(rest, d, failedIds, w, clock);
    } else {
      ScanRemoves(rest, d, failedIds, w, clock, id);
    }
  }

  lemma {:induction false} ScanCount(q: seq<PacketId>, d: map<PacketId, FileToSend>, failedIds: seq<PacketId>,
      w: World, clock: nat)
    requires Known(q, d)
    ensures Scan(q, d, failedIds, w, clock).count <= |q|
    decreases |q|
  {
    if q != [] {
      ScanCount(q[..|q|-1], d, failedIds, w, clock);
    }
  }

  lemma NoteSends(t: Tally, id: PacketId, look: Look, x: PacketId)
    requires id in t.dict && x in t.dict
    ensures t.dict[x].sent ==> Note1(t, id, VerdictOn(t, id, look)).dict[x].sent
    ensures id !in t.failedIds && look.present
            && (t.count <= FILE_SEND_MAX_LENGTH || (look.sizeKnown && t.dict[id].size <= LARGE_FILE)) ==>
              Note1(t, id, VerdictOn(t, id, look)).dict[id].sent
  {
    hide RemoveFirst;
  }

  /** Waiting packets go out: every small one, and every one among the first
      FILE_SEND_MAX_LENGTH + 1, whatever the others do. */
  lemma {:induction false} ScanSends(q: seq<PacketId>, d: map<PacketId, FileToSend>, failedIds: seq<PacketId>,
      w: World, clock: nat, k: nat)
    requires NoDup(q) && Known(q, d)
    requires k < |q| && q[k] !in failedIds && w.Sees(clock, q[k]).present
    requires k <= FILE_SEND_MAX_LENGTH || (w.Sees(clock, q[k]).sizeKnown && d[q[k]].size <= LARGE_FILE)
    ensures Scan(q, d, failedIds, w, clock).dict[q[k]].sent
    decreases |q|
  {
    hide Note1, VerdictOn;
    var rest, last := q[..|q|-1], q[|q|-1];
    assert q == rest + [last];
    var t := Scan(rest, d, failedIds, w, clock);
    NoteSends(t, last, w.Sees(clock, last), q[k]);
    if k < |rest| {
      assert q[k] == rest[k];
      ScanSends(rest, d, failedIds, w, clock, k);
    } else {
      ScanFailedIds(rest, d, failedIds, w, clock, last);
      ScanTouches(rest, d, failedIds, w, clock);
      ScanCount(rest, d, failedIds, w, clock);
      assert t.dict[last] == d[last];
    }
  }

  /** After a pass, the queue holds in order exactly the packets that neither
      failed, nor were answered or timed out, nor lost their file. */
  lemma PassRemoves(s: Sends, w: World)
    requires Inv(s)
    ensures RunSend(s, w).queue
         == Without(s.queue, set id | id in s.queue && Leaves(s.dict[id], id in s.failedIds, w.Sees(s.clock, id)))
  {
    hide Ledger, Notified, Window, Leaves;
    ScanTouches(s.queue, s.dict, s.failedIds, w, s.clock);
    forall id | id in s.queue
      ensures id in Scan(s.queue, s.dict, s.failedIds, w, s.clock).Removed()
          <==> Leaves(s.dict[id], id in s.failedIds, w.Sees(s.clock, id))
    {
      ScanRemoves(s.queue, s.dict, s.failedIds, w, s.clock, id);
    }
    assert Scan(s.queue, s.dict, s.failedIds, w, s.clock).Removed()
        == set id | id in s.queue && Leaves(s.dict[id], id in s.failedIds, w.Sees(s.clock, id));
  }

  /** ... and every small packet, and every packet among the first five, that
      stays in the queue is sent. */
  lemma PassSends(s: Sends, w: World, k: nat)
    requires Inv(s) && k < |s.queue| && s.queue[k] in RunSend(s, w).dict
    requires
      || k <= FILE_SEND_MAX_LENGTH
      || (w.Sees(s.clock, s.queue[k]).sizeKnown && s.dict[s.queue[k]].size <= LARGE_FILE)
    ensures RunSend(s, w).dict[s.queue[k]].sent
  {
    hide Ledger, Notified, Window;
    var id := s.queue[k];
    var t := Scan(s.queue, s.dict, s.failedIds, w, s.clock);
    ScanRemoves(s.queue, s.dict, s.failedIds, w, s.clock, id);
    ScanTouches(s.queue, s.dict, s.failedIds, w, s.clock);
    assert id !in t.Removed();
    if !s.dict[id].sent {
      ScanSends(s.queue, s.dict, s.failedIds, w, s.clock, k);
    }
  }

  // ----- the steps of the queue

  function SendingTask(s: Sends, w: World): (r: Sends)
    requires Inv(s)
    ensures Inv(r) && Shrinks(s, r)
  {
    RunSendKeeps(s, w);
    Arm(RunSend(s, w), w)
  }

  /** If the loop is slow its call is cancelled, and one posted that comes at
      once; but no task refers to that one. */
  function DoSend(s: Sends, w: World): (r: Sends)
    requires Inv(s)
    ensures Inv(r) && Shrinks(s, r)
  {
    if !s.task then SendingTask(s, w)
    else if s.slow then s.(task := false)
    else s
  }

  function Accept(s: Sends, id: PacketId, size: nat, callOnAck: bool, callOnFail: bool): Sends {
    s.(
      queue := s.queue + [id],
      dict := s.dict[id := FileToSend(|s.accepted|, id, size, callOnAck, callOnFail, false, false, NoOutcome)],
      accepted := s.accepted + [id])
  }

  lemma AcceptLedger(d: map<PacketId, FileToSend>, accepted: seq<PacketId>, gone: map<nat, FileToSend>, f: FileToSend)
    requires Ledger(d, accepted, gone) && f.id !in d && f.serial == |accepted|
    ensures Ledger(d[f.id := f], accepted + [f.id], gone)
  {
  }

  lemma AcceptPlaced(q: seq<PacketId>, d: map<PacketId, FileToSend>, f: FileToSend)
    requires Linked(q, d) && Window(q, d) && f.id !in q && !f.sent
    ensures Linked(q + [f.id], d[f.id := f]) && Window(q + [f.id], d[f.id := f])
  {
    assert forall x :: x in q ==> d[f.id := f][x] == d[x];
  }

  lemma AcceptNotified(d: map<PacketId, FileToSend>, gone: map<nat, FileToSend>, scheduled: set<Note>, f: FileToSend)
    requires Notified(d, gone, scheduled) && f.result == NoOutcome && !f.acked
    ensures Notified(d[f.id := f], gone, scheduled)
  {
  }

  lemma AcceptKeeps(s: Sends, id: PacketId, size: nat, callOnAck: bool, callOnFail: bool)
    requires Inv(s) && id !in s.queue
    ensures Inv(Accept(s, id, size, callOnAck, callOnFail))
  {
    hide Ledger, Notified, Window;
    var f := FileToSend(|s.accepted|, id, size, callOnAck, callOnFail, false, false, NoOutcome);
    AcceptLedger(s.dict, s.accepted, s.gone, f);
    AcceptPlaced(s.queue, s.dict, f);
    AcceptNotified(s.dict, s.gone, s.scheduled, f);
  }

  function Refuse(s: Sends, id: PacketId, callOnFail: bool, reason: Refusal): Sends {
    if callOnFail then s.(scheduled := s.scheduled + {RefusalNote(id, reason)}) else s
  }

  function SendFile(s: Sends, w: World, id: PacketId, size: nat, callOnAck: bool, callOnFail: bool,
      offline: bool): (r: Sends)
    requires Inv(s)
    ensures Inv(r)
  {
    if offline then Refuse(s, id, callOnFail, Offline)
    else if id in s.queue then Refuse(s, id, callOnFail, InQueue)
    else
      AcceptKeeps(s, id, size, callOnAck, callOnFail);
      DoSend(Accept(s, id, size, callOnAck, callOnFail), w)
  }

  /** A file with a new result and the matching note scheduled. */
  function Conclude(s: Sends, f: FileToSend): Sends {
    s.(
      dict := s.dict[f.id := f],
      scheduled :=
        if f.result == Acked && f.callOnAck then s.scheduled + {AckNote(f.serial)}
        else if f.result != Acked && f.callOnFail then s.scheduled + {FailNote(f.serial, f.result)}
        else s.scheduled)
  }

  lemma InvKnown(s: Sends)
    requires Inv(s)
    ensures forall id :: id in s.queue ==> id in s.dict && s.dict[id].id == id
  {
  }

  lemma ConcludeNotified(s: Sends, f: FileToSend)
    requires Notified(s.dict, s.gone, s.scheduled) && f.result != NoOutcome
    ensures var r := Conclude(s, f); Notified(r.dict, r.gone, r.scheduled)
  {
  }

  lemma ConcludeKeeps(s: Sends, f: FileToSend)
    requires Inv(s) && f.id in s.dict && f.result != NoOutcome
    requires f == s.dict[f.id].(acked := f.acked, result := f.result)
    ensures Inv(Conclude(s, f))
  {
    var e := s.dict[f.id := f];
    ConcludeNotified(s, f);
    LedgerFrame(s.dict, e, s.accepted, s.gone);
    WindowFrame(s.queue, s.dict, e);
  }

  function AckReceived(s: Sends, w: World, id: PacketId, isAck: bool): (r: Sends)
    requires Inv(s)
    ensures Inv(r)
  {
    if id !in s.queue then s
    else
      var f := s.dict[id].(acked := true, result := if isAck then Acked else Failed);
      ConcludeKeeps(s, f);
      DoSend(Conclude(s, f), w)
  }

  function FailReceived(s: Sends, w: World, id: PacketId, why: Outcome): (r: Sends)
    requires Inv(s) && why != NoOutcome && why != Acked
    ensures Inv(r) && |r.queue| <= |s.queue|
  {
    if id !in s.dict then s
    else
      var f := s.dict[id].(result := why);
      ConcludeKeeps(s, f);
      DoSend(Conclude(s, f), w)
  }

  function Outbox(s: Sends, w: World, id: PacketId, finished: bool): (r: Sends)
    requires Inv(s)
    ensures Inv(r)
  {
    if finished || id !in s.queue then s
    else DoSend(s.(failedIds := s.failedIds + [id]), w)
  }

  /** str.count is positive: name occurs somewhere in the packet ID. */
  predicate Mentions(id: PacketId, name: string) {
    Occurs(id, name)
  }

  /** Packets the deletion has reported already. */
  ghost predicate Reported(s: Sends, marked: set<PacketId>) {
    forall id :: id in marked && id in s.dict ==> s.dict[id].result != NoOutcome
  }

  lemma ReportedGrows(s: Sends, r: Sends, marked: set<PacketId>, id: PacketId)
    requires Reported(s, marked) && Shrinks(s, r)
    requires id in s.dict ==> s.dict[id].result != NoOutcome
    ensures Reported(r, marked + {id})
  {
  }

  /** The deletion loop walks the live queue by position, and each report may
      run a sending pass that shortens it. */
  function DeleteScan(s: Sends, w: World, name: string, i: nat, marked: set<PacketId>): (r: (Sends, set<PacketId>))
    requires Inv(s) && Reported(s, marked)
    ensures Inv(r.0) && Reported(r.0, r.1)
    decreases |s.queue| - i
  {
    hide Ledger, Window, Notified, DoSend;
    if i >= |s.queue| then (s, marked)
    else if Mentions(s.queue[i], name) then
      var id := s.queue[i];
      var f := s.dict[id].(result := DeleteRequest);
      var s1 := Conclude(s, f);
      ConcludeKeeps(s, f);
      ReportedGrows(s1, DoSend(s1, w), marked, id);
      DeleteScan(FailReceived(s, w, id, DeleteRequest), w, name, i + 1, marked + {id})
    else
      DeleteScan(s, w, name, i + 1, marked)
  }

  function DeleteSendings(s: Sends, w: World, name: string): (r: Sends)
    requires Inv(s)
    ensures Inv(r)
  {
    var (s1, marked) := DeleteScan(s, w, name, 0, {});
    DiscardKeeps(s1, marked);
    Discard(s1, marked)
  }

  lemma DiscardKeeps(s: Sends, drop: set<PacketId>)
    requires Inv(s) && Reported(s, drop)
    ensures Inv(Discard(s, drop))
  {
    DiscardLedger(s.dict, s.accepted, s.gone, drop);
    DiscardNotified(s.dict, s.accepted, s.gone, s.scheduled, drop);
    DiscardLinked(s.queue, s.dict, drop);
    WithoutWindow(s.queue, s.dict, drop);
    WindowFrame(Without(s.queue, drop), s.dict, s.dict - drop);
  }

  /** One round of the loop when DoSend has nothing to do. */
  lemma QuietReport(s: Sends, w: World, id: PacketId)
    requires Inv(s) && s.task && !s.slow && id in s.dict
    ensures FailReceived(s, w, id, DeleteRequest) == Conclude(s, s.dict[id].(result := DeleteRequest))
  {
    ConcludeKeeps(s, s.dict[id].(result := DeleteRequest));
  }

  function Matching(q: seq<PacketId>, name: string): set<PacketId> {
    set id | id in q && Mentions(id, name)
  }

  lemma MatchingStep(q: seq<PacketId>, i: nat, name: string)
    requires i < |q|
    ensures Matching(q[i..], name) == Matching(q[i+1..], name) + if Mentions(q[i], name) then {q[i]} else {}
  {
    assert q[i..] == [q[i]] + q[i+1..];
  }

  lemma {:induction false} DeleteScanMarks(s: Sends, w: World, name: string, i: nat, marked: set<PacketId>)
    requires Inv(s) && Reported(s, marked) && s.task && !s.slow && i <= |s.queue|
    ensures DeleteScan(s, w, name, i, marked).0.queue == s.queue
    ensures DeleteScan(s, w, name, i, marked).1 == marked + Matching(s.queue[i..], name)
    decreases |s.queue| - i
  {
    hide Ledger, Notified, Window;
    if i < |s.queue| {
      MatchingStep(s.queue, i, name);
      if Mentions(s.queue[i], name) {
        QuietReport(s, w, s.queue[i]);
        DeleteScanMarks(FailReceived(s, w, s.queue[i], DeleteRequest), w, name, i + 1, marked + {s.queue[i]});
      } else {
        DeleteScanMarks(s, w, name, i + 1, marked);
      }
    }
  }

  /** One round that reports a packet, and what it leaves alone. */
  lemma NotedRound(s: Sends, w: World, name: string, i: nat, marked: set<PacketId>)
    requires Inv(s) && Reported(s, marked) && s.task && !s.slow && i < |s.queue| && Mentions(s.queue[i], name)
    ensures var id, s1 := s.queue[i], FailReceived(s, w, s.queue[i], DeleteRequest);
      && Inv(s1) && Reported(s1, marked + {id}) && s1.task && !s1.slow && s1.queue == s.queue
      && DeleteScan(s, w, name, i, marked) == DeleteScan(s1, w, name, i + 1, marked + {id})
      && s.scheduled <= s1.scheduled
      && (s.dict[id].callOnFail ==> FailNote(s.dict[id].serial, DeleteRequest) in s1.scheduled)
      && s1.dict.Keys == s.dict.Keys && forall x :: x in s.dict && x != id ==> s1.dict[x] == s.dict[x]
  {
    hide Linked, Ledger, Notified, Window, Mentions, DoSend, FailReceived;
    InvKnown(s);
    QuietReport(s, w, s.queue[i]);
  }

  /** One round of the deletion loop that reports a packet. */
  lemma ReportRound(s: Sends, w: World, name: string, i: nat, marked: set<PacketId>)
    requires Inv(s) && Reported(s, marked) && i < |s.queue| && Mentions(s.queue[i], name)
    ensures var s1 := FailReceived(s, w, s.queue[i], DeleteRequest);
      Reported(s1, marked + {s.queue[i]})
      && DeleteScan(s, w, name, i, marked) == DeleteScan(s1, w, name, i + 1, marked + {s.queue[i]})
  {
    hide Linked, Ledger, Window, Notified, DoSend, Mentions;
    InvKnown(s);
    var f := s.dict[s.queue[i]].(result := DeleteRequest);
    ConcludeKeeps(s, f);
    ReportedGrows(Conclude(s, f), DoSend(Conclude(s, f), w), marked, s.queue[i]);
  }

  lemma QuietRound(s: Sends, w: World, name: string, i: nat, marked: set<PacketId>)
    requires Inv(s) && Reported(s, marked) && i < |s.queue| && !Mentions(s.queue[i], name)
    ensures DeleteScan(s, w, name, i, marked) == DeleteScan(s, w, name, i + 1, marked)
  {
    hide Ledger, Notified, Window, Linked, Mentions;
  }

  /** The packet at k is noted when the loop comes to it. */
  lemma {:induction false} DeleteScanNotes(s: Sends, w: World, name: string, i: nat, marked: set<PacketId>, k: nat)
    requires Inv(s) && Reported(s, marked) && s.task && !s.slow && i <= k < |s.queue|
    requires s.queue[k] in s.dict && Mentions(s.queue[k], name) && s.dict[s.queue[k]].callOnFail
    requires forall j :: i <= j < k ==> s.queue[j] != s.queue[k]
    ensures FailNote(s.dict[s.queue[k]].serial, DeleteRequest) in DeleteScan(s, w, name, i, marked).0.scheduled
    decreases |s.queue| - i
  {
    hide Inv, Reported, Mentions, FailReceived, DeleteScan;
    if Mentions(s.queue[i], name) {
      NotedRound(s, w, name, i, marked);
      var s1 := FailReceived(s, w, s.queue[i], DeleteRequest);
      if i == k {
        DeleteScanGrows(s1, w, name, i + 1, marked + {s.queue[i]});
      } else {
        DeleteScanNotes(s1, w, name, i + 1, marked + {s.queue[i]}, k);
      }
    } else {
      QuietRound(s, w, name, i, marked);
      DeleteScanNotes(s, w, name, i + 1, marked, k);
    }
  }

  lemma {:induction false} DeleteScanGrows(s: Sends, w: World, name: string, i: nat, marked: set<PacketId>)
    requires Inv(s) && Reported(s, marked) && s.task && !s.slow && i <= |s.queue|
    ensures s.scheduled <= DeleteScan(s, w, name, i, marked).0.scheduled
    decreases |s.queue| - i
  {
    hide Inv, Reported, Mentions, FailReceived;
    if i < |s.queue| {
      if Mentions(s.queue[i], name) {
        NotedRound(s, w, name, i, marked);
        var s1 := FailReceived(s, w, s.queue[i], DeleteRequest);
        DeleteScanGrows(s1, w, name, i + 1, marked + {s.queue[i]});
      } else {
        QuietRound(s, w, name, i, marked);
        DeleteScanGrows(s, w, name, i + 1, marked);
      }
    }
  }

  /** When no pass can run inside the loop, the deletion is complete: exactly
      the packets that mention the name are gone, and each was reported. */
  lemma DeleteExact(s: Sends, w: World, name: string)
    requires Inv(s) && s.task && !s.slow
    ensures DeleteSendings(s, w, name).queue == Without(s.queue, Matching(s.queue, name))
  {
    hide Ledger, Notified, Window, Linked, DeleteScan, Mentions;
    DeleteScanMarks(s, w, name, 0, {});
    assert s.queue[0..] == s.queue;
    assert DeleteScan(s, w, name, 0, {}).1 == Matching(s.queue, name);
  }

  lemma DeleteNotifies(s: Sends, w: World, name: string)
    requires Inv(s) && s.task && !s.slow
    ensures forall k :: 0 <= k < |s.queue| && Mentions(s.queue[k], name) && s.dict[s.queue[k]].callOnFail ==>
            FailNote(s.dict[s.queue[k]].serial, DeleteRequest) in DeleteSendings(s, w, name).scheduled
  {
    hide Ledger, Notified, Window, DeleteScan, Mentions;
    forall k | 0 <= k < |s.queue| && Mentions(s.queue[k], name) && s.dict[s.queue[k]].callOnFail
      ensures FailNote(s.dict[s.queue[k]].serial, DeleteRequest) in DeleteSendings(s, w, name).scheduled
    {
      DeleteScanNotes(s, w, name, 0, {}, k);
    }
  }

  // ----- one packet at a time, in any order

  lemma FailNotesStep(d: map<PacketId, FileToSend>, drops: map<PacketId, Outcome>, id: PacketId, why: Outcome)
    requires id !in drops
    ensures FailNotes(d, drops[id := why]) == FailNotes(d, drops) + FailNotes(MarkAll(d, drops), map[id := why])
  {
    var more, one, e := drops[id := why], map[id := why], MarkAll(d, drops);
    forall x | x in drops && x in d && d[x].callOnFail
      ensures FailNote(d[x].serial, drops[x]) in FailNotes(d, more)
    {
      assert more[x] == drops[x];
    }
    if id in d && d[id].callOnFail {
      assert FailNote(d[id].serial, more[id]) in FailNotes(d, more);
      assert FailNote(e[id].serial, one[id]) in FailNotes(e, one);
    }
  }

  lemma MarkAllStep(d: map<PacketId, FileToSend>, drops: map<PacketId, Outcome>, id: PacketId, why: Outcome)
    requires id !in drops
    ensures MarkAll(MarkAll(d, drops), map[id := why]) == MarkAll(d, drops[id := why])
  {
  }

  lemma FailAllStep(s: Sends, w: World, drops: map<PacketId, Outcome>, id: PacketId, why: Outcome)
    requires id !in drops
    ensures FailAll(FailAll(s, w, drops), w, map[id := why]) == FailAll(s, w, drops[id := why])
  {
    hide MarkAll, FailNotes;
    FailNotesStep(s.dict, drops, id, why);
    MarkAllStep(s.dict, drops, id, why);
    assert id in drops[id := why] && id in map[id := why];
  }

  /** Reporting one packet, as the single-packet method does it. */
  lemma FailOne(s: Sends, w: World, id: PacketId, why: Outcome)
    requires id in s.dict && s.dict[id].id == id && why != NoOutcome && why != Acked
    ensures var s1 := Conclude(s, s.dict[id].(result := why));
      FailAll(s, w, map[id := why]) == if s.task then s1 else Arm(s1, w)
  {
    var s1, one := Conclude(s, s.dict[id].(result := why)), map[id := why];
    assert id in one;
    assert MarkAll(s.dict, one) == s1.dict;
    if s.dict[id].callOnFail {
      assert FailNote(s.dict[id].serial, one[id]) in FailNotes(s.dict, one);
    }
    assert s.scheduled + FailNotes(s.dict, one) == s1.scheduled;
  }

  lemma FailAllLinked(s: Sends, w: World, drops: map<PacketId, Outcome>)
    requires Linked(s.queue, s.dict)
    ensures var r := FailAll(s, w, drops);
      Linked(r.queue, r.dict) && r.dict.Keys == s.dict.Keys && SameFiles(s.dict, r.dict)
      && r.accepted == s.accepted && r.gone == s.gone
  {
  }

  /** After the examination the failures can be reported, and after the
      reports the packets can be removed. */
  lemma ScanReady(s: Sends, w: World)
    requires Inv(s)
    ensures Known(s.queue, s.dict)
    ensures var t := Scan(s.queue, s.dict, s.failedIds, w, s.clock);
      && Linked(s.queue, t.dict) && Ledger(t.dict, s.accepted, s.gone)
      && Reasons(t.dropped) && t.dropped.Keys <= t.dict.Keys
  {
    ScanTouches(s.queue, s.dict, s.failedIds, w, s.clock);
    ScanReasons(s.queue, s.dict, s.failedIds, w, s.clock);
    LedgerFrame(s.dict, Scan(s.queue, s.dict, s.failedIds, w, s.clock).dict, s.accepted, s.gone);
  }

  lemma FailNone(s: Sends, w: World)
    ensures FailAll(s, w, map[]) == s
  {
    assert MarkAll(s.dict, map[]) == s.dict;
    assert FailNotes(s.dict, map[]) == {};
  }

  lemma DiscardNone(s: Sends)
    ensures Discard(s, {}) == s
  {
    hide Without;
    WithoutNothing(s.queue, {});
    assert Leaving(s.dict, s.accepted, {}) == map[];
    assert s.dict - {} == s.dict && s.gone + map[] == s.gone;
  }

  lemma LeavingStep(d: map<PacketId, FileToSend>, accepted: seq<PacketId>, drop: set<PacketId>, id: PacketId)
    requires id in d && id !in drop && d[id].serial < |accepted| && accepted[d[id].serial] == id
    ensures Leaving(d, accepted, drop + {id}) == Leaving(d, accepted, drop)[d[id].serial := d[id]]
  {
  }

  lemma DiscardStep(s: Sends, drop: set<PacketId>, id: PacketId)
    requires NoDup(s.queue) && id in s.dict && id !in drop
    requires s.dict[id].serial < |s.accepted| && s.accepted[s.dict[id].serial] == id
    ensures var r := Discard(s, drop);
      id in r.dict && r.dict[id] == s.dict[id] && Discard(s, drop + {id}) == r.(
        queue := RemoveFirst(r.queue, id),
        dict := r.dict - {id},
        gone := r.gone[s.dict[id].serial := s.dict[id]])
  {
    hide Without, RemoveFirst, Leaving, NoDup;
    var r, f := Discard(s, drop), s.dict[id];
    WithoutStep(s.queue, drop, id);
    LeavingStep(s.dict, s.accepted, drop, id);
    assert s.dict - (drop + {id}) == r.dict - {id};
    assert s.gone + Leaving(s.dict, s.accepted, drop)[f.serial := f] == r.gone[f.serial := f];
  }

  lemma DiscardAbsent(s: Sends, drop: set<PacketId>, id: PacketId)
    requires id !in s.queue && id !in s.dict
    ensures id !in Discard(s, drop).dict && Discard(s, drop + {id}) == Discard(s, drop)
  {
    WithoutMore(s.queue, drop, id);
    assert Leaving(s.dict, s.accepted, drop + {id}) == Leaving(s.dict, s.accepted, drop);
    assert s.dict - (drop + {id}) == s.dict - drop;
  }

  // ----- runs

  /** Whatever the reactor, the network or a caller may do next. Tick is a
      scheduled SendingTask, Kick a scheduled DoSend. */
  datatype Event =
    | QueueFile(id: PacketId, size: nat, callOnAck: bool, callOnFail: bool, offline: bool)
    | Tick
    | Kick
    | Answer(id: PacketId, isAck: bool)
    | Status(id: PacketId, finished: bool)
    | Delete(name: string)

  /** The reactor makes a call of SendingTask, if one is to come. */
  function Fired(s: Sends, w: World): (r: Sends)
    requires Inv(s)
    ensures Inv(r)
  {
    if s.calls == 0 then s else SendingTask(s.(calls := s.calls - 1), w)
  }

  /** A call made is a pass and the next call scheduled. */
  lemma TickIs(s: Sends, w: World)
    requires Inv(s) && s.calls > 0
    ensures Fired(s, w) == Arm(RunSend(s, w), w).(calls := RunSend(s, w).calls)
  {
    hide Linked, Window, Ledger, Notified, Scan, MarkAll, FailNotes, Leaving, Without;
    LinkedKnown(s.queue, s.dict);
  }

  function Step(s: Sends, w: World, e: Event): (r: Sends)
    requires Inv(s)
    ensures Inv(r)
  {
    match e
    case QueueFile(id, size, onAck, onFail, offline) => SendFile(s, w, id, size, onAck, onFail, offline)
    case Tick => Fired(s, w)
    case Kick => DoSend(s, w)
    case Answer(id, isAck) => AckReceived(s, w, id, isAck)
    case Status(id, finished) => Outbox(s, w, id, finished)
    case Delete(name) => DeleteSendings(s, w, name)
  }

  /** The state after any sequence of events in any environment. */
  function Run(w: World, es: seq<Event>): (r: Sends)
    ensures Inv(r)
  {
    if es == [] then EMPTY
    else Step(Run(w, es[..|es|-1]), w, es[|es|-1])
  }

  /** The large packets that are sent and still queued. */
  ghost function BigInFlight(s: Sends): set<PacketId>
    requires Linked(s.queue, s.dict)
  {
    set id | id in s.queue && BigSent(s.dict[id])
  }

  /** In every reachable state at most five large packets are in flight, and
      everything queued ahead of one of them has been sent. */
  lemma SendWindow(w: World, es: seq<Event>)
    ensures var s := Run(w, es);
      && |BigInFlight(s)| <= 5 && (forall id :: id in BigInFlight(s) <==>
           id in s.queue && s.dict[id].sent && s.dict[id].size > 10240)
      && forall j, k :: 0 <= k < j < |s.queue| && BigSent(s.dict[s.queue[j]]) ==> s.dict[s.queue[k]].sent
  {
    var s := Run(w, es);
    var head := if |s.queue| <= FILE_SEND_MAX_LENGTH then s.queue else s.queue[..FILE_SEND_MAX_LENGTH + 1];
    SubsetBound(BigInFlight(s), head);
  }

  /** In every reachable state an accepted packet is either still queued, or
      gone after its acknowledgement or failure callback was scheduled, if one
      was given; and it is not both. */
  lemma SendConservation(w: World, es: seq<Event>, n: nat)
    requires n < |Run(w, es).accepted|
    ensures var s := Run(w, es);
      && NoDup(s.queue) && s.dict.Keys == Elements(s.queue)
      && (n !in s.gone <==> exists id :: id in s.queue && s.dict[id].serial == n)
      && (n in s.gone && s.gone[n].callOnAck && s.gone[n].callOnFail ==>
            AckNote(n) in s.scheduled || exists why :: FailNote(n, why) in s.scheduled)
      && (n in s.gone ==> s.gone[n].result != NoOutcome && Told(s.gone[n], s.scheduled))
  {
    var s := Run(w, es);
    if n !in s.gone {
      assert s.accepted[n] in s.queue;
    }
  }
}
