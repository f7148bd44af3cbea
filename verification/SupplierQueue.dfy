/** The queue of packets sent to and requested from one supplier, as an object
    whose methods update its lists and dictionaries in place. Every method is
    proved against the value functions of SendSpec and RequestSpec. */
module SupplierQueues {
  import opened Sequences
  import Send = SendSpec
  import Req = RequestSpec

  type PacketId = string

  class SupplierQueue {
    const sendWorld: Send.World
    const requestWorld: Req.World

    var fileSendQueue: seq<PacketId>
    var fileSendDict: map<PacketId, Send.FileToSend>
    var sendFailedPacketIDs: seq<PacketId>
    var sendTask: bool
    var sendTaskSlow: bool
    var sendCalls: nat
    var runSend: bool

    var fileRequestQueue: seq<PacketId>
    var fileRequestDict: map<PacketId, Req.FileToRequest>
    var requestFailedPacketIDs: seq<PacketId>
    var requestTask: Req.Task
    var requestTaskSlow: bool
    var requestCalls: nat

    // What the outside sees: scheduled callbacks, packet reports, request
    // callbacks, Retrieve packets and the passing of time.
    var sendAccepted: seq<PacketId>
    var sendScheduled: set<Send.Note>
    var sendGone: map<nat, Send.FileToSend>
    var sendClock: nat
    var requestAccepted: seq<PacketId>
    var requestFates: Req.Fates
    var requestRetrieves: seq<nat>
    var requestRefused: seq<PacketId>
    var requestClock: nat
    var requestRaised: bool

    ghost function Sends(): Send.Sends
      reads `fileSendQueue, `fileSendDict, `sendFailedPacketIDs, `sendTask, `sendTaskSlow, `sendCalls,
            `sendAccepted, `sendScheduled, `sendGone, `sendClock
    {
      Send.Sends(fileSendQueue, fileSendDict, sendFailedPacketIDs, sendScheduled, sendAccepted, sendGone,
                 sendTask, sendTaskSlow, sendCalls, sendClock)
    }

    ghost function Requests(): Req.Requests
      reads `fileRequestQueue, `fileRequestDict, `requestFailedPacketIDs, `requestTask, `requestTaskSlow,
            `requestCalls, `requestRaised,
            `requestAccepted, `requestFates, `requestRetrieves, `requestRefused, `requestClock
    {
      Req.Requests(fileRequestQueue, fileRequestDict, requestFailedPacketIDs, requestAccepted, requestFates,
                   requestRetrieves, requestRefused,
                   Req.Loop(requestTask, requestTaskSlow, requestCalls, requestRaised), requestClock)
    }

    /** Between the calls of the reactor no pass is running. */
    ghost predicate SendValid()
      reads `fileSendQueue, `fileSendDict, `sendFailedPacketIDs, `sendTask, `sendTaskSlow, `sendCalls, `runSend,
            `sendAccepted, `sendScheduled, `sendGone, `sendClock
    {
      !runSend && Send.Inv(Sends())
    }

    ghost predicate RequestValid()
      reads `fileRequestQueue, `fileRequestDict, `requestFailedPacketIDs, `requestTask, `requestTaskSlow,
            `requestCalls, `requestRaised,
            `requestAccepted, `requestFates, `requestRetrieves, `requestRefused, `requestClock
    {
      Req.Inv(Requests())
    }

    constructor (sendWorld: Send.World, requestWorld: Req.World)
      ensures this.sendWorld == sendWorld && this.requestWorld == requestWorld
      ensures SendValid() && RequestValid() && Sends() == Send.EMPTY && Requests() == Req.EMPTY
    {
      this.sendWorld, this.requestWorld := sendWorld, requestWorld;
      fileSendQueue, fileSendDict, sendFailedPacketIDs := [], map[], [];
      sendTask, sendTaskSlow, sendCalls, runSend := false, false, 0, false;
      fileRequestQueue, fileRequestDict, requestFailedPacketIDs := [], map[], [];
      requestTask, requestTaskSlow, requestCalls, requestRaised := Req.NoTask, false, 0, false;
      sendAccepted, sendScheduled, sendGone, sendClock := [], {}, map[], 0;
      requestAccepted, requestFates := [], Req.Fates([], {}, {});
      requestRetrieves, requestRefused, requestClock := [], [], 0;
    }

    // ----- sending

    method SupplierSendFile(packetID: PacketId, size: nat, callOnAck: bool, callOnFail: bool, offline: bool)
      returns (accepted: bool)
      requires SendValid()
      modifies `fileSendQueue, `fileSendDict, `sendFailedPacketIDs, `sendTask, `sendTaskSlow, `sendCalls, `runSend,
               `sendAccepted, `sendScheduled, `sendGone, `sendClock
      ensures accepted == (!offline && packetID !in old(fileSendQueue))
      ensures Sends() == Send.SendFile(old(Sends()), sendWorld, packetID, size, callOnAck, callOnFail, offline)
      ensures SendValid()
    {
      hide Send.Inv, Send.DoSend;
      if offline {
        if callOnFail {
          sendScheduled := sendScheduled + {Send.RefusalNote(packetID, Send.Offline)};
        }
        return false;
      }
      if packetID in fileSendQueue {
        if callOnFail {
          sendScheduled := sendScheduled + {Send.RefusalNote(packetID, Send.InQueue)};
        }
        return false;
      }
      Send.AcceptKeeps(Sends(), packetID, size, callOnAck, callOnFail);
      fileSendQueue := fileSendQueue + [packetID];
      fileSendDict := fileSendDict[packetID :=
        Send.FileToSend(|sendAccepted|, packetID, size, callOnAck, callOnFail, false, false, Send.NoOutcome)];
      sendAccepted := sendAccepted + [packetID];
      assert Sends() == Send.Accept(old(Sends()), packetID, size, callOnAck, callOnFail);
      DoSend();
      return true;
    }

    /** One pass over the queue; a pass started inside a pass does nothing. */
    method RunSend()
      requires runSend || Send.Inv(Sends())
      modifies `fileSendQueue, `fileSendDict, `sendFailedPacketIDs, `sendTask, `sendTaskSlow, `sendCalls, `runSend,
               `sendAccepted, `sendScheduled, `sendGone, `sendClock
      ensures runSend == old(runSend)
      ensures Sends() == if old(runSend) then old(Sends()) else Send.RunSend(old(Sends()), sendWorld)
      decreases if runSend then 0 else 1, 0
    {
      hide Send.Inv, Send.Linked, Send.Ledger, Send.Window, Send.Notified, Send.Reasons, Send.Scan, Send.FailAll,
           Send.Discard;
      if runSend {
        return;
      }
      runSend := true;
      var packetsFailed, packetsToRemove, packetsSent := CheckSendQueue();
      ReportFailures(packetsFailed);
      packetsToRemove := packetsToRemove + packetsFailed.Keys;
      RemoveFromSendQueue(packetsToRemove);
      if |fileSendQueue| == 0 {
        sendFailedPacketIDs := [];
      }
      sendClock := sendClock + 1;
      runSend := false;
    }

    /** The first loop of a pass: look at every packet, send what may go. */
    method CheckSendQueue()
      returns (packetsFailed: map<PacketId, Send.Outcome>, packetsToRemove: set<PacketId>, packetsSent: nat)
      requires Send.Inv(Sends())
      modifies `fileSendDict, `sendFailedPacketIDs
      ensures Send.Linked(fileSendQueue, fileSendDict) && Send.Ledger(fileSendDict, sendAccepted, sendGone)
      ensures Send.Reasons(packetsFailed) && packetsFailed.Keys <= fileSendDict.Keys
      ensures var t := Send.Scan(fileSendQueue, old(fileSendDict), old(sendFailedPacketIDs), sendWorld, sendClock);
        && fileSendDict == t.dict && sendFailedPacketIDs == t.failedIds
        && packetsFailed == t.dropped && packetsToRemove == t.done && packetsSent == t.count
    {
      hide Send.Inv, Send.Linked, Send.Ledger, Send.Window, Send.Notified, Send.Reasons, Send.Note1,
           Send.VerdictOn, Send.Scan, NoDup;
      ghost var queue, dict, failedIds := fileSendQueue, fileSendDict, sendFailedPacketIDs;
      Send.ScanReady(Sends(), sendWorld);
      Send.ScanNext(queue, dict, failedIds, sendWorld, sendClock, 0);
      packetsFailed, packetsToRemove, packetsSent := map[], {}, 0;
      var i := 0;
      while i < |fileSendQueue|
        invariant i <= |fileSendQueue|
        invariant Send.Tally(fileSendDict, sendFailedPacketIDs, packetsFailed, packetsToRemove, packetsSent)
               == Send.Scan(fileSendQueue[..i], old(fileSendDict), old(sendFailedPacketIDs), sendWorld, sendClock)
      {
        Send.ScanNext(queue, dict, failedIds, sendWorld, sendClock, i);
        packetsFailed, packetsToRemove, packetsSent :=
          CheckSend(fileSendQueue[i], packetsFailed, packetsToRemove, packetsSent);
        i := i + 1;
      }
      assert fileSendQueue[..i] == fileSendQueue;
    }

    /** The body of that loop, for the local variables of the pass. */
    method CheckSend(packetID: PacketId, failed: map<PacketId, Send.Outcome>, remove: set<PacketId>, sent: nat)
      returns (packetsFailed: map<PacketId, Send.Outcome>, packetsToRemove: set<PacketId>, packetsSent: nat)
      requires packetID in fileSendDict
      modifies `fileSendDict, `sendFailedPacketIDs
      ensures var t := Send.Tally(old(fileSendDict), old(sendFailedPacketIDs), failed, remove, sent);
        Send.Tally(fileSendDict, sendFailedPacketIDs, packetsFailed, packetsToRemove, packetsSent)
          == Send.Note1(t, packetID, Send.VerdictOn(t, packetID, sendWorld.Sees(sendClock, packetID)))
    {
      hide RemoveFirst;
      packetsFailed, packetsToRemove, packetsSent := failed, remove, sent;
      var fileToSend := fileSendDict[packetID];
      if packetID in sendFailedPacketIDs {
        sendFailedPacketIDs := RemoveFirst(sendFailedPacketIDs, packetID);
        packetsFailed := packetsFailed[packetID := Send.Failed];
        return;
      }
      if fileToSend.sent {
        packetsSent := packetsSent + 1;
        if fileToSend.acked {
          packetsToRemove := packetsToRemove + {packetID};
        } else if sendWorld.Sees(sendClock, packetID).late {
          packetsFailed := packetsFailed[packetID := Send.Timeout];
        }
        return;
      }
      if !sendWorld.Sees(sendClock, packetID).present {
        packetsFailed := packetsFailed[packetID := Send.NotExist];
        return;
      }
      if packetsSent > Send.FILE_SEND_MAX_LENGTH {
        if !sendWorld.Sees(sendClock, packetID).sizeKnown || fileToSend.size > Send.LARGE_FILE {
          return;
        }
      }
      fileSendDict := fileSendDict[packetID := fileToSend.(sent := true)];
      packetsSent := packetsSent + 1;
    }

    /** The second loop of a pass: every failed packet is reported. */
    method ReportFailures(packetsFailed: map<PacketId, Send.Outcome>)
      requires runSend && Send.Linked(fileSendQueue, fileSendDict) && Send.Ledger(fileSendDict, sendAccepted, sendGone)
      requires Send.Reasons(packetsFailed) && packetsFailed.Keys <= fileSendDict.Keys
      modifies `fileSendQueue, `fileSendDict, `sendFailedPacketIDs, `sendTask, `sendTaskSlow, `sendCalls, `runSend,
               `sendAccepted, `sendScheduled, `sendGone, `sendClock
      ensures runSend && Sends() == Send.FailAll(old(Sends()), sendWorld, packetsFailed)
      ensures Send.Linked(fileSendQueue, fileSendDict) && Send.Ledger(fileSendDict, sendAccepted, sendGone)
      decreases 0, 4
    {
      hide Send.FailAll, Send.Inv, Send.Linked, Send.Ledger, Send.SameFiles, Send.Window, Send.Notified;
      ghost var s := Sends();
      var todo := packetsFailed.Keys;
      ghost var done: map<PacketId, Send.Outcome> := map[];
      Send.FailNone(s, sendWorld);
      while todo != {}
        invariant runSend && todo <= packetsFailed.Keys
        invariant done == packetsFailed - todo
        invariant Sends() == Send.FailAll(s, sendWorld, done)
        decreases todo
      {
        var packetID :| packetID in todo;
        Send.FailAllLinked(s, sendWorld, done);
        Send.FailAllStep(s, sendWorld, done, packetID, packetsFailed[packetID]);
        OnFileSendFailReceived(packetID, packetsFailed[packetID]);
        todo := todo - {packetID};
        done := done[packetID := packetsFailed[packetID]];
      }
      assert done == packetsFailed;
      Send.FailAllLinked(s, sendWorld, done);
      Send.LedgerFrame(s.dict, fileSendDict, sendAccepted, sendGone);
    }

    /** The last loop of a pass and of a deletion: list.remove and del. */
    method RemoveFromSendQueue(packetsToRemove: set<PacketId>)
      requires Send.Linked(fileSendQueue, fileSendDict) && Send.Ledger(fileSendDict, sendAccepted, sendGone)
      modifies `fileSendQueue, `fileSendDict, `sendGone
      ensures Sends() == Send.Discard(old(Sends()), packetsToRemove)
    {
      hide Send.Discard;
      ghost var s := Sends();
      var todo := packetsToRemove;
      Send.DiscardNone(s);
      assert packetsToRemove - todo == {};
      while todo != {}
        invariant todo <= packetsToRemove
        invariant Sends() == Send.Discard(s, packetsToRemove - todo)
        decreases todo
      {
        var packetID :| packetID in todo;
        ghost var done := packetsToRemove - todo;
        assert packetsToRemove - (todo - {packetID}) == done + {packetID};
        todo := todo - {packetID};
        if packetID in s.dict {
          Send.DiscardStep(s, done, packetID);
        } else {
          Send.DiscardAbsent(s, done, packetID);
        }
        if packetID in fileSendDict {
          fileSendQueue := RemoveFirst(fileSendQueue, packetID);
          sendGone := sendGone[fileSendDict[packetID].serial := fileSendDict[packetID]];
          fileSendDict := fileSendDict - {packetID};
        }
      }
      assert packetsToRemove - {} == packetsToRemove;
    }

    method SendingTask()
      requires runSend || Send.Inv(Sends())
      modifies `fileSendQueue, `fileSendDict, `sendFailedPacketIDs, `sendTask, `sendTaskSlow, `sendCalls, `runSend,
               `sendAccepted, `sendScheduled, `sendGone, `sendClock
      ensures runSend == old(runSend)
      ensures Sends() ==
        if old(runSend) then Send.Arm(old(Sends()), sendWorld) else Send.SendingTask(old(Sends()), sendWorld)
      decreases if runSend then 0 else 1, 1
    {
      hide Send.Inv, Send.RunSend;
      RunSend();
      sendTaskSlow := sendWorld.Slow(sendClock);
      sendClock := sendClock + 1;
      sendTask := true;
      sendCalls := sendCalls + 1;
    }

    /** The reactor makes a call that is to come. */
    method FireSendingTask()
      requires SendValid() && sendCalls > 0
      modifies `fileSendQueue, `fileSendDict, `sendFailedPacketIDs, `sendTask, `sendTaskSlow, `sendCalls, `runSend,
               `sendAccepted, `sendScheduled, `sendGone, `sendClock
      ensures Sends() == Send.Step(old(Sends()), sendWorld, Send.Tick)
      ensures SendValid()
    {
      hide Send.Linked, Send.Ledger, Send.Notified, Send.Window, Send.SendingTask;
      sendCalls := sendCalls - 1;
      SendingTask();
    }

    method DoSend()
      requires runSend || Send.Inv(Sends())
      modifies `fileSendQueue, `fileSendDict, `sendFailedPacketIDs, `sendTask, `sendTaskSlow, `sendCalls, `runSend,
               `sendAccepted, `sendScheduled, `sendGone, `sendClock
      ensures runSend == old(runSend)
      ensures Sends() ==
        if old(runSend) then (if old(sendTask) then old(Sends()) else Send.Arm(old(Sends()), sendWorld))
        else Send.DoSend(old(Sends()), sendWorld)
      decreases if runSend then 0 else 1, 2
    {
      hide Send.Ledger, Send.Notified, Send.Window;
      if !sendTask {
        SendingTask();
        return;
      }
      if runSend {
        return;
      }
      if sendTaskSlow {
        sendTask := false;
      }
    }

    /** Note the result of a packet and schedule the callback that tells it. */
    method RecordResult(f: Send.FileToSend)
      requires f.result != Send.NoOutcome
      modifies `fileSendDict, `sendScheduled
      ensures Sends() == Send.Conclude(old(Sends()), f)
    {
      fileSendDict := fileSendDict[f.id := f];
      if f.result == Send.Acked {
        if f.callOnAck {
          sendScheduled := sendScheduled + {Send.AckNote(f.serial)};
        }
      } else {
        if f.callOnFail {
          sendScheduled := sendScheduled + {Send.FailNote(f.serial, f.result)};
        }
      }
    }

    method OnFileSendAckReceived(packetID: PacketId, isAck: bool)
      requires SendValid()
      modifies `fileSendQueue, `fileSendDict, `sendFailedPacketIDs, `sendTask, `sendTaskSlow, `sendCalls, `runSend,
               `sendAccepted, `sendScheduled, `sendGone, `sendClock
      ensures Sends() == Send.AckReceived(old(Sends()), sendWorld, packetID, isAck)
      ensures SendValid()
    {
      hide Send.Inv, Send.DoSend, Send.Conclude;
      Send.InvKnown(Sends());
      if packetID !in fileSendQueue {
        return;
      }
      var f := fileSendDict[packetID].(acked := true, result := if isAck then Send.Acked else Send.Failed);
      Send.ConcludeKeeps(Sends(), f);
      RecordResult(f);
      DoSend();
    }

    method OnFileSendFailReceived(packetID: PacketId, why: Send.Outcome)
      requires Send.Linked(fileSendQueue, fileSendDict) && why != Send.NoOutcome && why != Send.Acked
      requires runSend || Send.Inv(Sends())
      modifies `fileSendQueue, `fileSendDict, `sendFailedPacketIDs, `sendTask, `sendTaskSlow, `sendCalls, `runSend,
               `sendAccepted, `sendScheduled, `sendGone, `sendClock
      ensures runSend == old(runSend)
      ensures !old(runSend) ==> Sends() == Send.FailReceived(old(Sends()), sendWorld, packetID, why)
      ensures old(runSend) && packetID in old(fileSendDict) ==>
                Sends() == Send.FailAll(old(Sends()), sendWorld, map[packetID := why])
      decreases if runSend then 0 else 1, 3
    {
      hide Send.Ledger, Send.Notified, Send.Window;
      if packetID !in fileSendDict {
        return;
      }
      var f := fileSendDict[packetID].(result := why);
      if runSend {
        Send.FailOne(Sends(), sendWorld, packetID, why);
      } else {
        Send.ConcludeKeeps(Sends(), f);
      }
      RecordResult(f);
      DoSend();
    }

    method DeleteBackupSendings(backupName: string)
      requires SendValid()
      modifies `fileSendQueue, `fileSendDict, `sendFailedPacketIDs, `sendTask, `sendTaskSlow, `sendCalls, `runSend,
               `sendAccepted, `sendScheduled, `sendGone, `sendClock
      ensures Sends() == Send.DeleteSendings(old(Sends()), sendWorld, backupName)
      ensures SendValid()
    {
      hide Send.Ledger, Send.Notified, Send.Window, Send.Mentions, Send.DoSend, Send.Discard;
      var packetsToRemove: set<PacketId> := {};
      var i := 0;
      while i < |fileSendQueue|
        invariant !runSend && Send.Inv(Sends()) && Send.Reported(Sends(), packetsToRemove)
        invariant Send.DeleteScan(Sends(), sendWorld, backupName, i, packetsToRemove)
               == Send.DeleteScan(old(Sends()), sendWorld, backupName, 0, {})
        decreases |fileSendQueue| - i
      {
        var packetID := fileSendQueue[i];
        i := i + 1;
        if Send.Mentions(packetID, backupName) {
          ghost var s, f := Sends(), fileSendDict[packetID].(result := Send.DeleteRequest);
          Send.ConcludeKeeps(s, f);
          Send.ReportedGrows(Send.Conclude(s, f), Send.FailReceived(s, sendWorld, packetID, Send.DeleteRequest),
                             packetsToRemove, packetID);
          OnFileSendFailReceived(packetID, Send.DeleteRequest);
          packetsToRemove := packetsToRemove + {packetID};
        }
      }
      RemoveFromSendQueue(packetsToRemove);
    }

    // ----- requesting

    method SupplierRequestFile(packetID: PacketId) returns (accepted: bool)
      requires RequestValid()
      modifies `fileRequestQueue, `fileRequestDict, `requestFailedPacketIDs, `requestTask, `requestTaskSlow,
               `requestCalls, `requestRaised,
               `requestAccepted, `requestFates, `requestRetrieves, `requestRefused, `requestClock
      ensures accepted == (packetID !in old(fileRequestQueue))
      ensures Requests() == Req.RequestFile(old(Requests()), requestWorld, packetID)
      ensures RequestValid()
    {
      hide Req.Inv, Req.DoRequest;
      if packetID in fileRequestQueue {
        requestRefused := requestRefused + [packetID];
        return false;
      }
      Req.EnqueueKeeps(Requests(), packetID);
      fileRequestQueue := fileRequestQueue + [packetID];
      if packetID in fileRequestDict {
        requestFates := requestFates.(replaced := requestFates.replaced + {fileRequestDict[packetID].serial});
      }
      fileRequestDict := fileRequestDict[packetID := Req.FileToRequest(|requestAccepted|, packetID, false, false)];
      requestAccepted := requestAccepted + [packetID];
      assert Requests() == Req.Enqueue(old(Requests()), packetID);
      DoRequest();
      return true;
    }

    /** Look at the window, then report what failed or is already stored. The
        reports may start nested runs, always on a shorter queue. */
    method RunRequest()
      requires RequestValid()
      modifies `fileRequestQueue, `fileRequestDict, `requestFailedPacketIDs, `requestTask, `requestTaskSlow,
               `requestCalls, `requestRaised,
               `requestAccepted, `requestFates, `requestRetrieves, `requestRefused, `requestClock
      ensures Requests() == Req.RunRequest(old(Requests()), requestWorld)
      ensures RequestValid()
      decreases |fileRequestQueue|, 1
    {
      hide Req.Inv, Req.Open, Req.Finish;
      ghost var before, bound := Requests(), |fileRequestQueue|;
      var packetsToRemove := CheckRequestQueue();
      var k := 0;
      assert packetsToRemove[0..] == packetsToRemove;
      while k < |packetsToRemove| && !requestRaised
        invariant k <= |packetsToRemove| && RequestValid() && |fileRequestQueue| <= bound
        invariant k < |packetsToRemove| && |fileRequestQueue| == bound ==> packetsToRemove[k].0 in fileRequestQueue
        invariant Req.Drain(Requests(), requestWorld, packetsToRemove[k..], bound)
               == Req.RunRequest(before, requestWorld)
      {
        assert packetsToRemove[k..][1..] == packetsToRemove[k+1..];
        OnDataRequestFailed(packetsToRemove[k].0, packetsToRemove[k].1);
        k := k + 1;
      }
    }

    /** The first part of RunRequest. */
    method CheckRequestQueue() returns (packetsToRemove: seq<(PacketId, Req.Answer)>)
      requires RequestValid()
      modifies `fileRequestDict, `requestFailedPacketIDs, `requestRetrieves, `requestClock
      ensures Requests() == Req.Open(old(Requests()), requestWorld).s
      ensures packetsToRemove == Req.Open(old(Requests()), requestWorld).todo
      ensures RequestValid()
    {
      hide Req.Inv, Req.Examine;
      Req.PlacedKnown(Requests());
      packetsToRemove := CheckRequestWindow();
      if |fileRequestQueue| == 0 {
        requestFailedPacketIDs := [];
      }
      if requestWorld.Flipped(requestClock) && |packetsToRemove| == 2 {
        packetsToRemove := [packetsToRemove[1], packetsToRemove[0]];
      }
      requestClock := requestClock + 1;
    }

    /** The first loop of RunRequest. */
    method CheckRequestWindow() returns (packetsToRemove: seq<(PacketId, Req.Answer)>)
      requires forall id :: id in fileRequestQueue ==> id in fileRequestDict
      modifies `fileRequestDict, `requestFailedPacketIDs, `requestRetrieves
      ensures Req.Exam(Requests(), packetsToRemove)
           == Req.Examine(old(Requests()), requestWorld, Req.WindowSize(old(Requests())))
    {
      hide Req.Examine, Req.ExamineOne, Req.Advances, Req.Ids, Req.Due;
      ghost var before := Requests();
      packetsToRemove := [];
      var i := 0;
      Req.ExamineNext(before, requestWorld, 0);
      while i < Req.FILE_REQUEST_MAX_LENGTH && i < |fileRequestQueue|
        invariant i <= Req.WindowSize(before)
        invariant Req.Exam(Requests(), packetsToRemove) == Req.Examine(before, requestWorld, i)
      {
        Req.ExamineNext(before, requestWorld, i);
        packetsToRemove := CheckRequest(fileRequestQueue[i], packetsToRemove);
        i := i + 1;
      }
    }

    /** The body of that loop. */
    method CheckRequest(packetID: PacketId, todo: seq<(PacketId, Req.Answer)>)
      returns (packetsToRemove: seq<(PacketId, Req.Answer)>)
      requires packetID in fileRequestDict
      modifies `fileRequestDict, `requestFailedPacketIDs, `requestRetrieves
      ensures Req.Exam(Requests(), packetsToRemove)
           == Req.ExamineOne(Req.Exam(old(Requests()), todo), requestWorld, packetID)
    {
      packetsToRemove := todo;
      if packetID in requestFailedPacketIDs {
        requestFailedPacketIDs := RemoveFirst(requestFailedPacketIDs, packetID);
        packetsToRemove := packetsToRemove + [(packetID, Req.Failed)];
      } else if !fileRequestDict[packetID].requested {
        if !requestWorld.Stored(requestClock, packetID) {
          requestRetrieves := requestRetrieves + [fileRequestDict[packetID].serial];
          fileRequestDict := fileRequestDict[packetID := fileRequestDict[packetID].(requested := true)];
        } else {
          packetsToRemove := packetsToRemove + [(packetID, Req.Exist)];
        }
      }
    }

    /** A run, and unless it raised the next call scheduled. */
    method RequestTask()
      requires RequestValid()
      modifies `fileRequestQueue, `fileRequestDict, `requestFailedPacketIDs, `requestTask, `requestTaskSlow,
               `requestCalls, `requestRaised,
               `requestAccepted, `requestFates, `requestRetrieves, `requestRefused, `requestClock
      ensures Requests() == Req.RequestTask(old(Requests()), requestWorld)
      ensures RequestValid()
      decreases |fileRequestQueue|, 2
    {
      hide Req.Placed, Req.Ledger, Req.Asked, Req.RunRequest;
      RunRequest();
      if requestRaised {
        return;
      }
      requestTaskSlow := requestWorld.Slow(requestClock);
      requestClock := requestClock + 1;
      requestTask := Req.Scheduled;
      requestCalls := requestCalls + 1;
    }

    /** The reactor fires a scheduled call, and catches what it raises. */
    method FireRequestTask(current: bool)
      requires RequestValid() && Req.ToCome(Requests(), current)
      modifies `fileRequestQueue, `fileRequestDict, `requestFailedPacketIDs, `requestTask, `requestTaskSlow,
               `requestCalls, `requestRaised,
               `requestAccepted, `requestFates, `requestRetrieves, `requestRefused, `requestClock
      ensures Requests() == Req.Step(old(Requests()), requestWorld, Req.Tick(current))
      ensures RequestValid()
    {
      hide Req.Placed, Req.Ledger, Req.Asked, Req.RequestTask;
      if current && requestTask == Req.Scheduled {
        requestTask := Req.Fired;
      }
      requestCalls := requestCalls - 1;
      RequestTask();
      requestRaised := false;
    }

    /** Cancelling a call that has fired raises. */
    method DoRequest()
      requires RequestValid()
      modifies `fileRequestQueue, `fileRequestDict, `requestFailedPacketIDs, `requestTask, `requestTaskSlow,
               `requestCalls, `requestRaised,
               `requestAccepted, `requestFates, `requestRetrieves, `requestRefused, `requestClock
      ensures Requests() == Req.DoRequest(old(Requests()), requestWorld)
      ensures RequestValid()
      decreases |fileRequestQueue|, 3
    {
      hide Req.Placed, Req.Ledger, Req.Asked, Req.RequestTask;
      if requestTask == Req.NoTask {
        RequestTask();
      } else if requestTaskSlow {
        if requestTask == Req.Fired {
          requestRaised := true;
          return;
        }
        requestCalls := if requestCalls > 0 then requestCalls - 1 else 0;
        requestTask := Req.NoTask;
        RequestTask();
      }
    }

    method OnDataRequestFailed(packetID: PacketId, why: Req.Answer)
      requires RequestValid()
      modifies `fileRequestQueue, `fileRequestDict, `requestFailedPacketIDs, `requestTask, `requestTaskSlow,
               `requestCalls, `requestRaised,
               `requestAccepted, `requestFates, `requestRetrieves, `requestRefused, `requestClock
      ensures Requests() == Req.Finish(old(Requests()), requestWorld, packetID, why)
      ensures RequestValid()
      decreases |fileRequestQueue| - (if packetID in fileRequestQueue then 1 else 0), 4
    {
      hide Req.Inv, Req.DoRequest;
      Req.SettleKeeps(Requests(), packetID, why);
      TakeOff(packetID);
      if packetID in fileRequestDict {
        requestFates := requestFates.(calls := requestFates.calls + [Req.Call(fileRequestDict[packetID].serial, why)]);
        fileRequestDict := fileRequestDict - {packetID};
      }
      assert Requests() == Req.Settle(old(Requests()), packetID, why);
      DoRequest();
    }

    /** if packetID in queue: queue.remove(packetID) */
    method TakeOff(packetID: PacketId)
      modifies `fileRequestQueue
      ensures fileRequestQueue == RemoveFirst(old(fileRequestQueue), packetID)
    {
      if packetID in fileRequestQueue {
        fileRequestQueue := RemoveFirst(fileRequestQueue, packetID);
      } else {
        RemoveFirstAbsent(fileRequestQueue, packetID);
      }
    }

    method OnDataReceived(packetID: PacketId, response: Req.Response)
      requires RequestValid()
      modifies `fileRequestQueue, `fileRequestDict, `requestFailedPacketIDs, `requestTask, `requestTaskSlow,
               `requestCalls, `requestRaised,
               `requestAccepted, `requestFates, `requestRetrieves, `requestRefused, `requestClock
      ensures Requests() == Req.DataReceived(old(Requests()), requestWorld, packetID, response)
      ensures RequestValid()
    {
      hide Req.Inv, Req.DoRequest;
      Req.SpoilKeeps(Requests(), packetID);
      var answer := if response == Req.ValidData then Req.Received else Req.Failed;
      Req.SettleKeeps(Requests(), packetID, answer);
      TakeOff(packetID);
      if response == Req.InvalidData {
        if packetID in fileRequestDict {
          fileRequestDict := fileRequestDict[packetID := fileRequestDict[packetID].(spoiled := true)];
        }
        assert Requests() == Req.Spoil(old(Requests()), packetID);
        return;
      }
      if packetID in fileRequestDict {
        var call := Req.Call(fileRequestDict[packetID].serial, answer);
        requestFates := requestFates.(calls := requestFates.calls + [call]);
        fileRequestDict := fileRequestDict - {packetID};
      }
      assert Requests() == Req.Settle(old(Requests()), packetID, answer);
      DoRequest();
    }

    method DeleteBackupRequests(backupName: string)
      requires RequestValid()
      modifies `fileRequestQueue, `fileRequestDict, `requestFates
      ensures Requests() == Req.DeleteRequests(old(Requests()), backupName)
      ensures RequestValid()
    {
      var packetsToRemove: set<PacketId> := {};
      var i := 0;
      while i < |fileRequestQueue|
        invariant i <= |fileRequestQueue|
        invariant packetsToRemove == Send.Matching(fileRequestQueue[..i], backupName)
      {
        assert fileRequestQueue[..i+1] == fileRequestQueue[..i] + [fileRequestQueue[i]];
        if Send.Mentions(fileRequestQueue[i], backupName) {
          packetsToRemove := packetsToRemove + {fileRequestQueue[i]};
        }
        i := i + 1;
      }
      assert fileRequestQueue[..i] == fileRequestQueue;
      RemoveFromRequestQueue(packetsToRemove);
    }

    method RemoveFromRequestQueue(packetsToRemove: set<PacketId>)
      requires NoDup(fileRequestQueue) && packetsToRemove <= fileRequestDict.Keys
      modifies `fileRequestQueue, `fileRequestDict, `requestFates
      ensures Requests() == Req.Remove(old(Requests()), packetsToRemove)
    {
      hide NoDup, RemoveFirst, Req.Remove;
      ghost var s := Requests();
      ghost var done: set<PacketId> := {};
      var todo := packetsToRemove;
      Req.RemoveNone(s);
      while todo != {}
        invariant todo !! done && todo + done == packetsToRemove
        invariant Requests() == Req.Remove(s, done)
        decreases todo
      {
        var packetID :| packetID in todo;
        Req.RemoveStep(s, done, packetID);
        todo, done := todo - {packetID}, done + {packetID};
        fileRequestQueue := RemoveFirst(fileRequestQueue, packetID);
        requestFates := requestFates.(deleted := requestFates.deleted + {fileRequestDict[packetID].serial});
        fileRequestDict := fileRequestDict - {packetID};
      }
      assert done == packetsToRemove;
    }

    // ----- both halves

    /** The transport tells how sending a packet ended. */
    method OutboxStatus(packetID: PacketId, finished: bool)
      requires SendValid() && RequestValid()
      modifies `fileSendQueue, `fileSendDict, `sendFailedPacketIDs, `sendTask, `sendTaskSlow, `sendCalls, `runSend,
               `sendAccepted, `sendScheduled, `sendGone, `sendClock,
               `fileRequestQueue, `fileRequestDict, `requestFailedPacketIDs, `requestTask, `requestTaskSlow,
               `requestCalls, `requestRaised,
               `requestAccepted, `requestFates, `requestRetrieves, `requestRefused, `requestClock
      ensures Sends() == Send.Outbox(old(Sends()), sendWorld, packetID, finished)
      ensures Requests() == Req.Outbox(old(Requests()), requestWorld, packetID, finished)
      ensures SendValid() && RequestValid()
    {
      hide Send.Inv, Send.Outbox, Req.Inv, Req.Outbox;
      SendingStatus(packetID, finished);
      RequestStatus(packetID, finished);
    }

    method SendingStatus(packetID: PacketId, finished: bool)
      requires SendValid()
      modifies `fileSendQueue, `fileSendDict, `sendFailedPacketIDs, `sendTask, `sendTaskSlow, `sendCalls, `runSend,
               `sendAccepted, `sendScheduled, `sendGone, `sendClock
      ensures Sends() == Send.Outbox(old(Sends()), sendWorld, packetID, finished)
      ensures SendValid()
    {
      hide Send.Linked, Send.Window, Send.Ledger, Send.Notified, Send.DoSend;
      if !finished && packetID in fileSendQueue {
        sendFailedPacketIDs := sendFailedPacketIDs + [packetID];
        DoSend();
      }
    }

    method RequestStatus(packetID: PacketId, finished: bool)
      requires RequestValid()
      modifies `fileRequestQueue, `fileRequestDict, `requestFailedPacketIDs, `requestTask, `requestTaskSlow,
               `requestCalls, `requestRaised,
               `requestAccepted, `requestFates, `requestRetrieves, `requestRefused, `requestClock
      ensures Requests() == Req.Outbox(old(Requests()), requestWorld, packetID, finished)
      ensures RequestValid()
    {
      hide Req.Placed, Req.Ledger, Req.Asked, Req.DoRequest;
      if !finished && packetID in fileRequestQueue {
        requestFailedPacketIDs := requestFailedPacketIDs + [packetID];
        DoRequest();
      }
    }
  }
}
