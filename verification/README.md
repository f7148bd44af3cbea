# A verified model of BitDust's core state machines

BitDust is a peer-to-peer backup client whose logic sits in event-driven objects
that update lists, dictionaries and counters. This project models the delicate
ones in Dafny and proves what they promise. Run `dafny verify dfyconfig.toml`.

## How it is built

Each component comes as a specification and a class. The specification gives every
operation as a function on values, an event type and a `Run` over any sequence of
events, and proves what all runs keep. The class has the fields of the Python
object; its methods update them in place, with the loops and branches of the
source, and each is proved to compute exactly the function of the specification.
Further files prove what each event does, said without those functions: who is
called back, and with what; and why, over whole runs.

| files | component |
|---|---|
| `SendSpec.dfy`, `SendEffects.dfy`, `SendProgress.dfy`, `RequestSpec.dfy`, `RequestEffects.dfy`, `SupplierQueue.dfy` | the I/O scheduler for one supplier (`customer/io_throttle.py`) |
| `Flooding.dfy`, `FloodRelay.dfy`, `BroadcasterNode.dfy` | broadcast flooding, one node and a network of nodes (`broadcast/broadcaster_node.py`) |
| `SupplierList.dfy`, `Hiring.dfy`, `Decisions.dfy`, `FireHire.dfy` | hiring and firing suppliers (`customer/fire_hire.py`, `contacts/contactsdb.py`) |
| `DhtRelations.dfy`, `RelationsLookup.dfy` | relation slots in the distributed table (`dht/dht_relations.py`) |
| `CoinChain.dfy`, `CoinsMiner.dfy` | coin mining (`coins/coins_miner.py`) |
| `MessageSpec.dfy`, `MessageHistory.dfy`, `MessageQueues.dfy` | message queues of consumers (`chat/message.py`) |
| `AutomatSpec.dfy`, `Automat.dfy` | the event engine under all state machines (`automats/automat.py`) |
| `KeySpec.dfy`, `KeyStore.dfy` | the key store and its folder (`crypt/my_keys.py`) |
| `Sequences.dfy` | shared facts about sequences |

The reactor is "some enabled step happens next". What the code cannot control is
a parameter: whether a file is on disk or an acknowledgement is late (finite
tables indexed by a logical clock, since a run asks finitely often), the order in
which a Python dictionary or set lists its keys (an argument that may be any
enumeration), the hash function, random starters, and whether a read or a write succeeds.

## What the code does not do

Some properties one would expect do not hold of the code. The model keeps the
code as it is; each of these is proved, with the exact condition.

- `doAddBroadcaster` logs SKIP for a listener but appends it all the same
  (`broadcast/broadcaster_node.py:221-223`), so the two lists stay disjoint if and
  only if the new broadcaster is no listener (`Flooding.Connections`). A packet
  that reaches a node which has not sent its message is then lost if and only if
  the owner of the message stands in both lists there (`Flooding.LostExactly`);
  any other peer listed twice does no harm. A message spreads in every run if and
  only if no connection leads from a node that accepts its owner to one that lists
  him twice (`Flooding.SpreadsExactly`, `Flooding.MixedStops`).
- A broadcaster's own message has no packet, so `newpacket.OwnerID` raises as soon
  as one listener is connected, and the message is lost (`Flooding.OwnMessage`).
- A read that fails counts as a miss (`dht/dht_relations.py:105-107`), so
  publishing can write over, and closing can delete, a record it could not see.
  Another supplier is lost if and only if the slot touched could not be read and
  holds his only record (`DhtRelations.OthersKept`, `DhtRelations.UnreadLost`).
- Closing a relation deletes the first slot that is free, invalid, repeated or
  own. It removes the supplier's records if and only if each of them is that slot
  (`DhtRelations.CloseErases`, `DhtRelations.CloseMisses`).
- A publisher whose own record stands behind a slot that could not be read ends up
  in the table twice (`DhtRelations.PublishPacks`, `DhtRelations.UnreadRepeats`).
- A hiring phase fed with fresh suppliers never ends if and only if two or more of
  the desired positions repeat a healthy supplier (`Hiring.HirePhase`,
  `Hiring.EndlessPhase`); with none or one it ends after max(1, D - K) hires. The
  positions then hold distinct suppliers if and only if none was repeated
  (`Hiring.PhaseOutcome`). No run brings a repetition in
  (`Hiring.PositionsStable`), but a stored list may hold some. The theorems also
  cover an empty name among those to be dismissed, which can cost one hire more;
  `doDecideToDismiss` and the calls of `AddSupplierToFire` never pass one
  (`interface/api.py:1863-1865`, `interface/api.py:1895-1901`).
- Firing without hiring counts healthy suppliers behind the desired positions as
  enough and then cuts them off (`Hiring.FiringFills`, `Hiring.FiringLeavesHole`).
- `isAllDismissed` compares the suppliers to dismiss, one less with every connector
  closed, with the answers, one more with each of them (`customer/fire_hire.py:349`).
  With n to dismiss the phase ends if and only if, after n answers and posted
  events in any mixture, a posted event comes next (`Hiring.FirePhase`). If they
  answer in turn it ends early for odd n > 1, with connectors left open, and never
  by itself for even n (`Hiring.FiredInTurn`). When the time runs out,
  `doCloseConnectors` closes every other connector only (`Hiring.CloseAllSkips`).
- When a call of `RequestTask` that was delayed by more than a second runs and has
  a packet to report, `DoRequest` cancels the very call that is running
  (`customer/io_throttle.py:691-699`), which raises. Only the first report is made
  and nothing is scheduled again; this happens if and only if a packet of the
  first two positions is due for a report (`RequestSpec.TickStalls`). From then
  on every restart of the loop raises, and if no other call is pending no request
  is ever sent again (`RequestSpec.StalledForGood`). A run with five events gets
  there (`RequestSpec.StallReached`). Nothing else ends the request loop
  (`RequestEffects.RequestLoopLives`).
- The sending loop never dies (`SendEffects.SendLoopLives`), but it multiplies:
  `DoSend` in a slow loop cancels the call and posts another that no task refers
  to (`customer/io_throttle.py:572-575`); a second `DoSend` before that one comes
  starts a second loop, and no loop ever ends (`SendEffects.SlowLoop`).
- Exactly the declared timers run if and only if no timer is ever started while
  one of its name is in the dictionary. That happens when an event fired on the
  spot moves the machine on to a state with that timer, from the hook
  `state_changed` (`AutomatSpec.HookLeaks`) or from a timer that fires as soon as
  it is started (`AutomatSpec.InstantLeaks`); then looping calls run on that nobody
  stops (`AutomatSpec.TimersRun`). A timer declared for all states runs but never
  fires its event (`AutomatSpec.RunningFires`).
- The key folder reloads to the keys in memory if and only if every key ID is valid
  and contains neither `.private` nor `.public`, and every private key passes the
  validation on loading (`KeySpec.ReloadExact`).

The code also departs from its own words in three places, and the model follows
the code: `max_misses_in_row` counts from the first miss, not misses in a row
(`dht/dht_relations.py:145-146`); a consumer is dropped only when it has more than
100 messages and no callback at all (`chat/message.py:476`, against
`interface/api.py:2843`); and `fileSendMaxLength = 4` lets five large packets out
(`customer/io_throttle.py:479`).

## Model

| member | source | states |
|---|---|---|
| SendSpec.SendWindow | customer/io_throttle.py:435-541 | in every reachable state at most five sent packets over 10 KB are still queued, and everything queued ahead of one of them is sent, whatever small files, answers, timeouts, failures, deletions and appends come between |
| SendSpec.SendConservation | customer/io_throttle.py:403-433 | in every reachable state the queue has no duplicates and lists exactly the dictionary's keys; an accepted packet is either queued or gone, and gone only after the callback for its result was scheduled, if given |
| SendSpec.RunSendKeeps | customer/io_throttle.py:435-553 | one pass keeps window, ledger, notification and queue/dictionary agreement from any state that has them; nobody's result changes and the queue gets no longer |
| SendSpec.ScanWindow | customer/io_throttle.py:444-532 | what the examining loop keeps satisfies the window, and is all sent while no more than four were counted |
| SendSpec.PassRemoves | customer/io_throttle.py:444-541 | a pass removes exactly the packets reported failed, answered, timed out, or unsent without their file; the others keep their order |
| SendSpec.PassSends | customer/io_throttle.py:471-532 | after a pass every remaining small packet and every remaining one of the first five positions is sent |
| SendSpec.AcceptKeeps | customer/io_throttle.py:420-427 | appending a packet keeps the whole invariant |
| SendSpec.ConcludeKeeps | customer/io_throttle.py:796-804 | recording a result and scheduling its callback keeps the whole invariant |
| SendSpec.DeleteExact | customer/io_throttle.py:701-714 | when no pass can run inside the loop, a deletion removes exactly the packets whose ID contains the name |
| SendSpec.DeleteNotifies | customer/io_throttle.py:707-710 | ... and each packet it removes has its failure callback scheduled, if given |
| SendSpec.DiscardKeeps | customer/io_throttle.py:711-714 | removing packets that have been reported keeps the whole invariant |
| SendSpec.Run | customer/io_throttle.py:403-846 | every sequence of queueing, passes, answers, transport reports and deletions ends in a state with the whole invariant |
| SendEffects.TickOutcome | customer/io_throttle.py:444-541 | what a call of the sending task makes of each queued packet: it leaves as failed, as answered, by timeout, or without its file, in this order of precedence, with its callback scheduled for that result if given; any other stays |
| SendEffects.TickSendsExactly | customer/io_throttle.py:475-532 | a waiting packet is sent exactly if it is known to be of at most 10 KB, or at most four packets before it, not counting those reported failed, have been sent or go out in the same pass |
| SendEffects.TickForgets | customer/io_throttle.py:546-548 | reports of the transport about packets not queued are kept until the queue is empty |
| SendEffects.AnswerTold | customer/io_throttle.py:780-816 | an Ack schedules the acknowledgement callback and a Fail the failure callback of a queued packet, if given, whatever pass it starts; another answer does nothing |
| SendEffects.StatusNoted | customer/io_throttle.py:749-757 | a failed transfer of a queued packet is noted for the next pass, or reported by one at once; another status does nothing |
| SendEffects.QueueFileExact | customer/io_throttle.py:403-433 | a packet is refused, with its reason told if a callback is given, exactly if the supplier is offline or the ID queued, and else appended with the size and callbacks given |
| SendEffects.CallbacksCaused | customer/io_throttle.py:403-846 | in every run a callback tells of what happened: an Ack, a Fail or failed transfer, a timeout, a missing file, a deletion by a name in the ID, or a refusal |
| SendEffects.SendLoopLives | customer/io_throttle.py:555-575 | in every reachable state a call of the sending task is to come if anything was accepted |
| SendEffects.SlowLoop | customer/io_throttle.py:565-575 | waking a slow loop twice before the posted call comes leaves one loop more |
| SendProgress.RunSteady | customer/io_throttle.py:403-846 | in every reachable state the queue is in the order of acceptance: nobody is overtaken |
| SendProgress.PacketServed | customer/io_throttle.py:435-575 | in every run, a packet with p packets queued before it has left, with its callback scheduled if given, once 2 * (p / 5 + 1) passes have come at times when those sent up to it were answered, late or failed, whatever else happens in between |
| SendProgress.QueueServed | customer/io_throttle.py:435-575 | if nothing more is accepted, a queue of q packets is empty after 2 * ceil(q / 5) such passes |
| SendProgress.WaitReached | customer/io_throttle.py:470-485 | the bound is exact: for every p there is a run in which a packet is still queued after one pass less |
| RequestSpec.RequestWindow | customer/io_throttle.py:599-672 | in every reachable state all requested and unanswered packets sit in the first two positions, so at most two are outstanding |
| RequestSpec.RequestConservation | customer/io_throttle.py:577-926 | in every reachable state an accepted request is in exactly one place: queued, left over after invalid Data, called back, deleted by name or replaced; it is called back at most once and asked for at most once; dictionary entries outside the queue are exactly those left over |
| RequestSpec.RunRequest | customer/io_throttle.py:599-672 | a run terminates although its callbacks start nested runs; it keeps the invariant, lengthens no queue and takes back no request |
| RequestSpec.Drain | customer/io_throttle.py:664-670 | the reporting loop: until its first report the packet is still queued, after it every nested run starts on a queue shorter than at the start of the run, also when an inner run already removed IDs still to be reported |
| RequestSpec.Finish | customer/io_throttle.py:900-926 | a failed or answered packet leaves a strictly shorter queue, through the run it may start |
| RequestSpec.DoRequest | customer/io_throttle.py:691-699 | restarting the request loop keeps the invariant and terminates; it can raise only in a stalled loop, one whose slow call has fired |
| RequestSpec.RequestTask | customer/io_throttle.py:674-689 | a run and the scheduling of the next keep the invariant, terminate, and raise only in a stalled loop |
| RequestSpec.RunServes | customer/io_throttle.py:602-670 | after a run each packet of the first two positions has been asked for or has left, except exactly one that is due for a report, not asked for, and not first (or last of two, if the dictionary lists them in reverse) among those due, in a stalled loop |
| RequestSpec.RunReports | customer/io_throttle.py:605-670 | a run closes each request of the first two positions that is due for a report, as failed or as stored already, exactly if the loop does not stall or no other that is due is listed before it |
| RequestSpec.FirstReport | customer/io_throttle.py:605-670 | which packet a run reports first: the first one due in the window, or the last if the dictionary lists two in reverse |
| RequestSpec.TickStalls | customer/io_throttle.py:664-699 | a slow scheduled call stalls the loop exactly if a packet of the first two positions is due for a report |
| RequestSpec.StalledForGood | customer/io_throttle.py:691-699 | a stalled loop with no other call to come stays so, whatever happens, and sends no request again |
| RequestSpec.StallReached | customer/io_throttle.py:691-699 | a run of five events, with invalid Data among them, that stalls and sends no request again however it goes on |
| RequestSpec.SettleKeeps | customer/io_throttle.py:911-923 | taking a request off and calling it back keeps the invariant; its callback had not been called before |
| RequestSpec.SpoilKeeps | customer/io_throttle.py:870-879 | invalid Data takes the packet off the queue, leaves it in the dictionary, and keeps the invariant |
| RequestSpec.EnqueueKeeps | customer/io_throttle.py:589-591 | a new request, also one that replaces an entry left over, keeps the invariant |
| RequestSpec.DeleteRequests | customer/io_throttle.py:722-738 | deleting by name keeps the invariant |
| RequestSpec.Run | customer/io_throttle.py:577-926 | every sequence of requests, runs, answers, transport reports and deletions ends in a state with the invariant |
| RequestEffects.ReplyTold | customer/io_throttle.py:848-898 | valid Data calls a request back as received and a Fail as failed, whatever runs follow; other Data calls nobody back and takes the packet off the queue |
| RequestEffects.RequestTold | customer/io_throttle.py:577-597 | a queued packet is refused; any other is accepted, and kept until it is called back |
| RequestEffects.DeleteTold | customer/io_throttle.py:722-738 | a deletion takes out exactly the queued packets that contain the name, and calls nobody back |
| RequestEffects.StatusTold | customer/io_throttle.py:757-760 | a failed transfer is noted in a fast or stalled loop, and closes a request in the window at once in any other |
| RequestEffects.KickRuns | customer/io_throttle.py:691-699 | a slow loop, or one that has not begun, runs as soon as it is kicked: the window is closed where due and asked for where not |
| RequestEffects.WindowAsked | customer/io_throttle.py:625-655 | a run asks for each packet of the first two positions that was not asked for, is not stored and not reported failed |
| RequestEffects.FirstAnswer | customer/io_throttle.py:605-670 | the first report of a run calls back as failed what the transport reported, and as existing what is stored |
| RequestEffects.CallbacksCaused | customer/io_throttle.py:577-926 | in every run a request is called back as received only after valid Data for it, as failed only after a Fail or a failed transfer, and as existing only if its file was stored |
| RequestEffects.RequestLoopLives | customer/io_throttle.py:674-699 | in every reachable state in which something was accepted a call of the request task is to come, or the loop is stalled |
| SupplierQueues.SupplierQueue.constructor | customer/io_throttle.py:327-369 | a new queue is empty in both halves |
| SupplierQueues.SupplierQueue.SupplierSendFile | customer/io_throttle.py:403-433 | refuses offline suppliers and queued IDs with their callback, appends otherwise, and runs the queue |
| SupplierQueues.SupplierQueue.RunSend | customer/io_throttle.py:435-553 | one pass computes the specified pass; a pass inside a pass does nothing |
| SupplierQueues.SupplierQueue.CheckSendQueue | customer/io_throttle.py:444-532 | the examining loop computes the specified scan and makes reports and removals safe |
| SupplierQueues.SupplierQueue.ReportFailures | customer/io_throttle.py:534-536 | reporting the failed packets one by one, in any order, equals reporting them at once |
| SupplierQueues.SupplierQueue.RemoveFromSendQueue | customer/io_throttle.py:538-540 | removing packets one by one, in any order, drops exactly them and keeps the order of the rest |
| SupplierQueues.SupplierQueue.SendingTask | customer/io_throttle.py:555-563 | a pass, and the next one scheduled |
| SupplierQueues.SupplierQueue.FireSendingTask | customer/io_throttle.py:555-563 | the reactor makes a scheduled call of the sending task |
| SupplierQueues.SupplierQueue.DoSend | customer/io_throttle.py:565-575 | starts, leaves alone or restarts the sending loop |
| SupplierQueues.SupplierQueue.OnFileSendAckReceived | customer/io_throttle.py:780-816 | notes the answer of a queued packet, schedules its callback, runs the queue |
| SupplierQueues.SupplierQueue.OnFileSendFailReceived | customer/io_throttle.py:822-842 | notes the failure, schedules its callback, and inside a pass starts none |
| SupplierQueues.SupplierQueue.DeleteBackupSendings | customer/io_throttle.py:701-717 | walks the live queue while reports may run passes that shorten it |
| SupplierQueues.SupplierQueue.SupplierRequestFile | customer/io_throttle.py:577-597 | refuses queued IDs, appends otherwise, and runs the queue |
| SupplierQueues.SupplierQueue.RunRequest | customer/io_throttle.py:599-672 | computes the specified run, nested runs included, and terminates |
| SupplierQueues.SupplierQueue.CheckRequestQueue | customer/io_throttle.py:602-663 | asks for what may be asked for and lists what is to be reported |
| SupplierQueues.SupplierQueue.RequestTask | customer/io_throttle.py:674-689 | a run, and the next one scheduled unless the run raised |
| SupplierQueues.SupplierQueue.FireRequestTask | customer/io_throttle.py:674-689 | the reactor fires a scheduled call: the run it makes, and an exception caught |
| SupplierQueues.SupplierQueue.DoRequest | customer/io_throttle.py:691-699 | starts or restarts the request loop on the spot; raises if the slow call it would cancel has fired |
| SupplierQueues.SupplierQueue.OnDataRequestFailed | customer/io_throttle.py:900-926 | takes the packet off, calls back, deletes the entry, runs the queue |
| SupplierQueues.SupplierQueue.OnDataReceived | customer/io_throttle.py:848-898 | valid Data and Fail close the request, invalid Data only takes it off the queue |
| SupplierQueues.SupplierQueue.DeleteBackupRequests | customer/io_throttle.py:722-738 | removes exactly the requests whose ID contains the name |
| SupplierQueues.SupplierQueue.OutboxStatus | customer/io_throttle.py:749-760 | an unfinished transfer is noted in each half that queues the packet, and that half runs |
| Flooding.FloodCovers | broadcast/broadcaster_node.py:246-316 | when nothing is in flight or pending, every node reachable from one that sent a message has sent it, called its callback exactly once and forwarded it to each neighbour, exactly once if no peer is listed twice; it is enough that connections between nodes let the owners of the message pass |
| Flooding.RunKeeps | broadcast/broadcaster_node.py:246-375 | in every reachable state, whatever the lists hold, the callbacks made and the packets sent are those of the messages marked sent, each callback once, and each packet once if no peer is listed twice |
| Flooding.RunCovers | broadcast/broadcaster_node.py:246-375 | in every reachable state each neighbour of a node that sent a message has sent it too or has a copy on the way that it will not drop |
| Flooding.AtMostOnce | broadcast/broadcaster_node.py:257-282 | at any time a node has called back at most once per message and forwarded it to its neighbours exactly if the message is marked sent, to each at most once if no peer is listed twice |
| Flooding.StepDescends | broadcast/broadcaster_node.py:246-375 | each delivery and each event uses up part of the potential of its message and adds to no other |
| Flooding.FloodEnds | broadcast/broadcaster_node.py:246-375 | under every schedule, with duplicates, the steps about one message are bounded by two for each copy that may still be sent and those under way |
| Flooding.NetworkRests | broadcast/broadcaster_node.py:246-375 | no schedule of deliveries and events is longer than the total potential of the messages under way |
| Flooding.Progress | broadcast/broadcaster_node.py:355-375 | a network that is not quiet always has a possible step |
| Flooding.RecipientsExact | broadcast/broadcaster_node.py:267-281 | a message goes to every broadcaster and to each listener whose scope is empty or names its owner, except the owner of an outbound packet, and to nobody twice |
| Flooding.OwnMessage | broadcast/broadcaster_node.py:297-300 | a node's own message gets out exactly if nobody listens to the node |
| Flooding.Connections | broadcast/broadcaster_node.py:212-238 | broadcasters are never listed twice, and the lists stay disjoint exactly if the new broadcaster is no listener |
| FloodRelay.Listed | broadcast/broadcaster_node.py:212-351 | after a connection exactly its peer is added, with its scope, and after a disconnection exactly it is gone; nobody else changes |
| FloodRelay.Relayed | broadcast/broadcaster_node.py:246-375 | a packet that arrives and is handled reaches every broadcaster and every listener in scope, except its own sender if the owner of the message listens; the callback is called once if given |
| FloodRelay.OwnSaid | broadcast/broadcaster_node.py:284-316 | a node's own message reaches exactly the broadcasters if nobody listens, and else nobody |
| FloodRelay.SentIgnored | broadcast/broadcaster_node.py:361-365 | a packet of a message already sent does nothing |
| Flooding.LostExactly | broadcast/broadcaster_node.py:360-375 | a packet that reaches a node which has not sent its message is lost exactly if the owner of the message is in both lists there; otherwise it becomes an event that makes the node send |
| Flooding.SpreadsExactly | broadcast/broadcaster_node.py:246-375 | a message spreads along every path in every run exactly if no connection leads from a node that accepts its owner to one that lists him twice |
| Flooding.StopsShort | broadcast/broadcaster_node.py:366-369 | over any such connection there is a run in which the first node sends the message and the second never does |
| Flooding.MixedStops | broadcast/broadcaster_node.py:221-223 | two nodes, one of which lists the other twice: a message spreads exactly if the other does not own it |
| BroadcasterNodes.BroadcasterNode.AddBroadcaster | broadcast/broadcaster_node.py:212-227 | appends a new broadcaster, even one that already listens |
| BroadcasterNodes.BroadcasterNode.RemoveBroadcaster | broadcast/broadcaster_node.py:229-238 | removes one broadcaster |
| BroadcasterNodes.BroadcasterNode.AddListener | broadcast/broadcaster_node.py:336-345 | sets the scope of a listener, unless it is a broadcaster |
| BroadcasterNodes.BroadcasterNode.RemoveListener | broadcast/broadcaster_node.py:347-351 | removes one listener |
| BroadcasterNodes.BroadcasterNode.OnInboxPacket | broadcast/broadcaster_node.py:355-375 | turns a packet into the event that fits, or into none |
| BroadcasterNodes.BroadcasterNode.DoCheckAndSendForward | broadcast/broadcaster_node.py:246-282 | a message not sent before goes to the listeners in scope, the callback and the broadcasters, and is marked sent |
| BroadcasterNodes.BroadcasterNode.DoBroadcastMessage | broadcast/broadcaster_node.py:284-316 | the same for an outbound message; raises, with nothing done, for an own message with a listener connected |
| SupplierList.StripDone | contacts/contactsdb.py:148-157 | stripping twice is stripping once, and leaves a name alone exactly if neither end is white space |
| SupplierList.StripParts | contacts/contactsdb.py:148-157 | what stripping takes away is white space at the two ends, and nothing else |
| SupplierList.StripAllStripped | contacts/contactsdb.py:148-157 | storing a list leaves no white space around a name and changes no list that has none |
| SupplierList.SubstituteAt | customer/fire_hire.py:547-566 | a substitution changes the first open position only, or appends, and keeps the suppliers distinct |
| SupplierList.RemoveAt | customer/fire_hire.py:598-619 | a removal blanks exactly the dismissed suppliers, moves nobody, and cuts the list to the desired length |
| SupplierList.StillNeededExact | customer/fire_hire.py:361-384 | for a fresh supplier, holes and all, the test says that fewer than D distinct healthy suppliers would stand in the first D positions, unless the empty name is dismissed |
| SupplierList.Shares | customer/fire_hire.py:371-380 | healthy suppliers, open positions and repetitions of healthy suppliers add up to the first n positions |
| SupplierList.HireCounts | customer/fire_hire.py:552-565 | one hire turns an open desired position into a healthy supplier, if there is one |
| Hiring.HirePhase | customer/fire_hire.py:263-276 | for any list, a phase fed with fresh suppliers goes on exactly as long as two desired positions repeat a healthy supplier or fewer than max(1, D - K) were hired, or one more in the one case named above; when it ends, the searches made and the next state are known, and D distinct suppliers that are not dismissed stand in the first D positions exactly if nobody was repeated |
| Hiring.PhaseOutcome | customer/fire_hire.py:542-566 | after as many hires as are due, whether the phase has ended or not, the first D positions are filled exactly if no healthy supplier stood there twice at its start |
| Hiring.EndlessPhase | customer/fire_hire.py:371-380 | a list of one name three times, on which no number of hires ends a phase |
| Hiring.PositionsStable | customer/fire_hire.py:542-620 | over any run the non-empty suppliers stay pairwise distinct, and a supplier in the first D positions whom nobody dismisses keeps his position |
| Decisions.DecisionExact | customer/fire_hire.py:245-261 | a decision hires, with one search started, exactly if a position is empty or fewer than D distinct suppliers would remain; else it fires those to be dismissed, or is ready if there are none |
| Decisions.DecisionPhase | customer/fire_hire.py:258-276 | from such a decision to the end of its hiring: it takes max(1, D - K) fresh suppliers and as many searches, and fills the first D positions exactly if none was repeated |
| Decisions.SearchFails | customer/fire_hire.py:277-284 | when the search fails those to be dismissed are fired, or the machine is ready |
| Decisions.RestartExact | customer/fire_hire.py:235-244 | a restart, or one noted before, connects and awaits exactly the non-empty suppliers if the settings changed and there are any, and else leads to a decision |
| Decisions.RestartNoted | customer/fire_hire.py:233-313 | a restart of a busy machine is only noted |
| Decisions.ConnectPhase | customer/fire_hire.py:301-307 | the wait for connectors ends exactly with the first posted event after all awaited have answered, or when the time runs out |
| Hiring.FiringFills | customer/fire_hire.py:248-252 | firing without hiring keeps the desired positions filled exactly if those fired stood behind them |
| Hiring.FiringLeavesHole | customer/fire_hire.py:248-252 | a list of two on which firing empties the one desired position |
| Hiring.FirePhase | customer/fire_hire.py:286-300 | a firing phase of n suppliers ends exactly if event number n, counted from 0 over answers and posted events, is a posted one; then the dismiss list is cleared and the connectors left stay open |
| Hiring.FiredInTurn | customer/fire_hire.py:345-349 | if the n connectors answer in turn, the phase ends exactly for odd n, with (n + 1) / 2 of them closed |
| Hiring.CloseAllSkips | customer/fire_hire.py:660-669 | closing all connectors closes those at even positions only, if they exist |
| FireHires.FireHire.A | customer/fire_hire.py:233-313 | the transition table, with its conditions and actions, and the callback of the connectors compute the specified step |
| FireHires.FireHire.IsMoreNeeded | customer/fire_hire.py:315-335 | the test that starts a phase |
| FireHires.FireHire.IsStillNeeded | customer/fire_hire.py:361-384 | the test that ends a phase, by set updates |
| FireHires.FireHire.DoSubstituteSupplier | customer/fire_hire.py:542-566 | raises for a present supplier, else takes the first open position or appends |
| FireHires.FireHire.DoRemoveSuppliers | customer/fire_hire.py:594-619 | blanks the first occurrence of each dismissed supplier in turn and cuts the list |
| FireHires.FireHire.DoCloseConnector | customer/fire_hire.py:647-658 | one dismissed supplier leaves the dismiss list, and his connector, if there is one, is told to shut down |
| FireHires.FireHire.DoCloseConnectors | customer/fire_hire.py:660-669 | the loop over the list that its body shortens closes the connectors specified |
| FireHires.FireHire.DoConnectSuppliers | customer/fire_hire.py:413-425 | the connectors awaited are those of the non-empty suppliers, in order |
| DhtRelations.ScanExact | dht/dht_relations.py:84-147 | a scan reads all slots up to the limit, but no further than three past the first missing, invalid or repeated one; it returns in order the suppliers of the good slots read, and repeats at most its own node |
| DhtRelations.ScanRecords | dht/dht_relations.py:149-193 | a scan lists only suppliers with a record for this customer and no empty names, and finds each first record of a supplier among the slots read |
| DhtRelations.VerifyExact | dht/dht_relations.py:149-193 | the verdict on a slot, made from what was found so far, agrees with what the whole table says of it |
| DhtRelations.ChangeExact | dht/dht_relations.py:195-229 | publishing and closing touch exactly the first slot that, as far as it could be read, is not good or is own, if it lies below the limit and the table can be reached |
| DhtRelations.OthersKept | dht/dht_relations.py:105-229 | for any table and any failed reads, publishing and closing lose another supplier with a valid record exactly if the slot they touch could not be read and holds his only record, and make nobody valid but the one published |
| DhtRelations.BystandersKept | dht/dht_relations.py:270-292 | over every sequence of publications and closings by many suppliers, a bystander has a valid record at the end exactly if he had one and no step lost it in that way |
| DhtRelations.PublishThenScan | dht/dht_relations.py:84-137 | after a slot was written, whatever reads had failed, any node's scan begins with every supplier before it, followed by the publisher |
| DhtRelations.Republish | dht/dht_relations.py:215-223 | after a publication with failed reads, publishing again with every slot read writes the same slot and changes nothing |
| DhtRelations.PublishPacks | dht/dht_relations.py:195-201 | a table whose first n records are valid and of different suppliers stays so under a publication, and grows by a new publisher, exactly if no own record stands behind the slot written; so always if that slot was read |
| DhtRelations.CloseAndRefill | dht/dht_relations.py:110-147 | closing finds the supplier's slot k of such a table exactly if no read before it fails; then a scan returns exactly the others up to slot k+3, the next new publisher refills slot k exactly if no read before it fails, and the table is packed again |
| DhtRelations.CloseErases | dht/dht_relations.py:110-122 | whatever reads fail, closing takes the supplier's records out exactly if each of them is the slot that closing finds |
| DhtRelations.CloseMisses | dht/dht_relations.py:195-201 | a table in which closing misses the record |
| DhtRelations.UnreadLost | dht/dht_relations.py:105-107 | a table in which one failed read loses another supplier's record |
| DhtRelations.UnreadRepeats | dht/dht_relations.py:195-201 | a table in which a publisher ends up twice after one failed read |
| RelationsLookups.RelationsLookup.constructor | dht/dht_relations.py:60-76 | a lookup starts at slot 0 with nothing found |
| RelationsLookups.RelationsLookup.Start | dht/dht_relations.py:78-229 | a lookup reads consecutive slots from 0, at most 100, reports exactly once, and leaves the table the specification gives, whatever reads fail; a publication or closing reports failure exactly if it has a slot and the table cannot be reached, and else the suppliers of the good slots up to there |
| RelationsLookups.RelationsLookup.DoRead | dht/dht_relations.py:84-108 | stops at the limit and past the misses, else reads one slot, which may fail, and goes on |
| RelationsLookups.RelationsLookup.DoVerify | dht/dht_relations.py:149-193 | judges the value read and goes on |
| RelationsLookups.RelationsLookup.DoProcess | dht/dht_relations.py:195-229 | notes, writes, erases or goes on |
| RelationsLookups.RelationsLookup.DoNext | dht/dht_relations.py:139-147 | only the first miss is remembered |
| RelationsLookups.RelationsLookup.DoWrite | dht/dht_relations.py:124-137 | writes one slot and reports, or reports failure |
| RelationsLookups.RelationsLookup.DoErase | dht/dht_relations.py:110-122 | deletes one slot and reports, or reports failure |
| RelationsLookups.RelationsLookup.DoReportSuccess | dht/dht_relations.py:244-260 | lists what was found up to the last success, without empty names |
| CoinChain.ComplexityExact | coins/coins_miner.py:414-421 | complexity is the length of the longest prefix of digits below the simplification |
| CoinChain.Difficulty | coins/coins_miner.py:423-435 | difficulty is the length of the longest prefix of one repeated digit below the simplification |
| CoinChain.DifficultyBound | coins/coins_miner.py:414-435 | difficulty is at most complexity, and equal exactly if the qualifying prefix is one digit repeated |
| CoinChain.ChainLaw | coins/coins_miner.py:463-474 | in a chain from the empty hash the complexity of coin n is the number of golden hashes before it, never falls, and is at most n |
| CoinChain.ChainRunsDry | coins/coins_miner.py:463-474 | with hashes of one length, no more golden hashes lie before a coin than a hash has digits, and a coin that is golden with that many before it ends the chain |
| CoinsMiners.UnminedExact | coins/coins_miner.py:456-461 | what was hashed can be had back from the mined coin exactly if the input lacked the three added fields |
| CoinsMiners.DecimalParses | coins/coins_miner.py:446-446 | the counter in a starter can be read back, so different counters give different texts |
| CoinsMiners.CoinsMiner.StopMarker | coins/coins_miner.py:396-404 | a count is used up exactly when mining goes on |
| CoinsMiners.CoinsMiner.BuildStarter | coins/coins_miner.py:406-409 | letters and digits of the given number, and an underscore |
| CoinsMiners.CoinsMiner.GetHashComplexity | coins/coins_miner.py:414-421 | the loop computes the complexity |
| CoinsMiners.CoinsMiner.GetHashDifficulty | coins/coins_miner.py:423-435 | the nested loops compute the difficulty |
| CoinsMiners.CoinsMiner.Mine | coins/coins_miner.py:437-461 | stops within the counts left; hashes only texts made of a starter, a counter within its limit and the dump of the coin, and nothing good enough before the last; returns a coin of exactly the demanded complexity that holds its hash and starter |
| CoinsMiners.CoinsMiner.Start | coins/coins_miner.py:463-474 | a mined coin names its miner, has the complexity that its predecessor's hash demands, keeps its other fields, and its starter before the dump of the unmined coin gives its hash |
| MessageSpec.MessageConservation | chat/message.py:412-497 | in every reachable state, for each registered consumer, the batches delivered in order followed by what waits are the messages pushed since registration; all callbacks of a round got the same batch; an incoming packet ID was pushed at most once; and unless a delivery is under way no callback waits while messages wait |
| MessageHistory.HistoryDelivered | chat/message.py:412-497 | in every reachable state the batches delivered to a consumer and what waits are exactly the messages that came since his registration: outgoing ones, and incoming ones that could be read, were not seen before and not kept back |
| MessageHistory.EventExact | chat/message.py:273-465 | each event adds to what waits for every registered consumer exactly the message that it brings, and a request adds its callback |
| MessageHistory.RoundServes | chat/message.py:468-497 | a round, in any order of consumers, gives all that waits to each live callback, and takes a consumer out exactly if he has no callback and more than 100 messages |
| MessageHistory.NextRound | chat/message.py:426-497 | a message that arrives while a callback is live is in the batch it gets in the next round |
| MessageHistory.RoundScheduled | chat/message.py:412-465 | a round is scheduled for each arrival and each request, and for nothing else |
| MessageSpec.DuplicateIgnored | chat/message.py:289-294 | a packet ID received before changes nothing, however many events lie between |
| MessageSpec.PopOneServes | chat/message.py:471-497 | a round gives every live callback all that waits, drops exactly the consumers without callback and with more than 100 messages, and leaves the others alone |
| MessageSpec.PopAllKeeps | chat/message.py:468-497 | in whatever order the consumers come, a round conserves messages, takes back no batch and leaves nobody waiting |
| MessageSpec.StepKeeps | chat/message.py:273-497 | each step keeps the invariant, and what a callback got is never exchanged |
| MessageQueues.MessageQueues.ConsumeMessages | chat/message.py:412-423 | registers the consumer if it is new and adds a fresh callback |
| MessageQueues.MessageQueues.PushMessage | chat/message.py:426-465 | one copy for every registered consumer |
| MessageQueues.MessageQueues.OnIncomingMessage | chat/message.py:273-304 | unreadable and known packets change nothing |
| MessageQueues.MessageQueues.PopMessagesNow | chat/message.py:468-497 | the delivery loop computes the specified round |
| MessageQueues.MessageQueues.PopConsumer | chat/message.py:471-497 | drops or serves one consumer |
| AutomatSpec.TimersInStep | automats/automat.py:472-550 | after any sequence of outermost events, with events nested to any depth, also by timers that fire when started, the timers are exactly those declared for the state |
| AutomatSpec.NestedTimers | automats/automat.py:472-517 | an event started in the middle of another leaves the timers fitting the state, or both as they were |
| AutomatSpec.TimersRun | automats/automat.py:509-550 | in every reachable state exactly the declared timers run, each once, if and only if no timer was started over one of its name in the dictionary |
| AutomatSpec.HandleGains | automats/automat.py:472-550 | an event, with all that nests in it, never stops a looping call lost from sight, and loses none exactly if it starts no timer over one of its name |
| AutomatSpec.SilentCalm | automats/automat.py:509-511 | hooks and started timers that fire no events on the spot start no timer over another |
| AutomatSpec.HookLeaks | automats/automat.py:509-511 | a hook that fires an event leaks looping calls exactly if the event changes the state again, to one with timers |
| AutomatSpec.StartsInStep | automats/automat.py:542-550 | however the timers that fire when started move the machine on, the loop ends with exactly the timers of the last state in the dictionary |
| AutomatSpec.InstantLeaks | automats/automat.py:542-550 | a timer that fires when started and moves the machine on leaks looping calls exactly if the new state has another timer |
| AutomatSpec.RunningFires | automats/automat.py:519-550 | a timer runs in the states it names, or in all if it names none, and fires its event exactly if it names some |
| AutomatSpec.EndsInState | automats/automat.py:472-517 | an event whose nested events set no state ends in the state it sets, or in the one it came in |
| AutomatSpec.LastSets | automats/automat.py:472-517 | of several such events in turn the last one that sets a state decides |
| Automats.Automat.constructor | automats/automat.py:318-340 | a new machine runs the timers of its first state |
| Automats.Automat.Event | automats/automat.py:472-517 | state, timers and running calls after an event are those specified |
| Automats.Automat.StopTimersNow | automats/automat.py:533-540 | stops and forgets every timer in the dictionary |
| Automats.Automat.StartTimersNow | automats/automat.py:542-550 | starts the timers declared for the state, which may change while the loop runs |
| KeySpec.ReloadExact | crypt/my_keys.py:188-216 | in a folder that mirrors the keys, reloading rebuilds exactly the keys in memory if and only if every ID is valid and free of both extensions and every private key verifies |
| KeySpec.ReloadAfterRun | crypt/my_keys.py:240-314 | ... and so after any run of generating, registering and erasing in which every write succeeds |
| KeySpec.RunMirrors | crypt/my_keys.py:240-314 | after such a run the folder holds exactly one file for each key, with its content |
| KeySpec.AddExact | crypt/my_keys.py:240-290 | a new key is known exactly as given, and in its file if the write succeeds; a taken ID and all others keep their keys; an unreadable key changes nothing |
| KeySpec.EraseExact | crypt/my_keys.py:293-314 | an erasure the file system allows takes out exactly this key and its file; any other changes nothing |
| KeySpec.NameRoundTrip | crypt/my_keys.py:209-209 | saving and loading give back an ID exactly if it contains neither extension; any other comes back shorter; the extension tells a private key |
| KeySpec.NamesDiffer | crypt/my_keys.py:228-231 | keys of different IDs never share a file |
| KeySpec.LoadedOwner | crypt/my_keys.py:197-213 | whatever is loaded comes from the file of a key in memory |
| KeyStores.KeyStore.GenerateKey | crypt/my_keys.py:240-260 | adds a key and its file unless the ID is taken |
| KeyStores.KeyStore.RegisterKey | crypt/my_keys.py:263-290 | the same for a given key; an unreadable one changes nothing |
| KeyStores.KeyStore.EraseKey | crypt/my_keys.py:293-314 | removes key and file together, or neither |
| KeyStores.KeyStore.LoadLocalKeys | crypt/my_keys.py:188-216 | the keys are those the files give, in the order of the listing |
| KeyStores.KeyStore.SaveKeysLocal | crypt/my_keys.py:219-236 | every key gets its file, other files stay, and a mirroring folder does not change |
| KeyStores.KeyStore.Restart | crypt/my_keys.py:71-83 | after a shutdown and an init the keys are back exactly if each can be loaded |

## Left out

- The reactor, Deferreds, sockets, packet signing and cryptography: foreign code; steps and parameters stand for them.
- `customer/io_throttle.py`: packet IDs are taken as canonical, a file's size as fixed, and callbacks as not re-entering the queue; `shutdown` is never set in the class; `IOThrottle`, which only picks the queue of a supplier, reports to the user interface, counters and the calls into supplier connectors are not modelled.
- FileToSend and FileToRequest are values in the model: no reference to one is kept outside the dictionaries.
- Every request has one callback; answers to a request are Data or Fail packets, the only ones it registers for.
- LoopAttenuation, retry delays and the wall clock: a delay above one second and a passed timeout are choices of the environment.
- SendSpec.DeleteExact: is not claimed when a sending pass may run inside the deletion loop, because the loop then walks a list that the pass shortens and can skip packets.
- SendSpec.SendConservation: at least one callback is scheduled, not exactly one, because an answered packet may still be reported failed before it is removed.
- Broadcast: payloads that are no JSON or lack their fields, the `broadcaster` field that sending adds to a message, acknowledgements, callbacks that raise, the finder and the states other than BROADCASTING.
- Flooding.FloodCovers: connections are static and channels reliable, as the forwarding code has no repair for either.
- `doDecideToDismiss`: whom to dismiss is an arbitrary list in the event `made-decision`.
- Hiring.PositionsStable: the desired number of suppliers is fixed during a run.
- SupplierList.StripDone: white space means the six ASCII characters.
- One lookup of a relation is atomic; the meta information added to contacts, expiry of records and signatures are not modelled; a write or a deletion happens or fails as a whole.
- Coins: signatures, confirmation by accountants and the JSON text of a coin (any dump function will do).
- CoinsMiners.CoinsMiner.Mine: a simplification from 1 to 10, as a larger one has no single decimal digit.
- Messages: encryption, acknowledgements, and callbacks that register again while they are being called; the fields of a message but its direction and packet ID are one text.
- AutomatSpec.TimersInStep: machines with `post` set, `destroy`, `restartTimers`, and hooks or callbacks that raise are not covered; an exception inside `A` merely ends its actions, which the model covers.
- Keys: RSA and the global ID syntax (the set of valid IDs is a parameter); exporting a key and reading it back gives the same key; file names with folders in them.
- KeySpec.ReloadAfterRun: runs in which a write fails, since memory and folder then differ at once.
- The user interface, terminal chat, command line, blockchain, file and database libraries.
- Machines with finite tables of stub actions, such as the contract executors, finders and connectors: their actions do nothing yet, or hand over to the network.
