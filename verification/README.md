# A model of the NFC driver's native layer

The native layer between Android's NFC service and the closed NFC stack (NFA) keeps tables and flags that Java
threads change from one side and the stack's callbacks from the other.  This project models its parts with real
state and real interleaving, in Dafny, and proves what each of them keeps over whole runs.

* **Peer-to-peer connections** (`nci/jni/PeerToPeer.cpp`).  Ten servers with five connections each, and ten
  clients.  `PeerRegistry.dfy` says what each section under a mutex finds or changes, on values;
  `PeerToPeer.dfy` has the tables as the source has them, arrays of shared references scanned and updated in
  place, every method tied to the section it carries out.  `PeerRegistryRuns.dfy` and
  `ConnectionConservation.dfy` run the sections in any order against the stack's callbacks; `TableEffects.dfy` and
  `HandlesGiven.dfy` say what every later lookup finds after a caller's section and after an event.
  `ConnectionLifecycle.dfy` runs `createDataLinkConn` and `disconnectConnOriented`, step by step, in any number of
  threads.
* **Locks and events** (`nci/jni/SyncEvent.h`).  `Monitors.dfy`, `PeerScripts.dfy` and `ThreadMachine.dfy` give
  every peer-to-peer operation and callback as the mutex and event instructions it issues, and interleave any
  number of threads running them; `NoLostWakeup.dfy`, `RefusedRegistration.dfy`, `AnswersSeen.dfy`,
  `DisconnectSeen.dfy` and `AcceptRace.dfy` are about the requests that wait for the stack's answer, and
  `RequestsAnswered.dfy` about when that answer still finds what it is for.  `LockRuns.dfy` builds runs.
  `OperationPurposes.dfy` says event by event, handle by handle and mutex by mutex what each operation is there for;
  `ThreadTraces.dfy`, `ScriptTallies.dfy` and `OperationEffects.dfy` show that whoever runs it to its end has done
  exactly that, and `SectionsHeld.dfy` and `ScanSections.dfy` what is held meanwhile and what comes first.
* **Tags** (`nci/jni/NfcTag.cpp` and its driver).  `NfcTag.dfy` is the list of technologies in four parallel
  arrays; `TagPolling.dfy` the events that fill it and the sweep that activates several tags one after another,
  `TagSweep.dfy` which tags such a sweep ever gets to, in the first session and after every other, and
  `TagEvents.dfy` what peers, reader mode, failures and updates change.
* **Transactions** (`nci/jni/NativeNfcManager.cpp`).  `TransactionMachine.dfy` is the event machine with its
  clean-up timer and threads, `TransactionEnds.dfy` that and how transactions end; `DeferredRequests.dfy` the requests
  remembered meanwhile and their replay, `RadioLaws.dfy` what requests leave the radio doing.
* **Power levels** (`nci/jni/PowerSwitch.cpp`).  `PowerSwitch.dfy` is what is believed and reported, `PowerLocks.dfy`
  the mutexes a change of level takes.
* **Small structures.**  `DataQueue.dfy`, `TechnologyTree.dfy`, `Transceive.dfy`, `AidBuffer.dfy`.

`Reachability.dfy` says what it is for a state to be reached, for all the machines alike.

Where the source changes fields or arrays in place, the model is a class whose methods do the same, each `ensures`
equating the new abstract value with a function of the old one; the theorems are about those functions.  Where the
source's interest is in interleaving, the model is a transition system over its mutex-protected sections.

Some claims one would make of this code are not true of it.  For each there is the exact condition under which it
holds, for all runs, and a run or a family of runs that shows it fail:

* `P2pServer::accept` is woken by its connection request, and `PeerToPeer::receive` by its data, exactly when it is
  asleep at the callback's notification.  Between allocateConnection, or finding no data, and the wait it is not, and
  no notification is owed to it afterwards (`AcceptRace`).
* A thread that has asked something of the stack and not been woken is owed an answer exactly when the stack accepted.
  createClient waits for its registration even when that was refused, and then sleeps until the answer to a later
  client's registration, which goes to the first client without a handle, is taken for its own
  (`NoLostWakeup`, `RefusedRegistration`, `RequestsAnswered`).
* A sender woken by the disconnect of its connection finds the invalid handle exactly when no connection request or
  connect answer has given the connection another one since.  A server's connection that was just disconnected looks
  like one that waits for a request, so this happens, and the sender goes on with the new peer (`DisconnectSeen`).
* The stack's event for a request finds the connection it was made for exactly when nothing has taken that out of the
  tables or overwritten its handle in between; otherwise the thread that waits is not answered (`RequestsAnswered`).
* A connected client connected again loses the first connection handle; conservation holds exactly when no connect
  answer ever finds its client connected (`ConnectionConservation`).
* A call to disconnect that finds its connection takes it out of the tables exactly when the client was not
  connecting; otherwise it changes nothing, returns true, and the connection may come up (`ConnectionLifecycle`).
* The search for the next tag starts over each time.  However many tags are in the field, only the first two are
  ever selected, in turn, and a third is never activated, exactly when the first activation does not take the place
  of the only entry with the second tag's handle while there is another to find: a type-2 tag with SEL_RES 1 writes
  one entry more than its discovery record did (`TagSweep`).  That alone is not enough: a second tag with two entries
  of its own is still found.
* A Mifare record at the last entry of the list drives its counters to 12, and nothing else takes them out of bounds
  (`TagPolling`).
* A transaction can be ended before its field goes off exactly when one begins while a clean-up thread of an earlier
  one is pending, or the earlier one's timer is still running (`TransactionMachine`); one that begins between the two
  parts of that thread loses what was to be replayed.  A request made between the thread's two parts is overridden by
  the contrary one remembered before it, and a deferred request for the default screen state wipes out the one
  remembered before it (`DeferredRequests`).
* A transaction ends once its field goes off for good, exactly unless it waits for a deactivation: a card emulation
  whose field goes off before the deactivation is reported stays in progress, and every request deferred, until a
  field goes off again or something else begins (`TransactionEnds`).
* `setLevel` can leave the driver believing in full power on a sleeping controller, exactly when the power is lowered
  with full power configured for the screen off and the controller not known to be awake.  At low power on a
  controller not known to be asleep, where a failed sleep or wake-up leads, requests for full and low power change
  nothing until initialize, or a lowering of the power that the configuration or the stack answers well
  (`PowerSwitches`).
* Two callers of `setLevel` and a deactivation can deadlock for good: exactly when one caller holds gDeactivatedEvent
  and wants mMutex, the other holds mMutex until the stack answers, and the callback thread is about to lock
  gDeactivatedEvent.  One caller at a time never does (`PowerLocks`).

## Model

| member | source | states |
|---|---|---|
| PeerScripts.EveryOperationDisciplined | nci/jni/PeerToPeer.cpp:232-1871 | every operation and callback, on every branch and for any number of loop rounds, takes mutexes in strictly rising order, waits holding only the event's own mutex, releases all it takes, delivers the answer it is there for, and waits after a refusal only where createClient does |
| ThreadMachine.BlockedHolderWantsHigher | nci/jni/PeerToPeer.h:404-409 | when the holder of a wanted mutex is itself blocked, it is on a mutex later in the documented order |
| ThreadMachine.NoDeadlockCycle | nci/jni/PeerToPeer.h:404-409 | in no reachable state, for any number of threads, is there a cycle of threads blocked on each other's mutexes |
| ThreadMachine.DeadlockFreedom | nci/jni/PeerToPeer.cpp:232-1871 | in every reachable state some thread can run, unless all have finished or sleep in an event's wait |
| ThreadMachine.SleepersHoldNothing | nci/jni/SyncEvent.h:51-116 | a thread asleep on an event holds no mutex; one about to sleep holds the event's own and no other |
| NoLostWakeup.NoWakeupIsLost | nci/jni/PeerToPeer.cpp:590-737 | with one requester per object, in every interleaving: a thread that has asked something of the stack and was not woken is still owed its answer if and only if the stack accepted, and if not it is a createClient whose registration was refused |
| RefusedRegistration.RefusedClientSleepsForever | nci/jni/PeerToPeer.cpp:590-594 | such a createClient, once asleep, is asleep with nothing owed after everything that may follow, when the stack answers only what it was asked |
| RefusedRegistration.RefusedClientFallsAsleep | nci/jni/PeerToPeer.cpp:590-594 | it is reached by createClient alone |
| NoLostWakeup.AnswerFindsRequesterWaiting | nci/jni/PeerToPeer.cpp:1315-1319 | the callback that answers never finds its requester between the stack call and the wait: it is asleep, this notification wakes it, and the handle is stored |
| AnswersSeen.RequesterSeesItsAnswer | nci/jni/PeerToPeer.cpp:1334-1507 | a requester woken by the callback that answered it finds the handle that callback stored where it looks, or the invalid one exactly when the connection has been invalidated since |
| DisconnectSeen.WokenByDisconnectFindsInvalid | nci/jni/PeerToPeer.cpp:930-1538 | in every interleaving a thread woken by a disconnect event, on its congestion or disconnecting event, is woken after the callback's write to that very connection, and finds the invalid handle if and only if no connection request or connect answer has given the connection a handle since that is still there |
| DisconnectSeen.SenderFindsAnotherPeer | nci/jni/PeerToPeer.cpp:1342-1353 | a run in which the next connection request takes the connection just disconnected, and the sender finds the new peer's handle |
| RequestsAnswered.AnswerFindsItExactlyWhenUndisturbed | nci/jni/PeerToPeer.cpp:1241-1587 | over every run after a request for a connection's handle: the stack's event for that handle finds the connection if and only if it was in the tables and nothing has taken it out or overwritten its handle in between, NFC turned off or on included |
| RequestsAnswered.ConnectAnswerFindsItExactlyWhileIn | nci/jni/PeerToPeer.cpp:1492-1509 | over every run the answer to a connect finds the client that asked if and only if it was in the table and has not been taken out since |
| RequestsAnswered.RegistrationFindsTheFirst | nci/jni/PeerToPeer.cpp:1460-1475 | the answer to a registration finds the client that asked exactly when no client before it in the table is without a handle |
| RequestsAnswered.EventFindsExactlyTheKnown | nci/jni/PeerToPeer.cpp:836-862 | an event with a live handle finds exactly the connection that is in the tables under it |
| AcceptRace.WaiterIsWokenExactlyWhenAsleep | nci/jni/PeerToPeer.cpp:975-1731 | in every reachable state, for accept and for receive: a notification made while the one waiter is ready to wait or waits lets it past its wait, in some continuation without a further notification, exactly when it is asleep then; if not, it stays before or in its wait in every such continuation, asleep once it has nothing else to do, with nothing owed |
| AcceptRace.NotifyWakesExactlyTheSleeper | nci/jni/PeerToPeer.cpp:1345-1356 | a notification wakes the one thread that may sleep on the event, with what was stored, if it is asleep, and leaves it as it is if not |
| AcceptRace.AcceptCanMissItsRequest | nci/jni/PeerToPeer.cpp:1708-1731 | such a run: the connection request comes between allocateConnection and the wait, the handle is stored, nobody is notified, and accept sleeps with nothing owed to it |
| OperationEffects.FinishedHasWoken | nci/jni/PeerToPeer.cpp:1241-1612 | over every run of any threads, from the start of a call or callback to its end: whoever slept on an event that the operation is to notify, according to a table event by event, is past that wait, if nobody else slept on the event meanwhile; so for the end of congestion, data, a disconnect, a deregistration, a disconnect of the caller's own, and NFC off |
| OperationEffects.AnswerEndsTheWait | nci/jni/PeerToPeer.cpp:1303-1612 | with one requester per object, over every such run of a callback that brings the answer to a registration, a connect, a disconnect, congestion, a technology change or a polling change: the requester asleep at its start is past that wait at its end, and the event has not stayed owed |
| OperationEffects.OnlyTheMeantAreWoken | nci/jni/PeerToPeer.cpp:1241-1612 | in every reachable state a sleeper is woken, and an answer ceases to be owed, only by an operation that is there to notify, or to answer, that event |
| OperationEffects.FinishedHasStored | nci/jni/PeerToPeer.cpp:1241-1545 | over every such run the operation has stored each handle in each field exactly as often as it is to: the handle of the event where the requester looks for it, the invalid one in the connections taken down, and nothing else |
| OperationEffects.FinishedHasSleptAndTaken | nci/jni/PeerToPeer.cpp:232-1871 | over every such run it has fallen asleep on each event, and taken each mutex, exactly as often as its branch says: once for an accepted request, as often as congested or polled, never for a refused request but createClient's |
| ScriptTallies.ScriptIsAsIntended | nci/jni/PeerToPeer.cpp:232-1871 | the instructions of every operation, on every branch, come to exactly the notifications, answers, waits, stores and locks of the tables |
| SectionsHeld.RemovalExcludesNotifications | nci/jni/PeerToPeer.cpp:1062-1394 | in no reachable state of the lock machine does a disconnect callback store or notify while disconnectConnOriented is in the section that removes a connection |
| SectionsHeld.UnblocksBeforeItAsks | nci/jni/PeerToPeer.cpp:1043-1060 | over every run: when disconnectConnOriented sleeps waiting for its disconnect, whoever slept on the connection's congestion or read event at its start is past that wait |
| SectionsHeld.SweepHoldsPeerMutex | nci/jni/PeerToPeer.cpp:1227-1278 | NFC off stores and notifies with mMutex held, in every reachable state |
| ScanSections.SweepHoldsServerMutex | nci/jni/PeerToPeer.cpp:1758-1776 | and what it does to a server's connection with that server's mutex held too |
| ScanSections.TablesAreScannedUnderPeerMutex | nci/jni/PeerToPeer.cpp:620-901 | in every reachable state a thread about to look at a server's table, other than for that server's accept, holds mMutex, so that a scan is one section |
| ScanSections.InvalidBeforeAnybodyIsWoken | nci/jni/PeerToPeer.cpp:1365-1545 | over every run: when a disconnect callback or NFC off is about to wake somebody who waits on a connection, it has stored the invalid handle in it |
| ScanSections.CallbacksLookUpFirst | nci/jni/PeerToPeer.cpp:1293-1587 | in every reachable state a callback about to store or notify has been through all its lookups under mMutex |
| PeerRegistry.First | nci/jni/PeerToPeer.cpp:154-218 | a table scan finds the first slot whose occupant is wanted, none before it is, and the table's length when there is none |
| PeerRegistry.FirstFree | nci/jni/PeerToPeer.cpp:251-260 | the first empty slot, all before it taken |
| PeerRegistry.FindServerIsLookup | nci/jni/PeerToPeer.cpp:154-218 | findServerLocked answers with a server exactly when that server is registered and has the name or handle asked for, when no two do |
| PeerRegistry.FindClientIsLookup | nci/jni/PeerToPeer.cpp:770-823 | findClient and findClientCon answer with a client exactly when it is in the table and its connection has the handle, when no two do |
| PeerRegistry.ScanFindsAMember | nci/jni/PeerToPeer.cpp:836-901 | findConnection's two phases find a matching connection reachable through a table exactly when there is one |
| PeerRegistry.FindByJniIsLookup | nci/jni/PeerToPeer.cpp:875-901 | with distinct JNI handles, findConnection is lookup in one map from handles to connections |
| PeerRegistry.FindByNfaIsLookup | nci/jni/PeerToPeer.cpp:836-862 | with distinct live NFA handles, findConnection by a live handle is lookup in the map from those |
| PeerRegistry.SlotOrderIsIrrelevant | nci/jni/PeerToPeer.cpp:836-901 | two tables with the same connections in other slots give the same answer |
| PeerRegistry.RemoveConnIsMapRemoval | nci/jni/PeerToPeer.cpp:620-651 | removeConn(h) deletes exactly the entry for h from the map |
| PeerRegistry.RemoveConnTouchesOneSlot | nci/jni/PeerToPeer.cpp:620-651 | removeConn empties at most the one slot of the connection it names, in whichever table, and changes nothing else |
| PeerRegistry.RemoveConnMembers | nci/jni/PeerToPeer.cpp:620-651 | what removeConn takes out is the connection findConnection would have answered with |
| PeerRegistry.RemoveServerMembers | nci/jni/PeerToPeer.cpp:289-307 | removing a server takes out the connections of its own table and no other |
| PeerRegistry.RegisterServerMembers | nci/jni/PeerToPeer.cpp:232-260 | registering a server, new or known, changes no connection's membership |
| PeerRegistry.CreateClientMembers | nci/jni/PeerToPeer.cpp:560-586 | a new client brings exactly its own new connection, if a slot is free |
| PeerRegistry.AllocateConnectionMembers | nci/jni/PeerToPeer.cpp:1778-1793 | accept's new connection joins the tables exactly when a slot is free and its server is registered |
| PeerRegistry.RemoveServerConnectionMembers | nci/jni/PeerToPeer.cpp:1856-1871 | dropping a server's connection takes out exactly that one, if its server is registered |
| PeerRegistry.NfcOffMembers | nci/jni/PeerToPeer.cpp:1241-1276 | after NFC is turned off the same connections are in the tables and each has the invalid handle; one in no table keeps its own |
| PeerRegistry.NfcOnMembers | nci/jni/PeerToPeer.cpp:1234-1240 | after NFC is turned on no connection is in the tables |
| PeerRegistryRuns.KeysNeverCollide | nci/jni/PeerToPeer.cpp:238-275 | in every reachable state service names, server JNI handles, connection JNI handles over both tables and live NFA connection handles are pairwise distinct, and every object has one place |
| PeerRegistryRuns.LookupsRefineOneMap | nci/jni/PeerToPeer.cpp:620-901 | in every reachable state findConnection is lookup and removeConn deletion in one map |
| PeerRegistryRuns.EventsFindTheirEndpoint | nci/jni/PeerToPeer.cpp:1299-1346 | in every reachable state the stack's handles for servers and clients are pairwise distinct, so an event for one finds exactly the server, or the client in the table, that has it |
| PeerRegistryRuns.OnlyWaitingObjectsAreFilled | nci/jni/PeerToPeer.cpp:1334-1358 | a connection request or client registration on its way to an object finds that object's handle still invalid |
| PeerRegistryRuns.DoKeepsInv | nci/jni/PeerToPeer.cpp:1293-1587 | every section of every operation and callback keeps the registry invariant |
| HandlesGiven.RegisteredServerIsFound | nci/jni/PeerToPeer.cpp:1303-1319 | over every run: once the stack's answer to the registration of a service has been stored, whatever callers did before, an event for its handle finds that service's server if and only if it is still in the table and has had no other answer |
| HandlesGiven.RegisteredClientIsFound | nci/jni/PeerToPeer.cpp:1460-1475 | over every run: likewise a registered client is found by the handle it was given if and only if its connection has stayed in the table |
| HandlesGiven.ConnectedIsFound | nci/jni/PeerToPeer.cpp:1492-1509 | over every run: a connect answer brings up the connection of the client it names, with the handle, MIU and window it reports, and the connection is found by that handle if and only if it is in the tables and undisturbed |
| HandlesGiven.RequestReachesServer | nci/jni/PeerToPeer.cpp:1330-1346 | a connection request reaches the server that has the handle, whatever callers do until it is served |
| HandlesGiven.RequestedIsFound | nci/jni/PeerToPeer.cpp:1342-1358 | over every run: it brings up a connection of that server's own table that was waiting, with what it reports, and the connection is found if and only if it is in the tables and undisturbed |
| HandlesGiven.DisconnectedIsNotFound | nci/jni/PeerToPeer.cpp:1365-1396 | over every run: after a disconnect the connection it names has the invalid handle, and no event for the old handle finds anything again |
| TableEffects.RegisteredServiceIsFound | nci/jni/PeerToPeer.cpp:232-266 | in every reachable state, registering a service: its name and its new JNI handle find the one server, known or fresh, or none when the table is full; a known server's old JNI handle finds nothing; no other lookup changes |
| TableEffects.RemovedServiceIsNotFound | nci/jni/PeerToPeer.cpp:289-307 | removing a server: its JNI handle finds nothing, and no other JNI handle finds anything else |
| TableEffects.CreatedClientIsFound | nci/jni/PeerToPeer.cpp:560-586 | in every reachable state, creating a client: its JNI handle finds a fresh connection with the MIU and the window asked for and no handle of the stack's, its client not connecting, if a slot is free; no other JNI handle finds anything else |
| TableEffects.AllocatedConnectionIsFound | nci/jni/PeerToPeer.cpp:1778-1793 | in every reachable state, accept allocating a connection: found by its JNI handle in the server's own table if a slot is free, and by everybody if the server is registered as well; no other JNI handle finds anything else |
| TableEffects.ParametersAreKept | nci/jni/PeerToPeer.cpp:560-586 | over every run a connection keeps the JNI handle, MIU and window it was made with |
| ConnectionConservation.ConservedExactlyWhenNeverOverwritten | nci/jni/PeerToPeer.cpp:1365-1550 | over every run, the live connection handles are those the stack delivered less those closed, removed, or stored in a connection already taken out, if and only if no connect answer ever found its client connected |
| ConnectionConservation.ConnectionsAreConserved | nci/jni/PeerToPeer.cpp:1492-1509 | in particular when each connect is made of a client that has no connection |
| ConnectionConservation.ConnectedConservesExactlyWhenDown | nci/jni/PeerToPeer.cpp:1492-1509 | storing a connect answer conserves handles exactly when the client's handle is invalid or the client is out of the table |
| ConnectionConservation.StoreConserves | nci/jni/PeerToPeer.cpp:1334-1358 | the same for any store of a handle by the stack |
| ConnectionConservation.ConnectingTwiceLosesAHandle | nci/jni/PeerToPeer.cpp:719-737 | a client connected twice: two handles delivered, none closed, removed or missed, one live, one nowhere |
| ConnectionLifecycle.ConnectOutcome | nci/jni/PeerToPeer.cpp:708-757 | in every interleaving createDataLinkConn returns true with mIsConnecting cleared and a valid handle the stack delivered; returning false for a known client it leaves the client out of the table and its handle unknown |
| ConnectionLifecycle.DisconnectExclusion | nci/jni/PeerToPeer.cpp:1052-1066 | no disconnect event is between its write and its last notification while a disconnecting thread is at its removeConn, and once that is done the JNI handle finds nothing |
| ConnectionLifecycle.GoneForever | nci/jni/PeerToPeer.cpp:1064-1066 | a JNI handle that finds nothing after a removal finds nothing ever after |
| ConnectionLifecycle.NextIsSound | nci/jni/PeerToPeer.cpp:1374-1394 | every step of every thread and of the callbacks keeps the invariant, mDisconnectMutex included |
| ConnectionLifecycle.DisconnectRemovesExactly | nci/jni/PeerToPeer.cpp:1035-1066 | over every run: a call that has found its connection goes through its removal and leaves nothing to find if and only if the client it found is not connecting; otherwise no step of the call changes the registry |
| ConnectionLifecycle.DisconnectIsSureExactly | nci/jni/PeerToPeer.cpp:1035-1066 | nothing is found under the JNI handle whenever the call returns, whatever else goes on, if and only if the client is not connecting or the connection is out of the tables already |
| ConnectionLifecycle.ReachableCanIsPossible | nci/jni/PeerToPeer.cpp:719-757 | in every reachable state the objects a thread refers to in its next step exist |
| ConnectionLifecycle.ConnectSucceedsExactly | nci/jni/PeerToPeer.cpp:719-757 | over every run createDataLinkConn returns true if and only if the stack had not refused the call and the handle it read after its wait is a valid one, and it is that handle |
| ConnectionLifecycle.DisconnectWaitsExactly | nci/jni/PeerToPeer.cpp:1052-1062 | disconnectConnOriented waits for its disconnect exactly when the connection is up and the stack accepts |
| ConnectionLifecycle.DisconnectCanBeSwallowed | nci/jni/PeerToPeer.cpp:1035-1041 | a run in which a disconnect during a connect returns true, the connect returns true, and the connection is up and in the table |
| PeerToPeerTables.P2pServer.FindServerConnection | nci/jni/PeerToPeer.cpp:1806-1844 | the loop over a server's table answers with its first connection that has the handle |
| PeerToPeerTables.P2pServer.RemoveServerConnection | nci/jni/PeerToPeer.cpp:1856-1871 | in place: empties the slot of that connection and no other, true when there was one |
| PeerToPeerTables.P2pServer.AllocateConnection | nci/jni/PeerToPeer.cpp:1778-1793 | in place: a fresh connection with the JNI handle in the first free slot, or no change |
| PeerToPeerTables.P2pServer.UnblockAll | nci/jni/PeerToPeer.cpp:1758-1776 | in place: every connection of the table has the invalid handle, and its congestion and read events are signalled once each |
| PeerToPeerTables.PeerToPeer.FindServerLocked | nci/jni/PeerToPeer.cpp:154-218 | the loop answers as the registry's lookup does |
| PeerToPeerTables.PeerToPeer.FindClientByConn | nci/jni/PeerToPeer.cpp:792-823 | likewise for a client by its connection |
| PeerToPeerTables.PeerToPeer.FindClientByHandle | nci/jni/PeerToPeer.cpp:770-779 | likewise for a client by its own handle |
| PeerToPeerTables.PeerToPeer.FindConn | nci/jni/PeerToPeer.cpp:836-901 | clients first, then every server's table: the registry's findConnection |
| PeerToPeerTables.PeerToPeer.RegisterServerSection | nci/jni/PeerToPeer.cpp:232-266 | a known service gets the new JNI handle; else a fresh server in the first free slot, or none |
| PeerToPeerTables.PeerToPeer.RemoveServerSection | nci/jni/PeerToPeer.cpp:289-307 | the first server with the handle leaves its slot |
| PeerToPeerTables.PeerToPeer.CreateClientSection | nci/jni/PeerToPeer.cpp:560-586 | a fresh client, with its fresh connection's handle, MIU and window, in the first free slot, or none |
| PeerToPeerTables.PeerToPeer.AllocateSection | nci/jni/PeerToPeer.cpp:1708-1718 | accept's allocation seen from the whole structure, on a server in the tables or already out of them |
| PeerToPeerTables.PeerToPeer.RemoveConnSection | nci/jni/PeerToPeer.cpp:620-651 | the client with the handle leaves its slot, else the connection leaves its server's table; everything else stays |
| PeerToPeerTables.PeerToPeer.CloseConnection | nci/jni/PeerToPeer.cpp:1365-1396 | the connection a disconnect event names has the invalid handle, and its disconnecting, congestion and read events are signalled once each; no other connection changes |
| PeerToPeerTables.PeerToPeer.TurnOn | nci/jni/PeerToPeer.cpp:1234-1240 | both tables empty, no object changed |
| PeerToPeerTables.PeerToPeer.TurnOff | nci/jni/PeerToPeer.cpp:1241-1276 | every connection in a table down, no slot changed; a server's connection, or a client's that was up, woken once; a client that was not up has its connecting event signalled instead |
| PeerToPeerTables.PeerToPeer.HandleNfcOnOff | nci/jni/PeerToPeer.cpp:1227-1278 | either way P2P is not listening afterwards, and the tables are as after turning on or off |
| PeerToPeerTables.PeerToPeer.EnableP2pListening | nci/jni/PeerToPeer.cpp:1183-1215 | listening is as asked for, unless the stack refuses or the mask is zero; the tables stay as they are |
| PeerToPeerTables.PeerToPeer.OwnersFromRegistry | nci/jni/PeerToPeer.h:398-412 | the ownership the sweep relies on is the one every run of the registry keeps |
| NfcTagLists.Expansion | nci/jni/NfcTag.cpp:332-531 | an activation adds one or two entries, one when there is no room for two, all with its own handle |
| NfcTagLists.ActivationIsListedUnder | nci/jni/NfcTag.cpp:338-517 | an activation is listed under exactly the technologies its tag answers to, number by number, with the tag's own handle, protocol and parameters but for the Skylander workaround |
| NfcTagLists.RecordIsListedUnder | nci/jni/NfcTag.cpp:545-669 | a discovery record likewise, but for four protocols, which it lists differently |
| NfcTagLists.FirstEntryNeedsNoRoom | nci/jni/NfcTag.cpp:338-669 | the last entry of the arrays takes the first of a tag's two technologies |
| NfcTagLists.NextFrom | nci/jni/NfcTag.cpp:1474-1492 | the search finds the first selectable entry and reports none only when there is none |
| NfcTagLists.SearchIsOfTheList | nci/jni/NfcTag.cpp:1474-1547 | checkNextValidProtocol and selectNextTag agree whatever counters change between them |
| NfcTagLists.NfcTag.DiscoverActivation | nci/jni/NfcTag.cpp:332-531 | in place: from mTechListIndex on, the four arrays hold the activation's expansion; all else is unchanged |
| NfcTagLists.NfcTag.DiscoverResult | nci/jni/NfcTag.cpp:545-669 | in place: from mNumTechList on, what a discovery record writes, stale handle beside a Mifare record included |
| NfcTagLists.NfcTag.Report | nci/jni/NfcTag.cpp:729-748 | the tag is reported exactly when no notification is outstanding or no other tag can be selected |
| NfcTagLists.NfcTag.CheckNextValidProtocol | nci/jni/NfcTag.cpp:1474-1492 | the loop is the search |
| NfcTagLists.NfcTag.SelectFirstTag | nci/jni/NfcTag.cpp:1424-1463 | selects the first entry that is not NFC-DEP, if any |
| NfcTagLists.NfcTag.SelectNextTag | nci/jni/NfcTag.cpp:1503-1547 | selects what the search finds, if anything |
| NfcTagLists.NfcTag.IsP2pDiscovered | nci/jni/NfcTag.cpp:1306-1323 | true exactly when an entry counted is NFC-DEP |
| NfcTagLists.NfcTag.ResetTechnologies | nci/jni/NfcTag.cpp:1399-1412 | all four arrays blank, both indices zero |
| TagPolling.Step | nci/jni/NfcTag.cpp:1753-1818 | every event keeps all counters and indices within the arrays except, exactly, a Mifare record at index 10, which leaves 12 |
| TagPolling.BoundedExactlyWithoutMifareAtTen | nci/jni/NfcTag.cpp:627-664 | over any run of events the counters stay within the arrays if and only if no Mifare record arrives at index 10 |
| TagSweep.ElevenTagsOverflow | nci/jni/NfcTag.cpp:627-664 | from the empty list ten type-1 tags and a Mifare tag get there |
| TagPolling.ActivationAppends | nci/jni/NfcTag.cpp:338-517 | an activation keeps every entry below mTechListIndex and appends its own |
| TagPolling.EverySweepReportsOnce | nci/jni/NativeNfcManager.cpp:900-904 | from n outstanding notifications, any run of activations and sleeps reports the tag exactly once and stops, at the latest on activation n + 1, with the technologies of all activations in order while they fit |
| TagPolling.DeferredActivationIsFollowedUp | nci/jni/NativeNfcManager.cpp:948-953 | every activation not reported is followed by a selectNextTag that finds a tag, with another handle |
| TagSweep.SelectionStaysExactly | nci/jni/NfcTag.cpp:1503-1547 | for any number of tags and every sweep over them, from their discovery records on: only the first two are activated and one of them is always selected, if and only if the first activation does not take the second tag's only entry with another left to find |
| TagSweep.SweepTakesTurns | nci/jni/NfcTag.cpp:1503-1547 | then the two are selected and activated strictly in turn |
| TagSweep.SweepReportsTheFirstTwo | nci/jni/NativeNfcManager.cpp:900-904 | and what is reported is the technologies of the two tags' activations in turn, one activation for every tag in the field, or the first alone where it took the place of the only other |
| TagSweep.SessionEndsFresh | nci/jni/NfcTag.cpp:1399-1412 | after any bounded run of events that ends with a deactivation to idle, the list is blank and nothing is counted or outstanding |
| TagSweep.EverySessionSweepsAlike | nci/jni/NativeNfcManager.cpp:948-964 | and from any such state, whatever is left of the selection and the number of discovered technologies, the discovery of any tags and every sweep over them go as from the empty list |
| TagSweep.StartLayout | nci/jni/NfcTag.cpp:545-669 | where the discovery records of the first three tags are in the list, the stale handle beside a Mifare record included, however many records follow |
| TagEvents.PeerTakesOver | nci/jni/NativeNfcManager.cpp:489-543 | once a peer is in the list, whatever records follow, the discovery ends with the list blank and no tag selected |
| TagEvents.ReaderReportsAtOnce | nci/jni/NativeNfcManager.cpp:489-543 | in reader mode a peer stops nothing, and the first activation is reported |
| TagEvents.TimerLeavesTheSelection | nci/jni/NativeNfcManager.cpp:489-543 | with the multiprotocol timer no tag is selected, and the last record counts as outstanding |
| TagEvents.FailedDiscoveryReportsNext | nci/jni/NativeNfcManager.cpp:716-720 | after a failed discovery the next activation is reported |
| TagEvents.FailedSelectionStartsOver | nci/jni/NativeNfcManager.cpp:733-745 | after a failed selection the next activation is written to the front of the list |
| TagEvents.UpdateRewrites | nci/jni/NfcTag.cpp:1808-1815 | an activation update lists the tag's technologies where the next activation goes and leaves the sweep where it is |
| TagEvents.KovioAgainChangesNothingElse | nci/jni/NfcTag.cpp:1769-1785 | a Kovio tag seen again leaves its parameters in the first entry and changes nothing else |
| TagEvents.NextTagStartsANewList | nci/jni/NfcTag.cpp:729-748 | over every sweep: once the tag is reported, the next activation starts a new list if and only if every tag discovered has had its turn |
| TagPolling.OnDiscoveryRecord | nci/jni/NativeNfcManager.cpp:489-543 | the driver's handling of a record is the event machine's step, for a Mifare record at index 10 too as long as more records are announced |
| TagPolling.OnActivated | nci/jni/NfcTag.cpp:1769-1785 | likewise for an activation, a Kovio tag seen again included, which is ignored; a sleep is asked for exactly while notifications are outstanding |
| TagPolling.OnDeactivated | nci/jni/NativeNfcManager.cpp:948-964 | likewise for a deactivation |
| TransactionMachine.EveryRunIsCoherent | nci/jni/NativeNfcManager.cpp:4836-4967 | field off means the clean-up timer runs; started means it does not; ended means a clean-up thread is pending; not in progress means the default state or a pending clean-up thread |
| TransactionMachine.TransactionsAreSafeExactlyWhenSeparate | nci/jni/NativeNfcManager.cpp:4836-5034 | over every run: at no point can the next event end a transaction other than for its own field, by a clean-up thread or a timer of an earlier one, if and only if no transaction ever begins while such a thread is pending or such a timer runs |
| TransactionMachine.SeparateTransactionsAreNotForgotten | nci/jni/NativeNfcManager.cpp:4978-5031 | in such runs no event that happens is premature |
| TransactionMachine.BeginningIsSafeExactlyWithNothingLeftOver | nci/jni/NativeNfcManager.cpp:4845-4905 | a beginning is open to a premature end exactly when a thread is pending or the timer runs |
| TransactionMachine.SecondTransactionIsForgotten | nci/jni/NativeNfcManager.cpp:5031-5034 | a run in which the thread of the first transaction zeroes the record of the second |
| TransactionMachine.SecondTransactionIsTimedOut | nci/jni/NativeNfcManager.cpp:4845-4850 | a run in which the timer of the first transaction, which an activation does not stop, ends the second |
| TransactionEnds.TransactionsEndExactly | nci/jni/NativeNfcManager.cpp:4906-4960 | over every run: a transaction in progress whose field goes off for good ends, however the run goes on without another beginning, and the record is zero once the timer and the clean-up threads have run, if and only if it does not wait for a deactivation, or something is left over from another |
| TransactionEnds.FieldOffStartsTheEnd | nci/jni/NativeNfcManager.cpp:4914-4960 | over every run: the field going off leaves the timer running or a clean-up thread pending in exactly those cases |
| TransactionEnds.FieldOffChangesNothingExactly | nci/jni/NativeNfcManager.cpp:4914-4960 | in every reachable state the field going off changes nothing if and only if no transaction is under way, its end is on its way already, or it is a card emulation not yet deactivated or a Mifare one |
| TransactionEnds.BeginningSaysHowItEnds | nci/jni/NativeNfcManager.cpp:4860-4960 | which event begins a transaction says how it ends: by the timer after its field, by a thread after the RF deactivation, or by the timer after deactivation and then field |
| TransactionEnds.OffThenDeactivatedGoesOn | nci/jni/NativeNfcManager.cpp:4899-4933 | a card emulation whose field goes off before its deactivation is reported stays in progress for as long as no field goes off again and nothing else begins |
| TransactionEnds.PaymentEndsWithItsField | nci/jni/NativeNfcManager.cpp:4914-4952 | a field that goes off and on again stops the timer, and the transaction then ends when the field goes off once more |
| TransactionMachine.TransactionCheck.CheckForTransaction | nci/jni/NativeNfcManager.cpp:4836-4967 | the switch in place is the machine's step |
| TransactionMachine.TransactionCheck.TimerProc | nci/jni/NativeNfcManager.cpp:4755-4780 | the timer ends the transaction and starts a clean-up thread |
| TransactionMachine.TransactionCheck.BeginThread | nci/jni/NativeNfcManager.cpp:4978-4988 | the thread's first part clears the flag only |
| TransactionMachine.TransactionCheck.EndThread | nci/jni/NativeNfcManager.cpp:5029-5031 | its second part brings the record to its default |
| DeferredRequests.DeferredRequestsAreRemembered | nci/jni/NativeNfcManager.cpp:2021-2032 | while a transaction is in progress no request changes RF, discovery, polling, P2P, reader or screen state or sends a command; the last of each kind is remembered |
| DeferredRequests.ReplayIsLastRequestsOnly | nci/jni/NativeNfcManager.cpp:4978-5031 | whatever was asked for meanwhile, the replay does to the radio what the last screen request and then the last enable or disable do, an enable from cleared flags, with discovery restarted after a lock and a disable |
| DeferredRequests.DeferringAgainstDoing | nci/jni/NativeNfcManager.cpp:4558-4564 | compared with doing every request at once, the discovery flag ends the same; the screen does exactly when the last screen request is not the default one, or none that differs from the present screen was made |
| DeferredRequests.NewTransactionLosesTheReplay | nci/jni/NativeNfcManager.cpp:4989-5031 | when a transaction begins between the thread's two parts, everything remembered is lost and an enable to be replayed leaves the discovery and polling flags cleared |
| DeferredRequests.OlderRequestsOverride | nci/jni/NativeNfcManager.cpp:4989-5031 | when none begins, requests made between the parts are done at once and the remembered ones after them: the discovery flag ends as the last request asks exactly when nothing contrary was remembered, the screen exactly when no other one was |
| DeferredRequests.UndeferredFlags | nci/jni/NativeNfcManager.cpp:2085-2272 | outside a transaction the discovery flag follows the last enable or disable and the screen the last request that was not the default |
| RadioLaws.EnabledAsAsked | nci/jni/NativeNfcManager.cpp:2085-2272 | an enable that takes effect, with every command accepted: discovery and RF discovery on, the last word on RF discovery to start it; polling on exactly if the mask asked for is not 0, and the last word on polling that mask; peer-to-peer, reader mode and low-power detection as asked |
| RadioLaws.EnabledModes | nci/jni/NativeNfcManager.cpp:2114-2268 | and the last word on each mode, the secure elements' listening and power |
| RadioLaws.EnabledAsAccepted | nci/jni/NativeNfcManager.cpp:2114-2150 | whatever the stack accepts: the flag for polling is what the stack was last told and accepted, and the modes are as asked exactly if there is polling for a mask |
| RadioLaws.DisabledAsAsked | nci/jni/NativeNfcManager.cpp:2340-2473 | a disable that takes effect: discovery, polling and peer-to-peer off, RF discovery on exactly for a selected secure element, and the last word of each kind |
| RadioLaws.ScreenAsAsked | nci/jni/NativeNfcManager.cpp:4566-4641 | a new screen state: the last word on the screen is that state, polling is stopped for a dark or locked one, RF discovery runs exactly after off to locked, or locked to off with a secure element, and no other flag changes |
| RadioLaws.ReplayLeavesTheRadioAsAsked | nci/jni/NativeNfcManager.cpp:4978-5031 | requests deferred in any number and order, then the clean-up: the radio discovers or rests, with the modes and the screen, as the last of each kind asks |
| RadioLaws.SessionRequestsAsAsked | nci/jni/NativeNfcManager.cpp:2034-2078 | during a reader session an enable polls for the session's technologies and a disable stops RF discovery, and no other flag changes |
| RadioLaws.RadioIsOrderly | nci/jni/NativeNfcManager.cpp:1996-2473 | after any requests in any sessions, transactions and clean-ups, whatever the stack accepts: every lock of the RF interface was followed by its unlock, the RF flag is what the stack was last told and accepted, and no UICC was told what to listen for without being told to stop first |
| RadioLaws.LostWhileOff | nci/jni/NativeNfcManager.cpp:4555-4989 | while NFA is off or being disabled, screen requests and what a clean-up was to replay are lost |
| DeferredRequests.NfcManager.EnableDiscovery | nci/jni/NativeNfcManager.cpp:1996-2275 | in place: deferred, the polling of an ETSI reader session, already on, or the whole sequence of commands and flags, the RF interface locked around it |
| DeferredRequests.SessionDefersTheRest | nci/jni/NativeNfcManager.cpp:2034-2078 | during a started reader session an enable polls for the session, and no later request reaches the radio |
| DeferredRequests.NfcManager.DisableDiscovery | nci/jni/NativeNfcManager.cpp:2296-2473 | likewise, the interoperation abort first, and the two branches of a reader session |
| DeferredRequests.NfcManager.DoSetScreenState | nci/jni/NativeNfcManager.cpp:4545-4641 | likewise, with autonomous mode where it is configured |
| DeferredRequests.NfcManager.BeginThread | nci/jni/NativeNfcManager.cpp:4978-4988 | the thread's first part |
| DeferredRequests.NfcManager.EndThread | nci/jni/NativeNfcManager.cpp:4992-5031 | the replay, and the record zeroed |
| DataQueues.BytesAreConserved | nci/jni/DataQueue.cpp:82-156 | over any sequence of operations, bytes taken out followed by bytes still queued are the bytes put in |
| DataQueues.NoPieceMixesRecords | nci/jni/DataQueue.cpp:123-156 | every piece comes from one record, in order; what was taken from a record followed by what is left is the record; offset and length add up to its length |
| DataQueues.DrainingTakesThePieces | nci/jni/DataQueue.cpp:123-156 | emptying the queue with a buffer of m bytes takes the sum of the records' lengths over m, each rounded up |
| DataQueues.DataQueue.Append | nci/jni/DataQueue.cpp:82-108 | in place: a record at the end, or nothing for an empty record or without memory |
| DataQueues.DataQueue.Take | nci/jni/DataQueue.cpp:123-156 | in place, with 16-bit lengths: the front record or as much of it as fits, the rest left for the next call; nothing without a buffer of a byte at least |
| DataQueues.DataQueue.IsEmpty | nci/jni/DataQueue.cpp:62-68 | whether any record is left |
| TechnologyTree.FirstOfEachIsFirst | nxp/jni/com_android_nfc.cpp:401-419 | the list has no technology twice, every technology offered, and for each the entry offered first |
| TechnologyTree.AtMostEight | nxp/jni/com_android_nfc.cpp:422-436 | for any devices the list has at most eight entries, so the limit of 32 never cuts it |
| TechnologyTree.ListedExactlyIfOffered | nxp/jni/com_android_nfc.cpp:448-513 | a technology is in the list if and only if one of the devices is of a type that offers it |
| TechnologyTree.EntriesAreOfTheLastOffering | nxp/jni/com_android_nfc.cpp:440-513 | each entry has the handle and the type of the last device that offers its technology |
| TechnologyTree.AddAllMatchesFirstOfEach | nxp/jni/com_android_nfc.cpp:401-419 | adding candidates one by one, each only if its technology is new, gives the first of each |
| TechnologyTree.AddTechIfNeeded | nxp/jni/com_android_nfc.cpp:401-419 | in place: the three arrays gain the entry exactly when its technology is not there and there is room |
| TechnologyTree.GetTechnologyTree | nxp/jni/com_android_nfc.cpp:436-517 | the loops produce the first of each technology from the last device to the first, with the matching handle and type |
| PowerSwitches.LevelAgreesExactly | nci/jni/PowerSwitch.cpp:177-238 | over any run of any number of callers, which may come in while another waits for a deactivation: the level is full only when device management says so, all along, if and only if the power is never lowered with full power configured and the controller not known awake |
| PowerSwitches.FullAndLowAgree | nci/jni/PowerSwitch.cpp:177-238 | in particular when only full and low power are asked for, by one caller at a time |
| PowerSwitches.PowerOffCanDisagree | nci/jni/PowerSwitch.cpp:217-226 | a run that ends at full power with a sleeping controller |
| PowerSwitches.StuckExactly | nci/jni/PowerSwitch.cpp:308-382 | which operations lead to low power on a controller not known to be asleep, and which lead out of it, both exactly: a failed sleep, a refused or failed wake-up; initialize, or a lowering answered with full power by the configuration or with a good sleep by the stack |
| PowerSwitches.StuckUntilReopened | nci/jni/PowerSwitch.cpp:177-238 | over every run from there it stays so if and only if none of the latter comes |
| PowerSwitches.FailedSleepGetsStuck | nci/jni/PowerSwitch.cpp:317-328 | a run that leads there from the start |
| PowerSwitches.FullAndLowAreNotEnough | nci/jni/PowerSwitch.cpp:212-216 | in particular no sequence of full and low requests, however answered, leads out |
| PowerSwitches.FullPowerExactlyFromSleep | nci/jni/PowerSwitch.cpp:212-216 | at low power a request for full power reaches it exactly when the controller is known to be asleep and the stack wakes it |
| PowerSwitches.MaskIsWhatIsOn | nci/jni/PowerSwitch.cpp:263-295 | the activity mask has exactly the bits switched on and not off since |
| PowerSwitches.DesiredIsLastConfigured | nci/jni/PowerSwitch.cpp:116-250 | over every run what lowering the power means is what was last configured, by initialize or by setScreenOffPowerState |
| PowerSwitches.UnknownUntilInitialized | nci/jni/PowerSwitch.cpp:116-145 | over every run, initialized without a level and with no caller waiting, the switch knows neither level nor controller state until it is initialized again |
| PowerLocks.DeadlockedExactlyInTheCircle | nci/jni/PowerSwitch.cpp:181-236 | in every reachable state of any number of callers and the callback thread with something to do, nobody can go on if and only if one caller holds gDeactivatedEvent and wants mMutex, another holds mMutex while it waits for the stack, and the callback thread is about to lock gDeactivatedEvent |
| PowerLocks.CircleStays | nci/jni/PowerSwitch.cpp:198-208 | and then for ever, whatever else is done |
| PowerLocks.TwoCallersCanDeadlock | nci/jni/PowerSwitch.cpp:198-208 | a run of two callers and a deactivation that gets there |
| PowerLocks.OneCallerGoesOn | nci/jni/PowerSwitch.cpp:177-238 | one caller at a time never does |
| PowerLocks.ChangesWaitForDeactivation | nci/jni/PowerSwitch.cpp:195-208 | over every run: while the link stays active, a change between full and low power gets no further than its wait |
| PowerLocks.DeactivationWakesOne | nci/jni/NativeNfcManager.cpp:954-960 | in every reachable state a deactivation leaves nothing active, wakes one sleeper if there is any, and moves nobody else |
| PowerSwitches.PowerSwitch.ChangeLevel | nci/jni/PowerSwitch.cpp:177-205 | in place: the level change up to where it gives the mutex up, which it does exactly between full and low power, and its status both ways |
| PowerSwitches.PowerSwitch.ResumeLevel | nci/jni/PowerSwitch.cpp:206-238 | and from where it has the mutex again, in whatever state others have left, for each answer of the stack, with its status both ways |
| PowerSwitches.PowerSwitch.SetPowerOffSleepState | nci/jni/PowerSwitch.cpp:308-382 | in place: sleeping and waking, with the callback answering in between |
| PowerSwitches.PowerSwitch.Initialize | nci/jni/PowerSwitch.cpp:116-145 | in place: full and unknown levels set the state, others only the configured one |
| Transceives.BufferHoldsPayloads | nci/jni/NativeNfcTag.cpp:1370-1409 | since the arming, whatever happened before, the buffer is the payloads received, those handed to the extension library excepted, and the event is signalled exactly by a last fragment or a time-out |
| Transceives.ResponseIsReassembled | nci/jni/NativeNfcTag.cpp:1489-1560 | the tag is lost exactly after a failed wait, after a time-out or when it is no longer active; else a wake that was signalled returns exactly the CONTINUE and OK payloads since the arming, a last fragment among them, nothing for a type-2 NACK, and for Mifare Classic what the extension library makes of them |
| Transceives.Transceiver.Finish | nci/jni/NativeNfcTag.cpp:1489-1560 | what the call returns after its wait, the reconnections it asks for, and the buffer emptied |
| Transceives.LateFragmentsAreDropped | nci/jni/NativeNfcTag.cpp:1385-1389 | what arrives while nobody waits changes nothing; only the end of an answered call empties the buffer |
| Transceives.Transceiver.DoTransceiveStatus | nci/jni/NativeNfcTag.cpp:1370-1396 | the callback in place, the Mifare Classic branch included |
| AidBuffers.Parse | nci/jni/RouteDataSet.cpp:59-89 | every write is inside the array, and the bytes are the numbers %x reads from the colon-separated fields in order, blanks, signs, prefixes and fields without a number included |
| AidBuffers.FieldsFit | nci/jni/RouteDataSet.cpp:69 | the fields fit an array of the string's length exactly when the string has a character that is not a colon |
| AidBuffers.ParseInvertsPrint | nci/jni/RouteDataSet.cpp:59-89 | parsing inverts the colon-joined two-digit printing of every non-empty byte sequence, in small letters or capitals |
| AidBuffers.ScanReadsDecorated | nci/jni/RouteDataSet.cpp:76-86 | blanks, a sign and a hexadecimal prefix before a number are read as %x reads them |

## Left out

- JNI objects, global references, Java callbacks, logging, configuration files and route.xml: no behaviour of their own here.
- The stack (NFA, EXTNS, ALA, HAL): its answers are parameters, its connection and JNI handles are new each time. That the 32-bit JNI handle counter could wrap around is not modelled; NFA_HANDLE_INVALID is only a value unlike them.
- Spurious wake-ups in the lock machine and signal handlers. The connect and disconnect theorems allow a waiting thread to wake at any time.
- NoLostWakeup.NoWakeupIsLost: assumes one requester per object at a time, and so no concurrent createClient calls, which may swap registration answers; the waits of accept and receive, which request nothing, are in AcceptRace.
- OperationEffects.FinishedHasWoken: assumes that nobody else sleeps on the event while the sleeper does; a notification wakes one thread, so of two in receive on one connection the other sleeps on.
- OperationEffects.AnswerEndsTheWait: assumes one requester per object, as NoLostWakeup does.
- OperationEffects.FinishedHasSleptAndTaken: counts a mutex taken back after a wait with the wait.
- HandlesGiven.RegisteredServerIsFound: assumes that the stack runs one callback at a time, as the other results on events do.
- AnswersSeen.RequesterSeesItsAnswer: assumes that the stack runs one callback at a time and answers a registration or a connect only when asked.
- PeerRegistryRuns.KeysNeverCollide: assumes new handles from the stack and from getNewJniHandle.
- ConnectionLifecycle.ConnectOutcome: assumes one connecting thread per client until its result has been taken.
- PeerToPeerTables.PeerToPeer.RegisterServerSection: registerWithStack, which follows outside the mutex, is in PeerScripts and PeerRegistryRuns.
- PeerToPeerTables.PeerToPeer.CreateClientSection: the registration that follows indexes mClients again without the mutex; the model keeps the object found.
- PeerToPeerTables.PeerToPeer.CloseConnection: mDisconnectMutex around the write and its notifications is in ConnectionLifecycle and PeerScripts.
- ThreadMachine.SleepersHoldNothing: the peer-to-peer mutexes only; callers of enableP2pListening hold sRfInterfaceMutex of NativeNfcManager while it waits.
- ConnectionLifecycle.DisconnectRemovesExactly: the status returned is not modelled; it is true when only the connecting thread was woken, and otherwise says whether the stack accepted a disconnect.
- SyncEvent and the mutexes are instructions of a transition system rather than a class, because what matters of them is how threads interleave.
- The data path of send and receive beyond its locking and waiting; remote MIU and window overriding in accept.
- TagPolling.EverySweepReportsOnce: tags polled, none of them Kovio, and no failed select in between; the list is claimed while the technologies fit in eleven entries.
- TagPolling.OnDiscoveryRecord: what isP2pDiscovered reads beyond the arrays after a Mifare record at index 10 with no more to come is not defined; the thread that reconfigures polling for multiprotocol peers is a parameter that ends the event.
- TagSweep.SelectionStaysExactly: tags told apart by distinct non-zero discovery ids, none of them a peer or a Kovio tag, reader mode off, no Mifare record at index 10; only the first activation is as its record has it.
- TagPolling.OnActivated: activations the driver itself consumes (reconnection, interface selection, peers) and a NULL JNI environment in createNativeNfcTag are outside it.
- TagPolling.OnDeactivated: not during a reconnection, which ignores the event.
- The JNI array filling of poll bytes, activation bytes and UID; Felica Lite, Kovio identity and transceive time-out details.
- TransactionMachine.EveryRunIsCoherent: NFA stays enabled, cleanup_timer is atomic and creates its thread; the loader service, ETSI reader mode and AGC debug paths are excluded.
- TransactionEnds.TransactionsEndExactly: that the timer and the threads do run is left to the system; the result says what they lead to, and that they can.
- RadioLaws.EnabledAsAsked: with every command accepted; what holds otherwise is in RadioLaws.EnabledAsAccepted and RadioLaws.RadioIsOrderly.
- DeferredRequests.ReplayIsLastRequestsOnly: the thread's two parts with nothing in between; NewTransactionLosesTheReplay and OlderRequestsOverride are what happens otherwise.
- DeferredRequests.NfcManager.EnableDiscovery: waits for the stack's events; sTechMask, discDuration and gFelicaReaderState are written and not read here.
- DeferredRequests.DeferringAgainstDoing: outside an ETSI reader session, as the other results about flags.
- DeferredRequests.NfcManager.DoSetScreenState: pendingScreenState is set and never read here; its readers are other functions.
- DataQueues.DataQueue.Take: on a non-empty queue; the front of an empty list is not defined.
- PowerSwitches.LevelAgreesExactly: abort wakes a waiting request as a bad answer does; an answer that comes after it is left out.
- PowerLocks.DeadlockedExactlyInTheCircle: the waits of doStartupConfig under mMutex, which need the callback thread as the one modelled does, and sRfInterfaceMutex, which some callers hold.
- PowerSwitches.MaskIsWhatIsOn: the mask is its low eight bits; the modes are 1, 2, 4 and 8.
- AidBuffers.Parse: something besides colons, without which a byte is written past the array, and numbers that an unsigned int holds; what %x makes of others is not defined.
- RoutingManager, SecureElement, self tests, the Felica reader switch, LLCP socket wrappers and HciRFParams: thin sequencing or foreign calls, which would add only easy members.
