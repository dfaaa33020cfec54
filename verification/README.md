# Proofs about the state machines of an Android device tree

This project models, in Dafny 4.11, the parts of the repository that are protocols or data structures rather
than plumbing, and proves what every run of them keeps. Each component has a specification on values: a
datatype for its state, one for its events, and a function `Step` (or a relation `Next`) for one event with its
outgoing calls. The source's object is a class with the source's fields and loops, and each of its methods is
proved to have exactly the effect of `Step`. The main theorems are about runs of `Step` of any length, with the
modem, the framework, the perflock library, timers and allocation free to answer in any way. What a message does
is also stated exactly, apart from `Step`: by the messages of the run so far, or by the states before and after.

| module | component |
|---|---|
| `Agps`, `AgpsRuns`, `AgpsSteps`, `DsRuns`, `DsLists`, `AgpsManager` | the AGPS data-connection machines, their subscribers, the emergency machine's retries, and the manager over three machines |
| `Tracking` | tracking sessions sharing one engine fix |
| `Odcpi` | on-demand position requests and their timer |
| `PowerVote` | the modem power vote, the GPS lock, and session ids |
| `NiSession` | network-initiated requests, handled by the adapter and by threads, in every interleaving |
| `SetMap`, `OsObserver` | the two-way subscription index, what is announced and what is delivered |
| `HintList` | the linked list of active hints and the perflocks held for them |
| `PerfModes`, `Boost` | the sustained and VR modes that hand over one lock, and the interaction boost |
| `AdapterTable` | the dense array of adapters and the messages that open the modem side |
| `Wrappers` | the option type the others share |

`dafny verify dfyconfig.toml` checks the whole project. In the proofs, `After(run, k)` is the state after the
first k events of a run, and functions over lists count with a prefix length. `hide` keeps the bodies that a
proof does not need away from the solver.

## What the code does not do

Where a property fails, the project states when it holds, and in most cases gives a run in which it fails.

- `LocUnorderedSetMap::update` is documented to return the values it removes. It returns those that stay
  (`SetMap.UpdateReturnsRemovedIff`). So the update of a client that has items breaks the inverse relation of the
  two maps (`OsObserver.StepKeepsInverseIff`), and a batch then misses the client unless it changes an item
  that the update added or gave up (`OsObserver.UpdateDeliversExactlyIff`). A client that repeats an update is sent
  nothing until it sends another message of its own (`OsObserver.RepeatedUpdateSilencesClient`).
- A fallback of the emergency machine leaves its subscriber in the list. When the next one
  falls back, it is the first that is asked for again, and the next stays listed
  (`AgpsManager.FallbackServesRequesterIff`) until somebody's call succeeds (`AgpsManager.GrantAnswersIff`).
- A busy data-services client, when the connection is asked for again on leaving RELEASING, leaves the emergency
  machine pending with nobody to retry (`DsRuns.BusyAfterReleasingIsLost`): a retry starts a call only if it finds
  the machine released (`DsRuns.RetryKeepsListIff`). The retry counter is not reset by a call that succeeds.
- When the emergency call is denied, or closed before it was opened, a subscriber that has left and waits for the
  close is asked for again on the plain connection; and a release in RELEASED is confirmed, but its subscriber stays
  listed (`DsLists.LeavesExactlyWhen`).
- At gps/gnss/Agps.cpp:629 the timer's handle is taken for an error code. Either answer is other than success, so
  the machine does the same.
- A response that comes too late for a network-initiated request answers the next one
  (`NiSession.LateResponseAnswersNext`; a response answers its own request exactly under
  `NiSession.ResponsesAreOwnIff`), the thread of one request can clear the id of the next
  (`NiSession.IdIsKeptIff`), a request whose thread cannot be created blocks its session for good
  (`NiSession.StuckForGood`), and a payload that arrives while no client has a callback is not freed, and no other
  (`NiSession.ConsumedExactlyOnce`).
- A timer expiry can be stale, and the framework is then asked twice in a row
  (`Odcpi.StaleExpiryCallsAgain`, and exactly when in `Odcpi.ExpiryIsFreshIff`).
- `disableCommand(0)` with no vote held votes off once more (`PowerVote.VotesAlternateIff`), and the XTRA observer
  is not told of a lock that a configuration update changes (`PowerVote.UpdateMissesXtraIff`).
- A sustained or VR hint sent twice turns the mode off again (`PerfModes.ModesCountHints`), and the GPU bus
  in sustained mode depends on the path to it (`PerfModes.BusRemembersPath`).
- An open that is still queued when the last adapter goes opens the modem side after it was closed
  (`AdapterTable.OpenComesAfterClose`, and exactly when in `AdapterTable.ClosedForGoodIff`).
- A boost hint can cut the boost before it short, by less than a microsecond (`Boost.ShortensIff`).
- After a reset of the engine whose restart has failed, a start or an update can succeed and leave the engine off
  (`Tracking.SilentSuccessLeavesOff`).
- The engine's interval is that of a live session, but its mode may be that of a session that was stopped or has
  changed its mode (`Tracking.ModeStaysAskedIff`); and a start that reused a live key could leave the engine off the
  minimum (`Tracking.StartKeepsMinimumIff`): `PowerVote.IdsAreFresh` says why keys are new.

## Model

| member | source | states |
|---|---|---|
| `AgpsRuns.ReachableShape` | gps/gnss/Agps.cpp:72-290 | In every run of a base machine the handles are distinct, RELEASED means an empty list, and only subscribers that wait for the close are inactive; without modem restarts PENDING and ACQUIRED mean somebody is active and RELEASING that somebody is inactive, and with them PENDING and ACQUIRED mean empty or somebody active |
| `AgpsRuns.RequestsAreBracketed` | gps/gnss/Agps.cpp:72-314 | Between any two connection requests of a run the connection was released, or a close or denial was acted upon |
| `AgpsRuns.ReleaseOnlyWhenOpen` | gps/gnss/Agps.cpp:116-178 | A release is asked for only in PENDING or ACQUIRED |
| `AgpsRuns.OpenUntilClosed` | gps/gnss/Agps.cpp:72-314 | After a request the machine stays pending or connected until a release call, or a close or denial that moves it |
| `AgpsRuns.StepIsFramed` | gps/gnss/Agps.cpp:296-314 | A base machine asks the framework for a connection exactly when it starts to wait for one, from RELEASED or RELEASING to PENDING, and gives it back exactly when an unsubscription takes it out of PENDING or ACQUIRED |
| `AgpsRuns.OpenIffAsked` | gps/gnss/Agps.cpp:72-314 | In every run, with modem restarts, a base machine is in PENDING or ACQUIRED exactly if its last framework call was a request and no close or denial has moved it since; and in ACQUIRED exactly if that was granted, too |
| `AgpsRuns.SubscribersAreConserved` | gps/gnss/Agps.cpp:203-436 | Over every run, a handle was added as often as it was told that it is over, dropped by a modem restart, or is still listed |
| `AgpsRuns.LeavesExactlyWhenTold` | gps/gnss/Agps.cpp:316-436 | A subscriber leaves the list exactly when it is sent its one terminal notification, and nobody who stays is sent one |
| `AgpsRuns.LeavesWithNotice` | gps/gnss/Agps.cpp:203-386 | A subscriber is told that its connection was never opened exactly if it leaves on a denial in PENDING, and that it is closed exactly if it leaves otherwise |
| `AgpsRuns.ActivesSurviveClose` | gps/gnss/Agps.cpp:203-290 | On a close or denial while RELEASING each active subscriber stays, in order, and the connection is asked for again; a late close in PENDING changes nothing |
| `AgpsRuns.ConnectedMeansGranted` | gps/gnss/Agps.cpp:72-201 | In ACQUIRED each active subscriber has been told of the grant, whether it joined before or after it |
| `AgpsRuns.InactiveForGood` | gps/gnss/Agps.cpp:116-290 | An inactive subscriber never becomes active again |
| `AgpsRuns.HandlesAreDistinct` | gps/gnss/Agps.cpp:72-436 | In every run of a base or a DS machine, with modem restarts, no handle is listed twice |
| `AgpsRuns.InactiveStaysInactive` | gps/gnss/Agps.cpp:116-290 | In every run of either machine, a subscriber that is inactive stays so for as long as it is listed |
| `AgpsSteps.ListIsExact` | gps/gnss/Agps.cpp:72-512 | Who is listed after an event, on either machine with distinct handles: exactly who remains, with its flags, in the order of before, and a new subscriber last |
| `AgpsSteps.StateIsExact` | gps/gnss/Agps.cpp:72-291 | The state after an event, on either machine, from the state before and from whether anybody, or anybody active, is listed then |
| `AgpsSteps.CallsAreExact` | gps/gnss/Agps.cpp:72-386 | Each call to the framework, the modem, the data-services client, the timer or the queue is made exactly in the cases listed for it, on either machine with distinct handles |
| `AgpsSteps.CallsAreSequenced` | gps/gnss/Agps.cpp:203-349 | Subscribers are told in list order, each at most once in an event, and before the connection is asked for or given back, which happens at most once |
| `AgpsSteps.EventsAreExact` | gps/gnss/Agps.cpp:40-512 | All four hold of every event of every run of either machine, with modem restarts |
| `Agps.AgpsStateMachine.constructor` | gps/gnss/Agps.h:161-165 | A new machine is released, with nobody listed |
| `Agps.AgpsStateMachine.GetSubscriber` | gps/gnss/Agps.cpp:472-485 | Finds the first subscriber with the handle |
| `Agps.AgpsStateMachine.GetFirstActive` | gps/gnss/Agps.cpp:487-500 | Finds the first subscriber that is active |
| `Agps.AgpsStateMachine.AnyActiveSubscribers` | gps/gnss/Agps.cpp:438-448 | Whether any subscriber is active |
| `Agps.AgpsStateMachine.AddSubscriber` | gps/gnss/Agps.cpp:398-417 | Appends the subscriber unless its handle is listed |
| `Agps.AgpsStateMachine.DeleteSubscriber` | gps/gnss/Agps.cpp:419-436 | Erases, while walking, just the subscribers with the handle |
| `Agps.AgpsStateMachine.NotifyEventToSubscriber` | gps/gnss/Agps.cpp:351-386 | What one subscriber is told, by a base machine and by a DS machine |
| `Agps.AgpsStateMachine.NotifyAllSubscribers` | gps/gnss/Agps.cpp:316-349 | Tells the subscribers of the kind asked for in list order, and erases just these if asked to |
| `Agps.AgpsStateMachine.DropAllSubscribers` | gps/gnss/Agps.cpp:502-512 | Empties the list |
| `Agps.AgpsStateMachine.RequestOrReleaseDataConn` | gps/gnss/Agps.cpp:296-314 | The one virtual call: the framework for a base machine; the data call, its retries and its fallback for a DS machine |
| `Agps.AgpsStateMachine.ProcessSubscribe` | gps/gnss/Agps.cpp:72-114 | The new state, the new subscriber list and the calls made on SUBSCRIBE, in each of the four states |
| `Agps.AgpsStateMachine.ProcessUnsubscribe` | gps/gnss/Agps.cpp:116-178 | The new state, list and calls on UNSUBSCRIBE: the subscriber is parked or dropped, and the connection released when nobody active is left |
| `Agps.AgpsStateMachine.ProcessReleased` | gps/gnss/Agps.cpp:203-248 | The new state, list and calls on RELEASED, in each of the four states |
| `Agps.AgpsStateMachine.ProcessDenied` | gps/gnss/Agps.cpp:250-291 | The new state, list and calls on DENIED, in each of the four states |
| `Agps.AgpsStateMachine.ProcessAgpsEvent` | gps/gnss/Agps.cpp:40-70 | Each event has the state and appends to the log the calls of `Step`, about which the run theorems are |
| `DsRuns.RetriesAreBounded` | gps/gnss/Agps.cpp:583-695 | In every run of a DS machine the retry counter is between 0 and 4, and is the number of retry timers since the last fallback |
| `DsRuns.FifthBusyFallsBack` | gps/gnss/Agps.cpp:612-630 | A busy answer makes the machine fall back exactly if it is the fifth since the last fallback, and start a timer otherwise |
| `DsRuns.RetryKeepsList` | gps/gnss/Agps.cpp:558-577 | A retry that is delivered at once leaves the list as it is, and starts a call exactly if the machine is released and calls can be made |
| `DsRuns.RetryKeepsListIff` | gps/gnss/Agps.cpp:542-577 | In every run, a retry that is delivered after any other messages leaves the list as it is exactly if its handle is still listed; it lists no handle twice, and starts a call exactly if the machine is released, calls can be made and somebody is active |
| `DsRuns.SubscribeListsIff` | gps/gnss/Agps.cpp:72-114 | Subscribing to a DS machine leaves the list alone exactly if the handle is listed, and else appends it |
| `DsRuns.RetryAfterRestartLists` | gps/gnss/Agps.cpp:502-577 | After a modem restart a retry lists its handle anew |
| `DsRuns.BusyAfterReleasingIsLost` | gps/gnss/Agps.cpp:203-248 | A busy answer on leaving RELEASING leaves the machine pending, and the retry then starts no call |
| `DsRuns.ReleasingIsReached` | gps/gnss/Agps.cpp:40-178 | Four events that bring a new DS machine to the state in which that happens |
| `DsLists.LeavesExactlyWhen` | gps/gnss/Agps.cpp:116-291 | A DS subscriber is told of the close exactly if it leaves the list, but for two cases: when the pending call is denied or closed everybody leaves, the inactive included, and is posted to the plain machine; and a release in RELEASED tells its handle so and leaves it listed |
| `DsLists.GoneWasTold` | gps/gnss/Agps.cpp:116-512 | In every run of the DS machine, whoever is no longer listed was told of the close, was posted to the plain machine on a refusal, or was dropped by a modem restart |
| `DsLists.RefusalRepostsInactive` | gps/gnss/Agps.cpp:250-291 | A run in which a subscriber that waits for the close is posted to the plain machine, and not told of it |
| `DsLists.EntryEmptiesList` | gps/gnss/Agps.cpp:72-291 | Whatever event brings a machine to RELEASED leaves nobody listed |
| `DsLists.ReleasedIsEmptyIff` | gps/gnss/Agps.cpp:72-512 | In every run of either machine, while it is released its list is empty exactly if nobody has subscribed since it was released or restarted |
| `AgpsManager.MachinesRunAlone` | gps/gnss/Agps.cpp:739-910 | In every run of the manager each of the three machines is where the events routed to it alone would bring it |
| `AgpsManager.BaseMachinesKeepShape` | gps/gnss/Agps.cpp:739-910 | So the shape of the base machines holds behind the manager too |
| `AgpsManager.RequestIsRouted` | gps/gnss/Agps.cpp:739-796 | A request for any mobile network goes to the internet machine, a plain one to the plain machine, and an emergency to its own machine if emergency connections are their own, which is created if need be, and to the plain one otherwise; it is refused exactly if there is no such machine, and no other machine changes |
| `AgpsManager.MachinesExistIff` | gps/gnss/Agps.cpp:700-796 | In every run there is a plain machine exactly on a device with assisted positioning, and an emergency machine exactly if such connections are also their own, and it could be created at the start or when a message needed it |
| `AgpsManager.QueueIsFifo` | gps/gnss/Agps.cpp:542-610 | In every run of the manager, posted requests come back one by one in the order in which they were posted |
| `AgpsManager.RetryPosts` | gps/gnss/Agps.cpp:558-577 | A retry timer posts an emergency request for a handle exactly if that is the first active subscriber's |
| `AgpsManager.RetryComesBack` | gps/gnss/Agps.cpp:542-577 | In every run, that request comes back to the emergency machine as a subscription of the same handle that waits for its close, once those before it have come back, and no other machine changes |
| `AgpsManager.ReleaseReachesOne` | gps/gnss/Agps.cpp:798-830 | A release is refused exactly if no machine lists the handle, and else changes one machine, which lists it |
| `AgpsManager.RestartDropsAll` | gps/gnss/Agps.cpp:887-910 | After a modem restart nobody is listed anywhere, no machine has changed state, nobody is told, and the data call is stopped and closed exactly where emergency connections are their own |
| `AgpsManager.FallbackServesRequesterIff` | gps/gnss/Agps.cpp:583-640 | A first request that falls back does so for its own handle exactly if no active subscriber was left in the list before it |
| `AgpsManager.FallbackLeavesSubscriber` | gps/gnss/Agps.cpp:600-610 | A fallback leaves its subscriber in the emergency machine's list |
| `AgpsManager.ReleaseForgetsOtherList` | gps/gnss/Agps.cpp:798-830 | A later release takes the handle out of the plain machine only |
| `AgpsManager.StaleSubscriberTakesFallback` | gps/gnss/Agps.cpp:583-610 | When the next handle falls back, the plain connection is asked for on behalf of the stale one; the next handle stays listed, without a request of its own |
| `AgpsManager.GrantAnswersIff` | gps/gnss/Agps.cpp:180-201 | A DS machine tells a handle that its connection is open exactly if a grant finds it listed and active while pending, or it subscribes while connected |
| `AgpsManager.NextCallAnswersStale` | gps/gnss/Agps.cpp:583-680 | So the handle that was passed over is answered after all when a later handle's call succeeds |
| `AgpsManager.AgpsManager.GetAgpsStateMachine` | gps/gnss/Agps.cpp:739-768 | The machine for a type, created on demand for the emergency type |
| `AgpsManager.AgpsManager.RequestATL` | gps/gnss/Agps.cpp:770-796 | A request goes to the machine of its type, or is refused if there is none |
| `AgpsManager.AgpsManager.ReleaseATL` | gps/gnss/Agps.cpp:798-830 | A release goes to the first of the three machines that lists the handle |
| `AgpsManager.AgpsManager.ReportAtl` | gps/gnss/Agps.cpp:850-885 | A report from the framework goes to the machine of its type |
| `AgpsManager.AgpsManager.ReportDataCall` | gps/gnss/Agps.cpp:832-848 | A report from the data-services client goes to the emergency machine, if there is one |
| `AgpsManager.AgpsManager.HandleModemSSR` | gps/gnss/Agps.cpp:887-910 | Drops the subscribers of all machines |
| `Tracking.EngineRunsAtMinimum` | gps/gnss/GnssAdapter.cpp:1132-1761 | After every message of every run, client removals included, with engine calls that may fail: an engine that is on is at the smallest interval of the sessions; and while there are sessions it is on exactly unless it has been reset, and no engine call has succeeded since |
| `Tracking.StartKeeps` | gps/gnss/GnssAdapter.cpp:1487-1511 | A start with a new key leaves an engine that is on at the smallest interval of the sessions, and off without sessions |
| `Tracking.UpdateKeeps` | gps/gnss/GnssAdapter.cpp:1635-1671 | An update leaves an engine that is on at the smallest interval of the sessions, and off without sessions |
| `Tracking.StopKeeps` | gps/gnss/GnssAdapter.cpp:1713-1745 | A stop leaves an engine that is on at the smallest interval of the sessions, and off without sessions |
| `Tracking.StopClientKeeps` | gps/gnss/GnssAdapter.cpp:1132-1147 | The removal of a client, stopping its sessions in any order with engine calls that may fail, leaves an engine that is on at the smallest interval of the sessions, and off without sessions |
| `Tracking.RestartRecovers` | gps/gnss/GnssAdapter.cpp:1211-1235 | A successful restart has the engine on exactly if there are sessions, at the smallest of their intervals, from the session map alone |
| `Tracking.SilentSuccessLeavesOff` | gps/gnss/GnssAdapter.cpp:1487-1671 | With the engine off, a start or an update that takes effect leaves it off exactly if it made no engine call |
| `Tracking.StartKeepsMinimumIff` | gps/gnss/GnssAdapter.cpp:1441-1511 | A start that reuses a live key keeps the minimum exactly if it is refused beforehand, the replaced session was not the only one at it, or the new interval is no larger |
| `Tracking.ReusedKeyMissesMinimum` | gps/gnss/GnssAdapter.cpp:1441-1511 | A start where a reused key leaves the engine below the minimum |
| `Tracking.StepKeepsModeIff` | gps/gnss/GnssAdapter.cpp:1132-1761 | After each message but a client's removal, the engine runs as some live session asked exactly unless that was lost before or is lost by a stop or an update without an engine call, and not found again |
| `Tracking.StopsKeepModeIff` | gps/gnss/GnssAdapter.cpp:1132-1147 | Along the stops of a client's removal, the engine runs as some live session asked exactly unless a stop without an engine call has lost the mode, and none has called the engine since |
| `Tracking.ModeStaysAskedIff` | gps/gnss/GnssAdapter.cpp:1132-1761 | In every run, client removals and engine resets included, the engine runs as some live session asked exactly unless the mode has been lost, and not found again or set by a call since |
| `Tracking.EngineRunsAsRequestedIff` | gps/gnss/GnssAdapter.cpp:1132-1761 | In every run, while the engine is on, some live session has requested the interval and mode it runs at exactly unless the mode has been lost; MS-based and MS-assisted are for requests of just these modes |
| `Tracking.SavesIffAnswered` | gps/gnss/GnssAdapter.cpp:1441-1745 | A start, an update or a stop takes effect on the sessions, and on no other session, exactly unless it is refused beforehand, or needs an engine call and that fails |
| `Tracking.EngineIsAimed` | gps/gnss/GnssAdapter.cpp:1211-1745 | A call that succeeds aims the engine at the new session if its interval is strictly below the others, else at one of the smallest interval among the others, and turns it off when the last session stops |
| `Tracking.RemovalIsExact` | gps/gnss/GnssAdapter.cpp:1132-1147 | Removing a client changes nobody else's session; each of its own is stopped once, and stays exactly if that needed an engine call that was refused |
| `Tracking.MessageIsHandled` | gps/gnss/GnssAdapter.cpp:1132-1761 | In every state, every message but the removal of a client has an outcome, whatever the engine answers |
| `Tracking.StopLosesMode` | gps/gnss/GnssAdapter.cpp:1713-1745 | A stop that leaves the engine in a mode that no session asks for |
| `Tracking.UpdateLosesMode` | gps/gnss/GnssAdapter.cpp:1635-1671 | An update that leaves the engine in a mode that no session asks for |
| `Tracking.GnssTracking.SmallestOutside` | gps/gnss/GnssAdapter.cpp:1494-1502 | With every stored size non-zero, the fold that starts from size zero finds a session of smallest interval outside the given ones |
| `Tracking.GnssTracking.StartTracking` | gps/gnss/GnssAdapter.cpp:1460-1476 | Fails only for a missing callback, a size of zero, or an engine call that was needed and failed; and saves the session exactly on success |
| `Tracking.GnssTracking.UpdateTracking` | gps/gnss/GnssAdapter.cpp:1609-1628 | Fails only for an unknown session, a size of zero, or an engine call that was needed and failed, which is needed only if the session was or becomes the only one at the minimum; and saves exactly on success |
| `Tracking.GnssTracking.StopMultiplex` | gps/gnss/GnssAdapter.cpp:1713-1745 | Re-aims or stops the engine, and leaves the erasing to its caller |
| `Tracking.GnssTracking.StopTracking` | gps/gnss/GnssAdapter.cpp:1690-1707 | Erases just the session on success, and changes nothing otherwise |
| `Tracking.GnssTracking.StopClientSessions` | gps/gnss/GnssAdapter.cpp:1132-1147 | Erasing from the map it walks, it has the effect of stopping the client's sessions one by one, changes no other client's session, and leaves none of this client's if all engine calls succeed |
| `Tracking.GnssTracking.Restart` | gps/gnss/GnssAdapter.cpp:1211-1235 | The restart of the sessions after an engine reset |
| `Odcpi.ActiveRequestHasTimer` | gps/gnss/GnssAdapter.cpp:2547-2684 | In every run an active request has an active timer, which is ticking or whose expiry is on its way |
| `Odcpi.CallbacksAreSpaced` | gps/gnss/GnssAdapter.cpp:2555-2592 | Between two callbacks an expiry was handled, unless the second is an emergency over a stored request that was none |
| `Odcpi.CallbacksAreBounded` | gps/gnss/GnssAdapter.cpp:2555-2592 | Over a run there are at most one callback per expiry and upgrade, and one more; and at most one upgrade per ordinary start, and one more |
| `Odcpi.ExpiriesComeFromCallbacks` | gps/utils/LocTimer.cpp:526-590 | Every expiry, handled, posted or to come, goes back to a callback of its own |
| `Odcpi.StepKeepsOneIff` | gps/gnss/GnssAdapter.cpp:2555-2592 | With at most one expiry to come, a message leaves more than one exactly if it is a start that arms the timer while an expiry is posted: an emergency over an ordinary request, or any start with the timer inactive |
| `Odcpi.ExpiriesAreFresh` | gps/gnss/GnssAdapter.cpp:2547-2684 | In every run where that does not happen, each expiry that is handled is the only one, and finds the timer not ticking |
| `Odcpi.ExpiryIsFreshIff` | gps/gnss/GnssAdapter.cpp:2547-2684 | From any point of a run, the next expiry to be handled is the only one exactly if at most one was to come then, and no such start was taken since |
| `Odcpi.StaleExpiryCallsAgain` | gps/gnss/GnssAdapter.cpp:2658-2684 | An expiry can be stale, and then calls the framework twice in a row |
| `Odcpi.ExpiryAsksForTheLatest` | gps/gnss/GnssAdapter.cpp:2671-2684 | After a start, with no stop or restart since, an expiry is certain to come, and calls back with the latest start |
| `Odcpi.ExpiryCallsIff` | gps/gnss/GnssAdapter.cpp:2671-2684 | An expiry calls back exactly if some start has not been ended by a stop or a restart |
| `Odcpi.CallsWithTheLatest` | gps/gnss/GnssAdapter.cpp:2547-2684 | Every callback carries the latest start that was taken |
| `Odcpi.CalledIff` | gps/gnss/GnssAdapter.cpp:2547-2684 | In every run, the framework is called exactly when an expiry is handled while some start is live, or a start is taken while no call waits for its expiry, or one that is an emergency after a start that was none |
| `Odcpi.EmergencyIsPassedOn` | gps/gnss/GnssAdapter.cpp:2562-2575 | So an emergency is passed on at once, unless the start before it was one too and a call is still waiting for its expiry |
| `Odcpi.TimerFollowsCalls` | gps/gnss/GnssAdapter.h:40-80 | In every run, the timer is active exactly from a call of the framework to the next expiry handled, and ticks exactly until it fires in between; the expiries posted are those fired and not handled |
| `Odcpi.CallbackIffRegistered` | gps/gnss/GnssAdapter.cpp:2596-2612 | The framework can be called exactly from the first registration on |
| `Odcpi.GnssOdcpi.ReportOdcpiRequest` | gps/gnss/GnssAdapter.cpp:2547-2590 | Its whole new state and callback, for a start or a stop |
| `Odcpi.GnssOdcpi.OdcpiTimerExpire` | gps/gnss/GnssAdapter.cpp:2671-2684 | Its whole new state and callback, for an expiry with the request active or not |
| `Odcpi.GnssOdcpi.RestartTimer` | gps/gnss/GnssAdapter.h:53-70 | A restart leaves the timer started, ticking or not before |
| `PowerVote.VotesAlternateIff` | gps/gnss/GnssAdapter.cpp:1929-2018 | The power votes go on, off, on, off exactly as long as nobody disables id zero while no vote is held; and then the vote is on exactly while its id is set |
| `PowerVote.HolderKeepsVote` | gps/gnss/GnssAdapter.cpp:1929-2018 | An enable that succeeded holds the vote until its own id is disabled, and until then no other enable or disable succeeds |
| `PowerVote.MessagesDecide` | gps/gnss/GnssAdapter.cpp:752-2018 | In every run, the vote belongs to the enable that found it free, until a disable names its id; and the lock to apply without a vote is the one configured last, whether or not the vote was held then |
| `PowerVote.LastUpdateDecides` | gps/gnss/GnssAdapter.cpp:762-771 | That lock is the one of the last configuration update, where an unknown number is no lock, and what was there at first if there was none |
| `PowerVote.RepliesAreExact` | gps/gnss/GnssAdapter.cpp:752-2018 | In every run, a vote is cast for exactly the enables that take it and the disables that return it; and each other reply is given exactly for its reason |
| `PowerVote.EngineHasLastLock` | gps/gnss/GnssAdapter.cpp:752-2018 | In every run, the engine has the lock of the last call that succeeded: none at an enable, the configured one at a disable, the new one at an update without a vote |
| `PowerVote.ObserverHasLastLock` | gps/gnss/GnssAdapter.cpp:1952-2010 | In every run, the XTRA observer has the lock of the last enable or disable that took effect, whatever the engine answered |
| `PowerVote.StepSetsLockIff` | gps/gnss/GnssAdapter.cpp:1955-2010 | A message that sets the lock sets the right one exactly if the call succeeds with a valid lock, or the engine had it anyway; other messages keep what is right |
| `PowerVote.LockStaysRight` | gps/gnss/GnssAdapter.cpp:752-771 | From the first enable on, and while the lock calls are good, the engine has no lock while the vote is held, and otherwise the lock configured last, by whatever message and whenever that was |
| `PowerVote.UpdateMissesXtraIff` | gps/gnss/GnssAdapter.cpp:762-771 | The XTRA observer is right about the lock after a configuration update exactly if the vote is held or the lock is unchanged |
| `PowerVote.ConvertRoundTrip` | gps/gnss/GnssAdapter.cpp:321-351 | Converting a lock there and back is the identity exactly on the four locks |
| `PowerVote.IdsAreFresh` | gps/core/LocAdapterBase.cpp:53-61 | A session id is never zero, and the same id comes again only 4294967294 ids later |
| `PowerVote.GnssPower.GenerateSessionId` | gps/core/LocAdapterBase.cpp:55-61 | The counter gives the n-th id |
| `PowerVote.GnssPower.EnableGnss` | gps/gnss/GnssAdapter.cpp:1952-1968 | The new vote id and locks, the vote cast and the reply, for an enable |
| `PowerVote.GnssPower.DisableGnss` | gps/gnss/GnssAdapter.cpp:1998-2012 | The new vote id and locks, the vote cast and the reply, for a disable |
| `PowerVote.GnssPower.UpdateGpsLock` | gps/gnss/GnssAdapter.cpp:762-771 | The new configured lock, and the engine's lock and its reply if no vote is held, for a configuration update |
| `NiSession.PayloadsAreConserved` | gps/gnss/GnssAdapter.cpp:2340-2471 | In every interleaving, failures included, each payload is in as many places as it arrived times: stored, carried by a thread, posted, or dropped as ignored, busy or without a callback |
| `NiSession.FatesAreKept` | gps/gnss/GnssAdapter.cpp:2402-2446 | In every interleaving, the payloads that were accepted are those stored, carried, posted or ignored; those dropped as busy, or for want of a callback, are just those that arrived at a busy session, or with no callback |
| `NiSession.ArrivalIsStoredIff` | gps/gnss/GnssAdapter.cpp:2402-2446 | A request is stored exactly if a client has a callback and no stored payload keeps it out: an emergency only by an emergency, an ordinary one by either. It then has the next id; otherwise the sessions stay as they are and its payload is dropped, as busy or for want of a callback |
| `NiSession.StoredIsNeverOverwritten` | gps/gnss/GnssAdapter.cpp:2418-2446 | A stored request stays until a thread of its session takes it, and a request is stored only in a free session |
| `NiSession.RequestsAreAttended` | gps/gnss/GnssAdapter.cpp:2442-2462 | If threads can be created, a stored request has a thread that waits, or is about to get one |
| `NiSession.OneThreadPerRequest` | gps/gnss/GnssAdapter.cpp:2442-2462 | With payloads that are not null, it has only that one, and a thread waits only for a stored request |
| `NiSession.ConsumedExactlyOnce` | gps/gnss/GnssAdapter.cpp:2340-2471 | When all is quiet, both sessions are free; each payload was handed to the modem or ignored as often as it was accepted, and freed as often as it was accepted or refused; and those not freed are just the arrivals for which no client had a callback |
| `NiSession.StuckForGood` | gps/gnss/GnssAdapter.cpp:2456-2459 | A request whose thread was not created stays stored in every continuation and blocks its session; in the emergency session it blocks both |
| `NiSession.StuckIffNotCreated` | gps/gnss/GnssAdapter.cpp:2456-2459 | A stored request gets stuck exactly if its thread is not created |
| `NiSession.ResponsesAreGiven` | gps/gnss/GnssAdapter.cpp:1852-1886 | In every interleaving a response that a session has was given by a client for that session, or is the ignoring of an ordinary request when an emergency is accepted |
| `NiSession.AnswersAreGiven` | gps/gnss/GnssAdapter.cpp:2355-2399 | What is posted for a request that did not time out is its own payload with a response that was given for its session, to this request or an earlier one |
| `NiSession.GoesStaleIff` | gps/gnss/GnssAdapter.cpp:1858-1884 | A free session is left with a response exactly if the adapter writes to a session that was taken since it looked |
| `NiSession.ResponsesAreOwnIff` | gps/gnss/GnssAdapter.cpp:1852-1886 | While a request is stored, each response its session has was given to this very request, or is its being ignored for an emergency accepted since, exactly if the session was not stale when it arrived |
| `NiSession.AnswerIsOwn` | gps/gnss/GnssAdapter.cpp:2355-2389 | Stored in a session that is not stale, a request that is taken in time is posted with a response given to it |
| `NiSession.StaleResponseStays` | gps/gnss/GnssAdapter.cpp:2355-2389 | Stored in a stale session, it has the old response until a new one is written |
| `NiSession.LateResponseAnswersNext` | gps/gnss/GnssAdapter.cpp:1858-1884 | A run in which the response to a request that has timed out answers the next request |
| `NiSession.IdIsKeptIff` | gps/gnss/GnssAdapter.cpp:2391-2393 | A stored request keeps the id it was announced with exactly unless the thread of an earlier request clears it |
| `NiSession.ClearedIdRefusesUser` | gps/gnss/GnssAdapter.cpp:2391-2393 | A run in which a user who responds in time is told there is no such request |
| `NiSession.ResponseIsWritten` | gps/gnss/GnssAdapter.cpp:1852-1884 | In every interleaving, a response that matches a stored request has been written to its session, and to no other, by the time the adapter is done with it |
| `NiSession.AcceptIgnoresOrdinary` | gps/gnss/GnssAdapter.cpp:1858-1871 | In every interleaving, accepting an emergency first tells the ordinary session to ignore its request if that holds one when the adapter looks, and is written to the emergency session otherwise |
| `NiSession.UnmatchedResponseIsVoid` | gps/gnss/GnssAdapter.cpp:1852-1890 | A response does nothing exactly if its client is unknown or no stored request has its id |
| `NiSession.TimeoutIsNoResponse` | gps/gnss/GnssAdapter.cpp:2362-2389 | At its time limit a thread answers a stored request with no-response, whatever has been written |
| `NiSession.TakenIsPosted` | gps/gnss/GnssAdapter.cpp:2355-2396 | In every interleaving, a thread posts just what it has taken, the same payload with the same response |
| `NiSession.AnswersGoInOrder` | gps/gnss/GnssAdapter.cpp:1899-1927 | In every interleaving, answers are handed to the modem one by one in the order in which they were posted, and none is taken back |
| `NiSession.ProgressIff` | gps/gnss/GnssAdapter.cpp:2340-2471 | Until all is quiet, the adapter or some thread can always go on, and no thread waits for something that cannot come |
| `NiSession.NiAdapter.RequestNiNotify` | gps/gnss/GnssAdapter.cpp:2402-2454 | The session, id and counter after a request, and what becomes of its payload, up to the start of its thread |
| `NiSession.NiAdapter.CreateThread` | gps/gnss/GnssAdapter.cpp:2456-2463 | The threads after the start of a request's thread, which may fail |
| `NiSession.NiAdapter.GnssNiResponse` | gps/gnss/GnssAdapter.cpp:1852-1890 | Which session a client's response is for, up to the first write, and whether it found its request |
| `NiSession.NiAdapter.WriteResponse` | gps/gnss/GnssAdapter.cpp:1863-1884 | The session's response and flag after one write to it, and what the adapter does next |
| `NiSession.NiAdapter.InformNiResponse` | gps/gnss/GnssAdapter.cpp:1899-1927 | Hands the next posted answer to the modem |
| `NiSession.NiAdapter.ThreadTakes` | gps/gnss/GnssAdapter.cpp:2355-2389 | The session, and what the thread carries, after the end of its wait, with a response or at its time limit |
| `NiSession.NiAdapter.ThreadClearsId` | gps/gnss/GnssAdapter.cpp:2391-2392 | The session's id is zero after the thread has let go of the lock |
| `NiSession.NiAdapter.ThreadPosts` | gps/gnss/GnssAdapter.cpp:2394-2396 | The thread posts the answer that it carries, if any, and ends |
| `SetMap.LocUnorderedSetMap.TrimOrRemove` | gps/utils/LocUnorderedSetMap.h:131-139 | Takes the values from under the keys, drops the keys left without any, and reports both |
| `SetMap.LocUnorderedSetMap.Add` | gps/utils/LocUnorderedSetMap.h:143-171 | Adds the values under the keys and reports the keys that are new |
| `SetMap.LocUnorderedSetMap.Update` | gps/utils/LocUnorderedSetMap.h:173-189 | Replaces the values of a key, and returns those that stay |
| `SetMap.TrimSet` | gps/utils/LocUnorderedSetMap.h:44-51 | Removes from a set just what the other has, and reports it |
| `SetMap.RemoveAndReturnInterset` | gps/utils/LocUnorderedSetMap.h:57-71 | Splits two sets into their intersection and the two rests |
| `SetMap.TrimmedHas` | gps/utils/LocUnorderedSetMap.h:131-139 | What trimming does to the relation that the map stands for |
| `SetMap.AddedHas` | gps/utils/LocUnorderedSetMap.h:143-171 | What adding does to it |
| `SetMap.UpdatedHas` | gps/utils/LocUnorderedSetMap.h:173-189 | After an update the key has just the new values and is gone without any, other keys are unchanged, and no key is left without values |
| `SetMap.ReportsKeys` | gps/utils/LocUnorderedSetMap.h:131-171 | The keys reported are just those that came or went, and no key is left without values |
| `SetMap.UpdateReturnsRemovedIff` | gps/utils/LocUnorderedSetMap.h:173-189 | What update returns is what its comment promises exactly if there were no values before |
| `OsObserver.StepKeepsInverseIff` | gps/core/SystemStatusOsObserver.cpp:92-292 | The two maps stay inverse relations in every step but the update of a client that has items, and never in that one |
| `OsObserver.UpdateLeavesDifference` | gps/core/SystemStatusOsObserver.cpp:141-208 | An update leaves the client with the new items in one map and with the difference of old and new in the other |
| `OsObserver.MapsAreInverse` | gps/core/SystemStatusOsObserver.cpp:92-292 | The maps are inverse in every run where no client with items updates them |
| `OsObserver.ItemsAreWanted` | gps/core/SystemStatusOsObserver.cpp:92-292 | In every run, updates included, a client is down for just the items that its own messages ask for: more by a subscribe, others by an update, fewer by an unsubscribe, none after unsubscribing from everything |
| `OsObserver.ListingIsExact` | gps/core/SystemStatusOsObserver.cpp:92-292 | In every run, the other map lists a client under an item just as its own messages make of it, where an update takes it from the items that stay |
| `OsObserver.AnnouncedIsListed` | gps/core/SystemStatusOsObserver.cpp:62-292 | In every run, an item is announced exactly if a subscription object has ever been set and the item lists some client |
| `OsObserver.AnnouncedIsWanted` | gps/core/SystemStatusOsObserver.cpp:62-292 | In every run no key is left without values, and once a subscription object is set it has been told of just the items that have clients |
| `OsObserver.NotifyDeliversExactly` | gps/core/SystemStatusOsObserver.cpp:297-345 | If every item of a client lists it, each batch reaches it exactly if one of its items changed, and brings it just its own changed items at their cached values |
| `OsObserver.BatchIsExactIff` | gps/core/SystemStatusOsObserver.cpp:297-345 | In any state, a batch is so delivered to a client exactly unless one of its items changed and no changed item lists it |
| `OsObserver.AllBatchesAreExactIff` | gps/core/SystemStatusOsObserver.cpp:297-345 | In any state, all batches are so delivered to a client exactly if every item it has lists it, as all do while the maps are inverse |
| `OsObserver.UpdateDeliversExactlyIff` | gps/core/SystemStatusOsObserver.cpp:141-208 | After an update in a state with inverse maps, a batch is so delivered exactly unless one of the client's items changed, and none that the update added or gave up |
| `OsObserver.SentIsCached` | gps/core/SystemStatusOsObserver.cpp:541-571 | What is sent is cached, nothing leaves the cache, and what is not sent is unchanged |
| `OsObserver.SentIff` | gps/core/SystemStatusOsObserver.cpp:541-571 | A batch changes an item exactly by an entry that is handled and says it changed a cached item, or of which a copy could be made for any other; and it is then cached |
| `OsObserver.LastChangeIsCached` | gps/core/SystemStatusOsObserver.cpp:541-571 | Its cached value is that of the last entry that changed it |
| `OsObserver.BatchReachesIff` | gps/core/SystemStatusOsObserver.cpp:308-342 | In any state, a batch reaches a client exactly if it wants a changed item and a changed item lists it, and brings just the changed items it wants at their new values |
| `OsObserver.CachedPartIsSent` | gps/core/SystemStatusOsObserver.cpp:101-201 | In every run, a subscribe or an update sends its client just the cached ones of the items it asks for by it, at their cached values, and nothing if none is cached; no other client is sent anything, and the cache stays |
| `OsObserver.RepeatedUpdateSilencesClient` | gps/core/SystemStatusOsObserver.cpp:141-208 | A client that repeats its update keeps its items in one map, and in every run of messages that do not name it is sent nothing |
| `OsObserver.UnlistedHearsNothing` | gps/core/SystemStatusOsObserver.cpp:92-342 | A client that no item lists is sent nothing, and stays unlisted, in every run of messages that do not name it |
| `OsObserver.UnlistedIff` | gps/core/SystemStatusOsObserver.cpp:92-292 | While the maps are inverse, a client is in that state exactly if it has no items |
| `OsObserver.SystemStatusOsObserver.HandleSubscribe` | gps/core/SystemStatusOsObserver.cpp:101-130 | Both maps and what is announced after a subscribe, and the cached items that the client is sent |
| `OsObserver.SystemStatusOsObserver.HandleUpdateSubscription` | gps/core/SystemStatusOsObserver.cpp:149-201 | Both maps and what is announced after an update, and the cached items among the new ones that the client is sent |
| `OsObserver.SystemStatusOsObserver.HandleUnsubscribe` | gps/core/SystemStatusOsObserver.cpp:221-241 | Both maps and what is announced after an unsubscribe |
| `OsObserver.SystemStatusOsObserver.HandleUnsubscribeAll` | gps/core/SystemStatusOsObserver.cpp:260-282 | Both maps and what is announced after an unsubscribe from everything |
| `OsObserver.SystemStatusOsObserver.SetSubscriptionObject` | gps/core/SystemStatusOsObserver.cpp:68-81 | A subscription object is told of all items that have clients |
| `OsObserver.SystemStatusOsObserver.HandleNotify` | gps/core/SystemStatusOsObserver.cpp:308-342 | The new cache, and what each client is sent |
| `OsObserver.SystemStatusOsObserver.UpdateCache` | gps/core/SystemStatusOsObserver.cpp:541-571 | Caches an item that is handled and new or changed, and says so |
| `OsObserver.SystemStatusOsObserver.SendCachedDataItems` | gps/core/SystemStatusOsObserver.cpp:513-539 | Sends a client just the cached ones among the items, and nothing if there are none |
| `HintList.LocksAreRemembered` | power/utils.c:248-337 | In every run, failures included, an id is active at most once, and the locks held are those of the active hints and the leaked ones |
| `HintList.NothingLeaksIff` | power/utils.c:248-337 | Nothing is leaked exactly as long as every lock that was given up was in fact released |
| `HintList.PerformAddsIff` | power/utils.c:248-300 | A perform takes effect exactly if the library can acquire and does, the id is not active, and both allocations succeed |
| `HintList.PerformAdds` | power/utils.c:248-300 | A perform that takes effect adds just its id, which was not active, with the handle it was given |
| `HintList.UndoRemoves` | power/utils.c:302-337 | An undo that takes effect removes just its id |
| `HintList.UndoRemovesIff` | power/utils.c:302-337 | An undo takes effect exactly if the library is there and the id is active |
| `HintList.UndoUndoes` | power/utils.c:248-337 | Undoing a hint just performed restores list and locks |
| `HintList.HintList.AddListNode` | power/list.c:47-67 | Puts a node in front, which can be compared, or changes nothing if it cannot be allocated |
| `HintList.HintList.FindNode` | power/list.c:126-145 | Ends, at the node of the id or with null if there is none |
| `HintList.HintList.RemoveListNode` | power/list.c:77-108 | Ends, and takes out exactly the node given, or fails and changes nothing |
| `HintList.HintList.PerformHintAction` | power/utils.c:248-300 | The heap list stays acyclic with unique ids and comparable nodes, and refines `Step`, for a perform |
| `HintList.HintList.UndoHintAction` | power/utils.c:302-337 | The heap list stays acyclic with unique ids and comparable nodes, and refines `Step`, for an undo |
| `PerfModes.OneLockWhileModeIsOn` | power/power-helper.c:272-403 | In every run with successful acquires, and a library that replaces a held lock, there is exactly one mode lock while a mode is on, under the handle of one of the modes and with the resources for the two flags, and none otherwise |
| `PerfModes.StepKeepsOneLockIff` | power/power-helper.c:272-403 | A hint keeps the one lock exactly if its acquire, if any, succeeds and is not an addition to a held lock |
| `PerfModes.AddingLeaksLock` | power/power-helper.c:272-403 | With a library that adds to a held lock, a run that leaks the lock of both modes |
| `PerfModes.LaunchExcludesModes` | power/power-8996.c:244-276 | In every run the launch boost is never on in a mode, and no handle stands for two things |
| `PerfModes.SettingsFollowFlags` | power/power-helper.c:259-403 | The CPU and GPU frequencies of the lock are those promised for the two flags, whatever the path |
| `PerfModes.SameFlagsSameSettings` | power/power-helper.c:272-403 | Any two runs with successful acquires that end with the same flags set the CPU and GPU frequencies alike |
| `PerfModes.BusRemembersPath` | power/power-helper.c:380-400 | The GPU bus does depend on it: in sustained mode alone it is not raised exactly if the mode was left to that by leaving VR |
| `PerfModes.ModesCountHints` | power/power-helper.c:272-403 | In every run a mode is on exactly if the number of its on-hints since its last off-hint is odd, whatever else happens |
| `PerfModes.LaunchIsExact` | power/power-8996.c:244-276 | A launch hint counts only outside both modes; the boost goes on with an on-hint that is given a lock, keeps its first handle while on, and goes off with an off-hint or a mode that comes on |
| `PerfModes.LaunchFollowsHints` | power/power-8996.c:244-276 | In every run the boost is on exactly if the last hint that decides was such an on-hint outside of both modes |
| `PerfModes.FailedAcquireDropsLock` | power/power-helper.c:272-403 | A mode hint whose acquire fails leaves the modes without a lock, unless the other mode's handle holds it |
| `PerfModes.PowerHelper.SustainedPerformance` | power/power-helper.c:272-332 | The flags, the handles and the locks held after a sustained-performance hint |
| `PerfModes.PowerHelper.VirtualReality` | power/power-helper.c:338-403 | The flags, the handles and the locks held after a VR hint |
| `PerfModes.PowerHelper.ActivityLaunch` | power/power-8996.c:244-276 | The launch flag and handle after a launch hint, and whether it was handled |
| `Boost.TimespanIsClose` | power/power-helper.c:245-250 | The time computed in microseconds is less than one off the exact time, in either direction |
| `Boost.SkipIsSafe` | power/power-helper.c:425-434 | A skipped hint would have ended before the recorded boost; one that would have ended a microsecond before it is skipped |
| `Boost.StepCovers` | power/power-helper.c:404-447 | A hint moves the recorded end back by less than a microsecond, only if accepted, and is covered afterwards |
| `Boost.RecordedBoostCovers` | power/power-helper.c:404-447 | In every run the recorded boost covers each hint so far, up to a microsecond for each accepted since |
| `Boost.LaterHintIsAccepted` | power/power-helper.c:425-434 | A hint that ends later than the recorded boost is accepted |
| `Boost.ShortensIff` | power/power-helper.c:425-434 | An accepted hint cuts the recorded boost short exactly if it would end less than a microsecond before it, and its clock shows fewer nanoseconds |
| `Boost.EndMovesBackIff` | power/power-helper.c:404-447 | In every run the recorded end moves back just at such hints |
| `Boost.CoversInFull` | power/power-helper.c:404-447 | In every run, as long as there is no such hint, the recorded boost covers each hint in full |
| `Boost.AcceptedHintCanShorten` | power/power-helper.c:425-434 | Two hints of which the second cuts the first short by 999 nanoseconds |
| `Boost.Duration` | power/power-helper.c:417-423 | A boost lasts 1500 milliseconds without a wish or with one below 750, 750 more than wished up to 5000, and 5750 beyond |
| `Boost.Interaction.PowerHint` | power/power-helper.c:404-447 | Records and starts a boost exactly for an accepted hint, and does nothing without a governor or in a mode |
| `AdapterTable.TableIsSet` | gps/core/LocApiBase.cpp:158-203 | In every run the table has no duplicates and holds just the adapters added and not removed since, up to ten; and once the queue is empty the modem side was told last of their mask |
| `AdapterTable.RemovedIsSetMinus` | gps/core/LocApiBase.cpp:169-203 | A removal takes out exactly the adapter given |
| `AdapterTable.AddedIsSetPlus` | gps/core/LocApiBase.cpp:158-167 | An add adds the adapter, unless the table is full |
| `AdapterTable.QueueIsExact` | gps/core/LocApiBase.cpp:158-213 | In every run the queue holds just the messages queued and not handled: one for each change of the table that leaves somebody in it, and for each engine restart |
| `AdapterTable.LastCallIsExact` | gps/core/LocApiBase.cpp:89-213 | The modem side is closed exactly when the last adapter goes, and opened for the mask of the moment exactly by a refresh or a message that is handled |
| `AdapterTable.OpenComesAfterClose` | gps/core/LocApiBase.cpp:169-203 | A run in which the modem side is opened again after the last adapter has gone |
| `AdapterTable.StaysClosedIff` | gps/core/LocApiBase.cpp:112-203 | With no adapter left, and none added, the modem side stays closed exactly as long as no queued open is handled and no mask is refreshed |
| `AdapterTable.ClosedForGoodIff` | gps/core/LocApiBase.cpp:112-203 | So when the queue is empty after the removal of the last adapter, it is closed exactly if nothing was queued before the removal, and no engine has come up and no mask was refreshed since |
| `AdapterTable.UnionHasBit` | gps/core/LocApiBase.cpp:136-143 | A bit is in the union of the first masks exactly if it is in one of them |
| `AdapterTable.MaskHasBit` | gps/core/LocApiBase.cpp:136-143 | A bit is in the mask exactly if it is in some adapter's mask and not excluded |
| `AdapterTable.MaskIgnoresOrder` | gps/core/LocApiBase.cpp:136-143 | The mask does not depend on the order in the table |
| `AdapterTable.LocApiBase.GetEvtMask` | gps/core/LocApiBase.cpp:136-143 | The union of the masks less the excluded bits |
| `AdapterTable.LocApiBase.AddAdapter` | gps/core/LocApiBase.cpp:158-167 | The array stays dense, and opens exactly if the adapter is new and there is room |
| `AdapterTable.LocApiBase.RemoveAdapter` | gps/core/LocApiBase.cpp:169-203 | The nested loops end after one removal, the array stays dense, and the modem side is closed exactly if the table becomes empty |
| `AdapterTable.LocApiBase.HandleEngineUpEvent` | gps/core/LocApiBase.cpp:210-213 | An engine restart queues a message |
| `AdapterTable.LocApiBase.HandleSsrMsg` | gps/core/LocApiBase.cpp:89-100 | That message closes and opens the modem side for the mask of its time |
| `AdapterTable.LocApiBase.HandleOpenMsg` | gps/core/LocApiBase.cpp:107-117 | A message of the table opens it for the mask of its time |
| `AdapterTable.LocApiBase.UpdateEvtMask` | gps/core/LocApiBase.cpp:205-208 | A refresh opens it for the mask at once |

## Left out

- NiSession.PayloadsAreConserved: each method of `NiAdapter` is one step that nothing interrupts. The reads of one check are one step, and so is the store of a payload with its id. Ids are unbounded, and a time limit may pass at any moment of a wait.
- Odcpi.ExpiryAsksForTheLatest: says that an expiry is ticking or posted, and not when it comes. Arming the timer is taken to succeed, and the framework's callback, once set, to stay.
- PerfModes.OneLockWhileModeIsOn: assumes successful acquires and a replacing library, because the library is not in the repository; `PerfModes.StepKeepsOneLockIff` has the exact condition. Handles are taken to be given out once.
- Boost.RecordedBoostCovers: is about the boost the adapter records. What the perflock library does with the request, and overflow of a requested duration, are not modelled.
- OsObserver.SystemStatusOsObserver.HandleNotify: containers are walked in any order, and a set that is erased from while it is walked is taken to visit each of its elements once. The order of deliveries is not modelled, nor is what items hold.
- HintList.HintList.PerformHintAction: a node's data is a value in the node, so its own memory is not modelled beyond the failure to allocate it. Handles are unbounded.
- AdapterTable.TableIsSet: an adapter's mask is a set of bits and does not change, so a refresh opens the modem side for the same mask. Messages are taken from the queue in any order, which makes no difference to what they do.
- AgpsManager.AgpsManager.ReportAtl: reports for a type that has no machine, where the source follows a null pointer, are excluded. The set-up calls to the data-services client are not in the log, and the order of posted requests among themselves is that of the queue.
- Agps.AgpsStateMachine.ProcessAgpsEvent: bearer, APN and the memory of subscribers are not modelled.
- Tracking.GnssTracking.StartTracking: assumes the default ULP proxy, which declines every command. The commands that ULP itself sends, which look past the session map, are not part of this model.
- Tracking.GnssTracking.StopClientSessions: the engine's answers are a function of the session being stopped, and the map is walked in any order.
- PowerVote.GnssPower.GenerateSessionId: the counter is static and unguarded in the source; calls are taken one at a time.
- The reference counts of turnOn and turnOff in the observer: the two paths name different objects, so they do not balance.
- The LocationAPI client queues, batching and geofencing: the classes they build on are not part of this model.
- HIDL and Binder services, sysfs, sockets, dynamic loading, logging, configuration files and NMEA text: input and output without a property over runs.
- Enum and flag conversions other than that of the GPS lock, and the copying of callbacks: each would be read off its own body.
- Camera, fingerprint, light, audio and the other HALs, and the build files.
