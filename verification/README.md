# A verified model of the location service

The location service hands position, heading and velocity updates from many providers to many
client sessions. This project models the parts of it whose correctness spans many objects and
long runs, and proves what they promise.

* **Reference counting** (`Counters`, `Tower`, `TowerTheorems`, `Providers`). A session drives a
  proxy, the proxy drives the session's fusion provider, and that drives every tracker known when
  the session was created. Each tracker drives the one provider it wraps. Every layer counts
  requests for each kind of update, and -1 marks a disabled layer. `Tower` is the state machine on
  values, `Providers` the objects, `TowerTheorems` what every run keeps.
* **The engine's gate** (`EngineGating`, `EngineEffects`, `LocationEngine`). Configuration changes disable and
  enable the trackers. Every public method of the engine object is proved equal to one command of
  the gate's state machine, so what holds in every run of commands holds of the objects;
  `EngineEffects` says field by field what each command does.
* **Radio cells** (`RadioRecord`, `CachedRadioCell`, `RadioCellTheorems`, `RadioCellReports`). A cell's details live in
  an untagged union, modelled as six shared words. The object is proved to behave like a plain
  record with a validity flag and a timer.
* **Connectivity caches** (`Announcements`, `RadioCaches`, `WifiAnnouncements`, `Connectivity`). Modems, cells,
  devices and wireless networks, filled by signals and by queued tasks, under a lock that is
  released and taken again within one handler. Changes and their announcements are separate steps,
  so that handlers of other threads come in between.
* **Byte order** (`Endian`, `EndianReversal`) and **network time** (`Sntp`). Recursive byte loads and
  stores, reversal by shifts and masks, 32-bit timestamps, and the clock offset of section 5 of
  RFC 4330.
* **Messages** (`Codec`, `VisibleVehicles`). Encoders and decoders over a stream of typed tokens,
  and the map of space vehicles that travels as an array.
* **Choices** (`UpdatePolicy`, `ProviderSelection`). Which position update is kept, and which
  provider a session gets.

Objects whose fields the program updates in place are classes, and each of their methods states
its whole new state as a function of the old one; lemmas then speak about those functions.

Some things hold only under a condition, and the project proves the exact one:

* Trackers agree with the providers they wrap exactly if no controller is enabled while it counts a
  request and no provider is added that counts one already (`AlignedIffNeverUpset`). The engine does
  the former only when it is turned on from navigating (`EngineAlignedIffNeverUpset`). A provider is
  left running for nobody exactly if a positive counter was overwritten
  (`StrandedIffOverwritten`), which six commands can bring about (`EngineCanStrandAProvider`).
* The update policy keeps the last best update exactly if neither branch that ignores accuracy
  passes it over (`KeepsLastBestIff`).
* An observer of wireless networks, or of radio cells, agrees with the cache at every moment wherever
  nothing is due, exactly if no announcement that is the only one due about its path says other than
  the cache (`CurrentIffNeverMisdelivered`, once for each). It ends up agreeing in whatever order the
  due announcements are made, exactly if all that is due about a path says what the cache holds
  (`EveryOrderAgreesIff`). Announcing each path in order is enough for networks (`InOrderAgrees`), and
  for cells if moreover no queued task is late (`InOrderAndNeverLate`): a late one announces a cell
  that it does not insert. The program ensures neither (`ObserverCanBeMisled`,
  `RemovalCanBeToldFirst`, `TaskCanBeLate`).
* A map of space vehicles survives being sent exactly if each entry is filed under its own key
  (`MapSurvivesIffUnderOwnKeys`).

Where code and documentation differ, the model follows the code. A timestamp does not carry
milliseconds, although its conversions are named for them (`Sntp.DecodesToWholeSeconds`), and the
fraction that is sent is not that of a second (`Sntp.FractionIsRightIffWholeSecond`). An LTE
physical id is reported by no property, so a cell that is always LTE is never complete
(`LteAloneIsNeverComplete`). The unset physical id is -1, one below its minimum, although its type
declares another invalid value.

## Model

| member | source | states |
|---|---|---|
| TowerTheorems.SessionsAlone | src/location_service/com/ubuntu/location/service/session/implementation.cpp:50-93 | conservation: after any run of providers added, sessions opened, statuses toggled and sessions closed, each tracker counts exactly the live sessions that hold it with that kind enabled, and the wrapped provider counts 1 if there is one and 0 otherwise |
| TowerTheorems.ConservedIffNeverDisturbed | src/location_service/com/ubuntu/location/provider.cpp:31-131 | over whole runs with disabling and enabling: counters equal their holders throughout if and only if no tracker is disabled and none is enabled while its counters are not all zero |
| TowerTheorems.RunBounded | src/location_service/com/ubuntu/location/fusion_provider.cpp:110-144 | in every run, with trackers disabled and enabled at any moment, each counter stays between -1 and the number of sessions with that kind enabled that hold the tracker |
| TowerTheorems.RunSound | src/location_service/com/ubuntu/location/state_tracking_provider.h:112-146 | in every run, with trackers disabled and enabled at any moment, starts and stops of each wrapped kind strictly alternate, and a kind for which a request is counted is running unless the provider was stopped more often than started before it was added |
| TowerTheorems.EveryHistoryIsSensible | src/location_service/com/ubuntu/location/provider.cpp:52-126 | whatever starts and stops a provider has seen, it meets what the run theorems ask of a provider that is added |
| TowerTheorems.AlignedIffNeverUpset | src/location_service/com/ubuntu/location/provider.cpp:31-50 | a wrapped kind runs exactly when its tracker's counter is positive, and a tracker is active only if some counter is positive, throughout a run if and only if no controller is enabled while it counts a request and no provider is added that counts one already |
| TowerTheorems.RunExcess | src/location_service/com/ubuntu/location/provider.cpp:31-131 | in every run the wrapped provider counts one request if its tracker counts some, plus one for every positive counter of the kind that enabling overwrote, unless it was stopped too often before and ignores the kind |
| TowerTheorems.StrandedIffOverwritten | src/location_service/com/ubuntu/location/provider.cpp:31-36 | once the last session is closed, a provider still runs a kind if and only if a positive counter of that kind was overwritten, or the provider counted more to begin with |
| TowerTheorems.EnableCanStrandAProvider | src/location_service/com/ubuntu/location/provider.cpp:31-36 | a run of five events after which no session is left and the wrapped provider still runs |
| TowerTheorems.ActiveIffLastHookStarts | src/location_service/com/ubuntu/location/state_tracking_provider.h:112-146 | in every run in which trackers and providers agree, a tracker is active exactly if the last hook of its provider was a start |
| TowerTheorems.IdleWhileRunning | src/location_service/com/ubuntu/location/state_tracking_provider.h:112-146 | a tracker is idle while its provider runs, because one state serves three kinds |
| TowerTheorems.DisabledShows | src/location_service/com/ubuntu/location/provider.cpp:38-50 | the hooks that disabling runs, in their order |
| TowerTheorems.CounterFollowsHolders | src/location_service/com/ubuntu/location/provider.cpp:52-126 | for every single event, the tracker's counter and the set of its holders move together, except for -1 on disabling and 0 on enabling |
| Tower.StepProjects | src/location_service/com/ubuntu/location/fusion_provider.cpp:110-144 | every event acts on every tracker as its own list of requests, however many sessions and layers lie between, and leaves proxy and fusion counters in agreement with each session's statuses |
| Tower.CloseStep | src/location_service/com/ubuntu/location/service/session/implementation.cpp:88-93 | destruction, which stops all three kinds, reaches the trackers only for the kinds that were enabled |
| Tower.StatusStep | src/location_service/com/ubuntu/location/proxy_provider.cpp:54-82 | a status change of a session passes its proxy and its fusion provider and reaches every tracker in its bag once |
| Counters.Controller.Start | src/location_service/com/ubuntu/location/provider.cpp:52-61 | the new counters, and the hook fires exactly for the first request |
| Counters.Controller.Stop | src/location_service/com/ubuntu/location/provider.cpp:63-72 | the new counters, below zero after a stop at zero, and the hook fires exactly for the last request |
| Counters.Controller.Enable | src/location_service/com/ubuntu/location/provider.cpp:31-36 | all counters are zero, whatever they were |
| Providers.StateTrackingProvider.Disable | src/location_service/com/ubuntu/location/provider.cpp:38-50 | the tracker stops what runs, in the order position, heading, velocity, and is disabled, as the state machine says |
| Providers.FusionProvider.FanOut | src/location_service/com/ubuntu/location/fusion_provider.cpp:110-144 | the loop makes the same request of every provider in the bag exactly once, in any order |
| Providers.Session.Request | src/location_service/com/ubuntu/location/service/session/implementation.cpp:95-129 | one request through proxy, fusion provider and trackers has the effect that the state machine gives it |
| EngineGating.GateHoldsThroughout | src/location_service/com/ubuntu/location/engine.cpp:53-94 | after any run of configuration changes, additions and session commands, whatever the configuration gates is disabled |
| EngineGating.GatedProviderIsSilent | src/location_service/com/ubuntu/location/engine.cpp:53-94 | a gated provider runs no hook and its counters do not move, whatever the next command is |
| EngineGating.AddedIsGated | src/location_service/com/ubuntu/location/engine.cpp:142-154 | the whole new state after adding a provider: it starts out disabled exactly if the configuration gates it, and nothing else changes |
| EngineGating.EngineAlignedIffNeverUpset | src/location_service/com/ubuntu/location/engine.cpp:74-94 | trackers and wrapped providers agree throughout a run of commands if and only if the engine is never turned on from navigating while an ungated tracker counts a request, and never given a provider that counts one already |
| EngineGating.EngineCanStrandAProvider | src/location_service/com/ubuntu/location/engine.cpp:74-94 | a run of six commands, from turned on through navigating and back, that leaves a provider running for nobody |
| EngineGating.OverwritesIffResets | src/location_service/com/ubuntu/location/engine.cpp:53-94 | which commands enable a counted controller, exactly |
| EngineEffects.SetUpdatesSpelledOut | src/location_service/com/ubuntu/location/service/session/implementation.cpp:50-82 | a status property enables exactly its kind of exactly its session, and exactly if that is news asks each tracker of the session's bag once: counter, provider's counter, activity and hook are given, and nothing else moves |
| EngineEffects.EnabledIffLastSwitchedOn | src/location_service/com/ubuntu/location/service/session/implementation.cpp:50-93 | over any run of commands, a session is live exactly if it was opened and not closed since, and has a kind enabled exactly if the last command about both, since it was opened, switched it on |
| EngineEffects.OpenSessionSpelledOut | src/location_service/com/ubuntu/location/fusion_provider_selection_policy.cpp:7-26 | a new session has nothing enabled and holds every tracker there is; nothing else changes |
| EngineEffects.CloseSessionSpelledOut | src/location_service/com/ubuntu/location/service/session/implementation.cpp:88-93 | a closed session is gone, and each tracker in its bag is asked to stop what was enabled, in the order position, heading, velocity; nothing else changes |
| EngineEffects.UnknownSessionChangesNothing | src/location_service/com/ubuntu/location/service/session/implementation.cpp:88-93 | commands about a session that is not live change nothing |
| EngineEffects.TurnOnSpelledOut | src/location_service/com/ubuntu/location/engine.cpp:80-86 | a change to turned on enables every tracker that the satellites allow, disabled or not, and leaves every other tracker, every session and every provider alone |
| EngineEffects.TurnOffSpelledOut | src/location_service/com/ubuntu/location/engine.cpp:87-89 | a change to turned off disables every tracker, and takes from each provider the one request that was counted for each kind |
| EngineEffects.SatellitesOnSpelledOut | src/location_service/com/ubuntu/location/engine.cpp:61-65 | a change to on enables exactly the trackers that need satellites if the engine is turned on, and none otherwise |
| EngineEffects.SatellitesOffSpelledOut | src/location_service/com/ubuntu/location/engine.cpp:66-68 | a change to off disables exactly the trackers that need satellites |
| EngineEffects.QuietSettings | src/location_service/com/ubuntu/location/engine.cpp:90-94 | going to navigating, and setting what is set already, leave every tracker alone |
| EngineEffects.AddProviderSpelledOut | src/location_service/com/ubuntu/location/engine.cpp:142-154 | the counters, activity and provider of an added tracker, and that nothing else changes |
| LocationEngine.Engine.constructor | src/location_service/com/ubuntu/location/engine.cpp:36-101 | the engine starts as the gate's initial state, from which the run theorems apply |
| LocationEngine.Engine.AddProvider | src/location_service/com/ubuntu/location/engine.cpp:142-154 | the object's whole new state is that of the gate's command, for any number of providers and sessions and whatever the provider has been through |
| LocationEngine.Engine.SetEngine | src/location_service/com/ubuntu/location/engine.cpp:74-94 | the same for a change of the engine's state |
| LocationEngine.Engine.SetSatellites | src/location_service/com/ubuntu/location/engine.cpp:53-72 | the same for satellite based positioning |
| LocationEngine.Engine.OpenSession | src/location_service/com/ubuntu/location/fusion_provider_selection_policy.cpp:7-26 | the same for a new session, which holds a snapshot of all trackers |
| LocationEngine.Engine.SetUpdates | src/location_service/com/ubuntu/location/service/session/implementation.cpp:50-82 | the same for a status property, whose handler runs only if the value changes |
| LocationEngine.Engine.CloseSession | src/location_service/com/ubuntu/location/service/session/implementation.cpp:88-93 | the same for the destruction of a session |
| CachedRadioCell.CachedRadioCell.OnPropertyChanged | src/location_service/com/ubuntu/location/connectivity/cached_radio_cell.cpp:222-499 | refinement: the handler on overlapping words does what the plain record does, including what throws, what is announced and when validity is recomputed; while the technology is unknown nothing is stored, and the rest is stated too |
| CachedRadioCell.CachedRadioCell.SwitchTechnology | src/location_service/com/ubuntu/location/connectivity/cached_radio_cell.cpp:256-326 | copying between overlapping views keeps country, network and area code, and resets identity and strength |
| CachedRadioCell.CachedRadioCell.Create | src/location_service/com/ubuntu/location/connectivity/cached_radio_cell.cpp:91-171 | construction succeeds exactly if the reported codes are in range, and then yields the record; unregistered cells keep uninitialised memory |
| CachedRadioCell.CachedRadioCell.ExecuteHeuristics | src/location_service/com/ubuntu/location/connectivity/cached_radio_cell.cpp:501-524 | re-arms the timer and recomputes validity for watched cells only |
| CachedRadioCell.CachedRadioCell.OnTimeout | src/location_service/com/ubuntu/location/connectivity/cached_radio_cell.cpp:515-520 | a timer that runs out invalidates the cell, and does nothing if it is not armed |
| CachedRadioCell.CachedRadioCell.IsComplete | src/location_service/com/ubuntu/location/connectivity/cached_radio_cell.cpp:637-685 | true exactly if every detail of the current technology is in range |
| CachedRadioCell.CachedRadioCell.SetMember | include/location_service/com/ubuntu/location/connectivity/bounded_integer.h:169-177 | writes one word through the current view, or throws and writes nothing |
| RadioRecord.FromPercent | include/location_service/com/ubuntu/location/connectivity/bounded_integer.h:77-86 | a percentage is capped to 0 and 31 exactly outside the range, and within it scaled and rounded down |
| RadioCellTheorems.RangesKept | src/location_service/com/ubuntu/location/connectivity/cached_radio_cell.cpp:231-488 | in every run each field is in its range or unset, through every chain of switches |
| RadioCellTheorems.PlaceSurvives | src/location_service/com/ubuntu/location/connectivity/cached_radio_cell.cpp:256-326 | in every run country, network and area code are those last reported in range, whatever switches lie between |
| RadioCellTheorems.UnknownUntilReported | src/location_service/com/ubuntu/location/connectivity/cached_radio_cell.cpp:265-316 | identity and strength that a switch reset stay unset until they are reported |
| RadioCellTheorems.ValidUmtsIsComplete | src/location_service/com/ubuntu/location/connectivity/cached_radio_cell.cpp:497-524 | on problematic firmware, after any run, a UMTS cell marked valid has all five details |
| RadioCellTheorems.ValidUmtsIsRecent | src/location_service/com/ubuntu/location/connectivity/cached_radio_cell.cpp:501-524 | and with timers that run in time, it changed its identity within the last timeout |
| RadioCellTheorems.PhysicalIdIffSwitched | src/location_service/com/ubuntu/location/connectivity/cached_radio_cell.cpp:268-274 | after any run an LTE cell has a physical id in range if and only if it was another technology before |
| RadioCellTheorems.LteAloneIsNeverComplete | src/location_service/com/ubuntu/location/connectivity/cached_radio_cell.cpp:675-685 | a cell that never leaves LTE is never complete, whatever is reported about it |
| RadioCellReports.RecordIsWhatWasHeard | src/location_service/com/ubuntu/location/connectivity/cached_radio_cell.cpp:222-499 | in every run, from the events alone: the technology is the last one named, the identity the last one reported within the range of its technology, the strength the last one scaled, both unset by a later switch, and roaming the last status |
| RadioCellReports.ReportSpelledOut | src/location_service/com/ubuntu/location/connectivity/cached_radio_cell.cpp:222-524 | what one report throws and announces, and that only news of a watched cell touches validity and timer, the cell then being valid exactly if nothing of it is unset |
| RadioCellReports.ValidIffNothingWasUnset | src/location_service/com/ubuntu/location/connectivity/cached_radio_cell.cpp:497-524 | in every run a watched cell is valid exactly if nothing of it was unset at its last news, until its timer runs out |
| RadioCellReports.PhysicalIdSpelledOut | src/location_service/com/ubuntu/location/connectivity/cached_radio_cell.cpp:268-294 | the physical id of an LTE cell is the strength it had before it became one, and no report changes it |
| RadioCaches.CellsKeepTheirModems | src/location_service/com/ubuntu/location/connectivity/ofono_nm_connectivity_manager.cpp:231-401 | in every interleaving of signals and queued tasks, in any order and with construction throwing anywhere, every cached cell has a cached modem |
| RadioCaches.SecondBailOutIsNeverTaken | src/location_service/com/ubuntu/location/connectivity/ofono_nm_connectivity_manager.cpp:262-269 | so adding a modem never finds a cell already cached for it |
| RadioCaches.ModemAddedSpelledOut | src/location_service/com/ubuntu/location/connectivity/ofono_nm_connectivity_manager.cpp:231-297 | a new modem is known, and has and announces exactly the cell that could be built, whatever other modems there are; a known one changes nothing |
| RadioCaches.ModemRemovedSpelledOut | src/location_service/com/ubuntu/location/connectivity/ofono_nm_connectivity_manager.cpp:299-325 | modem and cell are gone, exactly a known cell is announced, and every other path stays |
| RadioCaches.InterfacesReportedSpelledOut | src/location_service/com/ubuntu/location/connectivity/ofono_nm_connectivity_manager.cpp:247-260 | a report only posts its task |
| RadioCaches.TaskSpelledOut | src/location_service/com/ubuntu/location/connectivity/ofono_nm_connectivity_manager.cpp:327-401 | a task leaves the queue; a lost registration takes the cell away, a new one posts a task to build it, and that one announces what it built and inserts it unless there is one |
| RadioCaches.CurrentIffNeverMisdelivered | src/location_service/com/ubuntu/location/connectivity/ofono_nm_connectivity_manager.cpp:231-401 | with any threads between a handler's change and its announcement: at every moment of a run an observer agrees with the cached cells wherever nothing is due, if and only if no announcement that is the only one due about its path says other than the cache |
| RadioCaches.InOrderAndNeverLate | src/location_service/com/ubuntu/location/connectivity/ofono_nm_connectivity_manager.cpp:231-401 | two guards are enough for that: each announcement waits for older ones about its path, and no queued task is late, which is one that builds a cell for a modem that has another one by then |
| RadioCaches.AtomicFollowsIffNoneLate | src/location_service/com/ubuntu/location/connectivity/ofono_nm_connectivity_manager.cpp:231-401 | with each handler's change and announcement in one step, an observer holds the cached cells throughout a run if and only if no task is late |
| RadioCaches.RemovalCanBeToldFirst | src/location_service/com/ubuntu/location/connectivity/ofono_nm_connectivity_manager.cpp:321-325 | a run without a late task, after which an observer keeps a cell that is gone, because the removal was told before the insertion |
| RadioCaches.TaskCanBeLate | src/location_service/com/ubuntu/location/connectivity/ofono_nm_connectivity_manager.cpp:359-399 | a run of six events after which such a task is in the queue |
| Connectivity.HeldSpellsOut | src/location_service/com/ubuntu/location/connectivity/ofono_nm_connectivity_manager.cpp:506-626 | an accepted trace never takes the lock twice, never releases it unowned, enters the access point handler with it owned and announces with it released |
| Connectivity.Manager.OnModemAdded | src/location_service/com/ubuntu/location/connectivity/ofono_nm_connectivity_manager.cpp:231-297 | the new caches, what is locked, released and announced, in order, and that the second early return is dead code |
| Connectivity.Manager.OnModemRemoved | src/location_service/com/ubuntu/location/connectivity/ofono_nm_connectivity_manager.cpp:299-325 | modem and cell leave the caches together, and exactly a known cell is announced, after the release |
| Connectivity.Manager.OnModemInterfacesChanged | src/location_service/com/ubuntu/location/connectivity/ofono_nm_connectivity_manager.cpp:327-401 | a lost registration removes and announces the cell, a new one posts a task, a report about an unknown modem does nothing |
| Connectivity.Manager.RunTask | src/location_service/com/ubuntu/location/connectivity/ofono_nm_connectivity_manager.cpp:327-401 | a queued task, run in any order, changes the caches and announces as the state machine says |
| Connectivity.Manager.OnCreateCell | src/location_service/com/ubuntu/location/connectivity/ofono_nm_connectivity_manager.cpp:361-399 | a cell built for a known modem is announced in any case, and is the cached one afterwards if and only if the modem had no other |
| Connectivity.Manager.OnDeviceAdded | src/location_service/com/ubuntu/location/connectivity/ofono_nm_connectivity_manager.cpp:506-576 | networks, lock and record after any number of access points, any mix of early returns and exceptions, and any acts of other threads in between; which device stays known when a later question about it throws |
| Connectivity.DeviceAddedIsARun | src/location_service/com/ubuntu/location/connectivity/ofono_nm_connectivity_manager.cpp:528-543 | the handler keeps the lock discipline, and what it and the other threads did is a run of the state machine of announcements, so its theorems apply |
| Connectivity.UndisturbedDevice | src/location_service/com/ubuntu/location/connectivity/ofono_nm_connectivity_manager.cpp:528-543 | with no other threads, the cache gathers exactly the networks that could be built |
| Connectivity.DeviceSpelledOut | src/location_service/com/ubuntu/location/connectivity/ofono_nm_connectivity_manager.cpp:506-576 | which device becomes known, and when its access points are met, for each answer to the questions about it |
| Connectivity.RemovalSpelledOut | src/location_service/com/ubuntu/location/connectivity/ofono_nm_connectivity_manager.cpp:609-626 | with other threads, removing an access point is a run of acts that begins with the removal and ends with its announcement, the record gains the release and the announcement, and the discipline is kept; an unknown path changes nothing |
| Connectivity.AdditionSpelledOut | src/location_service/com/ubuntu/location/connectivity/ofono_nm_connectivity_manager.cpp:585-607 | the same for an addition, which needs a known wifi device and a network that could be built; otherwise nothing happens and the lock is kept |
| Connectivity.UndisturbedRemoval | src/location_service/com/ubuntu/location/connectivity/ofono_nm_connectivity_manager.cpp:609-626 | with no other threads exactly that network is gone, and an observer who agreed no longer holds it |
| Connectivity.UndisturbedAddition | src/location_service/com/ubuntu/location/connectivity/ofono_nm_connectivity_manager.cpp:585-607 | with no other threads exactly that network is there, and an observer who agreed holds it |
| Connectivity.VisitIsARun | src/location_service/com/ubuntu/location/connectivity/ofono_nm_connectivity_manager.cpp:529-543 | the acts of meeting one access point, those of other threads included |
| Connectivity.Manager.DeviceAddedSignal | src/location_service/com/ubuntu/location/connectivity/ofono_nm_connectivity_manager.cpp:420-429 | the signal takes the lock, handles the device and leaves the lock released, whether or not that throws; undisturbed, an observer that agrees keeps agreeing |
| Connectivity.Manager.AccessPointAddedSignal | src/location_service/com/ubuntu/location/connectivity/ofono_nm_connectivity_manager.cpp:550-561 | the signal takes the lock, adds and announces the network if its device is a known wifi device and it could be built, catches what building throws, and leaves the lock released |
| Connectivity.Manager.AccessPointRemovedSignal | src/location_service/com/ubuntu/location/connectivity/ofono_nm_connectivity_manager.cpp:563-574 | the signal takes the lock, removes and announces exactly a known network, and leaves the lock released |
| Connectivity.Manager.OnAccessPointAdded | src/location_service/com/ubuntu/location/connectivity/ofono_nm_connectivity_manager.cpp:585-607 | networks, lock and record in each of its three outcomes, with any acts of other threads between the release and the announcement |
| Connectivity.Manager.OnAccessPointRemoved | src/location_service/com/ubuntu/location/connectivity/ofono_nm_connectivity_manager.cpp:609-626 | removes and announces exactly a known network, with any acts of other threads before the announcement |
| Connectivity.Manager.EnumerateVisibleWirelessNetworks | src/location_service/com/ubuntu/location/connectivity/ofono_nm_connectivity_manager.cpp:98-103 | reports exactly the cached networks, which are those an agreeing observer holds |
| Connectivity.AtomicHandlersMirror | src/location_service/com/ubuntu/location/connectivity/ofono_nm_connectivity_manager.cpp:506-626 | with handlers atomic, an observer agrees after any run of them |
| WifiAnnouncements.AfterAllKept | src/location_service/com/ubuntu/location/connectivity/ofono_nm_connectivity_manager.cpp:585-626 | in every interleaving, each change of the networks is announced once or still due, and the cache is what the changes made of it |
| WifiAnnouncements.ActSpelledOut | src/location_service/com/ubuntu/location/connectivity/ofono_nm_connectivity_manager.cpp:506-626 | what each atomic part of a handler does: an access point is cached exactly if its device is a known wifi device and its network could be built, and taken away exactly if it was cached |
| Announcements.ReplayIsLastTold | src/location_service/com/ubuntu/location/connectivity/ofono_nm_connectivity_manager.cpp:585-626 | what an observer holds of a path is what was told of it last |
| WifiAnnouncements.CurrentIffNeverMisdelivered | src/location_service/com/ubuntu/location/connectivity/ofono_nm_connectivity_manager.cpp:604-626 | at every moment of a run an observer agrees with the cached networks wherever nothing is due, if and only if no announcement that is the only one due about its path says other than the cache when it is made |
| WifiAnnouncements.QuietObserverAgreesIff | src/location_service/com/ubuntu/location/connectivity/ofono_nm_connectivity_manager.cpp:604-626 | after any run, once nothing is due, an observer holds the cached networks if and only if, for each path, the last announcement told says what the last change said |
| WifiAnnouncements.InOrderAgrees | src/location_service/com/ubuntu/location/connectivity/ofono_nm_connectivity_manager.cpp:604-626 | if each announcement waits for older ones about its path, an observer agrees, at any moment of any run, on every path about which nothing is due |
| Announcements.EveryOrderAgreesIff | src/location_service/com/ubuntu/location/connectivity/ofono_nm_connectivity_manager.cpp:604-626 | from any state, for networks and for cells: an observer ends up with what the cache holds in whatever order the due announcements are made, if and only if all that is due about a path says what the cache holds, and the observer agrees where nothing is due |
| WifiAnnouncements.ObserverCanBeMisled | src/location_service/com/ubuntu/location/connectivity/ofono_nm_connectivity_manager.cpp:604-607 | a run that ends with nothing due and an observer that holds a network that is gone: one thread is held up before its announcement, another removes the device, adds it again and announces first |
| Endian.LoadAfterStore | 3rd-party/boost/endian/buffers.hpp:218-319 | for every width and value, both orders give back the low bytes, sign-extended for signed types, and the two images are reverses of each other |
| Endian.LowIsCongruent | 3rd-party/boost/endian/buffers.hpp:218-319 | those low bytes differ from the value by a multiple of what the width can count |
| Endian.StoreAfterLoad | 3rd-party/boost/endian/buffers.hpp:218-319 | for every byte sequence, loading and storing gives it back, in either order |
| Endian.SurvivesIffFits | 3rd-party/boost/endian/buffers.hpp:218-319 | a value survives a width if and only if the width can hold it |
| Endian.StoreBigAtPlace | 3rd-party/boost/endian/buffers.hpp:229-233 | big-endian: the first byte counts most |
| Endian.StoreLittleAtPlace | 3rd-party/boost/endian/buffers.hpp:234-238 | little-endian: the first byte counts least |
| Endian.StoreBigAt | 3rd-party/boost/endian/buffers.hpp:229-233 | writes exactly the bytes of the big-endian image, ending at the given place |
| Endian.StoreLittleAt | 3rd-party/boost/endian/buffers.hpp:234-238 | writes exactly the bytes of the little-endian image, from the given place |
| Endian.BigBuffer.Assign | 3rd-party/boost/endian/buffers.hpp:358-366 | an unaligned buffer holds the big-endian image and reads back the low bytes of any wider value |
| EndianReversal.ReversalReversesBytes | 3rd-party/boost/endian/conversion.hpp:164-172 | for 8, 16, 32 and 64 bits, signed or not, reversal by shifts and masks equals reversing the bytes in memory |
| EndianReversal.ReversalIsItsOwnInverse | 3rd-party/boost/endian/conversion.hpp:197-281 | reversing twice gives back the value, and every result fits its type |
| EndianReversal.NativeImageOfReversal | 3rd-party/boost/endian/conversion.hpp:292-299 | the memory of a converted word is the big-endian image of the word |
| EndianReversal.WordReversed | 3rd-party/boost/endian/conversion.hpp:244-281 | the 16, 32 and 64 bit shift-and-mask expressions, with their masks, reverse any two, four or eight bytes |
| EndianReversal.AlignedBigBuffer.Assign | 3rd-party/boost/endian/buffers.hpp:418-461 | an aligned buffer holds the same bytes as an unaligned one and reads back every value of its type |
| Sntp.DecodesToWholeSeconds | src/location_service/com/ubuntu/location/providers/gps/sntp_client.h:123-129 | every 32-bit timestamp decodes to a whole second, because the wrapped product is even and its divisor is not |
| Sntp.EncodedThenDecoded | src/location_service/com/ubuntu/location/providers/gps/sntp_client.h:107-129 | for every time, the round trip drops the milliseconds and shifts the seconds into the era from 1900, and only that |
| Sntp.SentForATime | src/location_service/com/ubuntu/location/providers/gps/sntp_client.h:109-121 | the seconds since 1900, and for a fraction the milliseconds counted down from 2 to the power of 32 |
| Sntp.FractionIsRightIffWholeSecond | src/location_service/com/ubuntu/location/providers/gps/sntp_client.h:120 | that is the fraction that section 3 of RFC 4330 asks for if and only if there are no milliseconds |
| Sntp.ErrorOfTheRoundTrip | src/location_service/com/ubuntu/location/providers/gps/sntp_client.h:107-129 | from 1970 to the limit in 2036 the error lies in 0 to 999 ms |
| Sntp.SurvivesIffWholeSecond | src/location_service/com/ubuntu/location/providers/gps/sntp_client.h:107-129 | a time survives if and only if it is a whole second of the era |
| Sntp.Timestamp.FromMillisecondsSinceEpoch | src/location_service/com/ubuntu/location/providers/gps/sntp_client.h:109-121 | the eight bytes that are sent are the big-endian images of the wrapped seconds and fraction |
| Sntp.Timestamp.ToMillisecondsSinceEpoch | src/location_service/com/ubuntu/location/providers/gps/sntp_client.h:125-129 | decoding any eight bytes gives a whole second, that of the stamp they hold |
| Sntp.ErrorOfTheAnswer | src/location_service/com/ubuntu/location/providers/gps/sntp_client.cpp:166-179 | for any server offset, delays and stamp errors, the answer lies within half the delay, the stamp error and a millisecond of the server's clock, and the reported round trip is the delay up to these errors, so that it bounds the error too (section 5 of RFC 4330) |
| Sntp.ErrorWithTheProgramsStamps | src/location_service/com/ubuntu/location/providers/gps/sntp_client.cpp:166-187 | with the program's own stamps that stamp error is one second, whatever fraction the server sends |
| Sntp.AnswerCanLagByMilliseconds | src/location_service/com/ubuntu/location/providers/gps/sntp_client.cpp:166-179 | a transaction without delay and with exact stamps whose answer lags by 999 ms |
| Codec.PositionParses | include/location_service/com/ubuntu/location/codec.h:163-193 | a stream decodes to a position with a rest if and only if it is that position's encoding followed by the rest |
| Codec.CriteriaParses | include/location_service/com/ubuntu/location/codec.h:355-389 | the same for criteria |
| Codec.UpdateParses | include/location_service/com/ubuntu/location/codec.h:462-475 | the same for position updates |
| Codec.OptionalParses | include/location_service/com/ubuntu/location/codec.h:112-138 | the same for optional measures |
| Codec.VehicleParses | include/location_service/com/ubuntu/location/codec.h:256-306 | a structure decodes to a vehicle if and only if it begins with that vehicle's fields, and every encoded vehicle decodes to itself, keys through unsigned integers included |
| Codec.VehicleHasItsSignature | include/location_service/com/ubuntu/location/codec.h:239-251 | the fields of a vehicle have the types of the declared signature |
| Codec.Images | include/location_service/com/ubuntu/location/codec.h:163-193 | concrete images of positions, updates, criteria and vehicles, with every field told apart |
| Codec.VehiclesStopAtMalformed | include/location_service/com/ubuntu/location/codec.h:342-350 | the decoded vehicles are those of the elements before the first malformed one |
| Codec.MapSurvivesIffUnderOwnKeys | include/location_service/com/ubuntu/location/codec.h:327-350 | a map sent as an array comes back if and only if each entry is filed under its own key |
| Codec.MapJoinsTarget | include/location_service/com/ubuntu/location/codec.h:342-350 | decoded into a map that holds something, it is added to it, and entries already there stay |
| Codec.FiledAt | include/location_service/com/ubuntu/location/codec.h:342-350 | insertion keeps the first vehicle of each key and loses no key |
| Codec.Writer.EncodeVehicles | include/location_service/com/ubuntu/location/codec.h:329-340 | pushes one array with one structure for each value, in key order |
| Codec.Reader.DecodeVehicles | include/location_service/com/ubuntu/location/codec.h:342-350 | files the vehicles up to the first malformed element, and says whether there was one |
| Codec.Reader.DecodePosition | include/location_service/com/ubuntu/location/codec.h:183-193 | succeeds exactly on encodings and leaves what follows |
| Codec.Reader.DecodeCriteria | include/location_service/com/ubuntu/location/codec.h:376-388 | the same for criteria |
| Codec.Reader.DecodeUpdate | include/location_service/com/ubuntu/location/codec.h:470-474 | the same for position updates |
| VisibleVehicles.MergedMapSurvives | src/location_service/com/ubuntu/location/engine.cpp:188-199 | after any run of merges the engine's map of visible vehicles survives being sent |
| VisibleVehicles.MergedAt | src/location_service/com/ubuntu/location/engine.cpp:192-195 | merging keeps the last vehicle of each key |
| VisibleVehicles.Visible.Update | src/location_service/com/ubuntu/location/engine.cpp:188-199 | the loop merges every vehicle and keeps all entries under their own keys |
| UpdatePolicy.KeepsLastBestIff | src/location_service/com/ubuntu/location/time_based_update_policy.cpp:40-70 | in any run, whatever its times, the kept update is the last one of the least accuracy value present (or the last of all if none has one) if and only if that one is not refused for its age when it arrives, and none after it is newer by more than the limit |
| UpdatePolicy.KeepsTheOneBestIff | src/location_service/com/ubuntu/location/time_based_update_policy.cpp:40-70 | every run has exactly one such update, and keeps it exactly on that condition |
| UpdatePolicy.KeepsLastBest | src/location_service/com/ubuntu/location/time_based_update_policy.cpp:40-70 | so it is kept if all times lie within the limit |
| UpdatePolicy.LaterOnesAreInferior | src/location_service/com/ubuntu/location/update_policy.h:56-66 | in any run, whatever the times, every update after the kept one is inferior to it, so that the kept update is not more than the limit older than the one just processed |
| UpdatePolicy.BestCanBeLost | src/location_service/com/ubuntu/location/time_based_update_policy.cpp:44-51 | two runs that lose the best update, one for each branch that ignores accuracy |
| UpdatePolicy.TimeBased.VerifyUpdate | src/location_service/com/ubuntu/location/time_based_update_policy.cpp:40-70 | the field always holds what the fold over all updates so far keeps |
| ProviderSelection.ChosenIff | src/location_service/com/ubuntu/location/default_provider_selection_policy.cpp:65-137 | the choice is the first matching provider that runs, else the first that matches, and the null provider exactly if none matches |
| ProviderSelection.Determine | src/location_service/com/ubuntu/location/default_provider_selection_policy.cpp:65-89 | the loop over the comparator-ordered set makes that choice for any enumeration |
| ProviderSelection.HeldAfter | src/location_service/com/ubuntu/location/default_provider_selection_policy.cpp:77-86 | after any enumeration the set is in order and holds no more than two providers, and what the next provider makes of it |
| ProviderSelection.Insert | src/location_service/com/ubuntu/location/default_provider_selection_policy.cpp:70-86 | insertion by the coarse comparator keeps the order and drops every equivalent provider |
| ProviderSelection.DetermineSelection | src/location_service/com/ubuntu/location/default_provider_selection_policy.cpp:50-63 | one independent choice for each kind |

## Left out

- The handler of tracker state changes (src/location_service/com/ubuntu/location/engine.cpp:208-217): it re-enters the configuration handlers in ways that depend on the signal library, so runs here change the engine's state only by command.
- `core::Property` and `core::Signal`: a property stores its value and then runs its handlers if the value changed; handlers run one at a time.
- Threads: what a handler does under the lock is atomic, as is each announcement; races inside a controller are not modelled.
- Connectivity.Manager.RunTask: in the manager object no other thread comes into the handlers of modems and cells; `RadioCaches` interleaves them.
- The counters' 32-bit width: counters are unbounded, since `RunBounded` keeps them below the number of sessions.
- Proxies over three different providers: the default policy puts one fusion provider in all three places, and `Providers.ProxyProvider` holds that one.
- Delivery of updates through the tower (proxy, fusion and tracker signal handlers, update selectors): only requests are modelled.
- The engine's destructor, settings and wifi reporting state; the D-Bus skeleton of a session, whose heading start sets the position status.
- LocationEngine.Engine.AddProvider: a provider is given to one engine once, which the program does not check; two trackers that share a provider are not modelled.
- Parsing of the MCC and MNC strings and the queries of a modem: their results are parameters.
- RadioRecord.FromPercent: integer arithmetic stands for the program's floats.
- CachedRadioCell.CachedRadioCell.OnPropertyChanged: the words of a cell whose technology was never known are uninitialised, and are whatever they were.
- Timers: the race between a cancelled timer and its handler.
- RadioCaches.CurrentIffNeverMisdelivered: announcements made when a cell's validity changes are not part of what observers hear.
- D-Bus, sockets, the resolver and network manager proxies: what they report are parameters, and what they throw is an outcome.
- Connectivity.Manager.OnDeviceAdded: a device that is asked for its kind again gives the same answer, or none.
- The scan and property handlers of the network manager, connection characteristics, and cached wireless networks themselves.
- Intrinsics and the x86 shortcut for whole words in the endian buffers; loads and stores compute on unbounded integers, since no width exceeds the type's.
- Timestamps of 16 bits, which a packet holds but nothing converts; the setters of the packet's first byte.
- Codec.VehicleParses: the signal-to-noise ratio is a real, so narrowing to a float is not modelled.
- Codecs for plain enumerations, headings, velocities and their updates: single tokens.
- UpdatePolicy.LaterOnesAreInferior: times are unbounded, while the program subtracts 64-bit time points, so all of this module holds where their differences fit.
- UpdatePolicy.TimeBased.VerifyUpdate: only for positions; for headings and velocities the program reads an uninitialised variable in the middle case.
- ProviderSelection.Determine: providers do not start or stop while they are enumerated.
- `Criteria::satisfies`, trigonometry, units, command line, settings, enum printers, and the Android, geoclue, skyhook, gps and dummy providers.
