# Message port: the broker and its clients, verified

Message port lets applications register named ports and send each other small key/value
messages through a daemon. This project models the daemon, the client library and the
races between them, and proves what every run of them keeps.

- **The registry** (`RegistryModel`, `GLists`, `RegistryTables`, `ServiceIds`). The daemon
  files each port twice: by id, in a table that owns it, and in a list for its owner, edited
  in place as a doubly linked `GList` on the heap. Ids come from a static 32-bit counter that
  outlives the registry.
- **The daemon** (`Certificates`, `BrokerModel`, `BrokerSafety`, `StaleIds`, `TrustGate`,
  `Routing`, `GateHistory`, `Witnesses`, `DaemonServer`). Connections open and close, ports
  are registered, messages are looked up and sent in two separate requests, and trusted ports
  are guarded by a memoized comparison of certificates. `BrokerModel` is the transition
  system, with arbitrary interleaving of all clients; `DaemonServer` is the imperative form:
  each of its methods is proved equal to an operation of that system, and serving any events
  takes its steps.
- **The client library** (`ClientModel`, `ClientManagers`, `SystemModel`, `Conversations`,
  `Delivery`, `FactoryModel`, `Bundles`, `Paths`). Every connection has a mirror of its own
  ports, made of two tables, one of which borrows the key strings the other owns; each thread
  has its own manager; payloads travel as variant maps.

How to read the models:

- A service is an immutable value. `serial` stands for the identity of the object: the daemon
  never looks at it, and "the very same service" means the same serial.
- A connection is an opaque number, which also stands for the owner pointer. It may be used
  again after the connection closed, as an address may be.
- What the outside world decides is an input of a step: the app id of a connection and whether
  it is a known application, whether a D-Bus export succeeds, whether a comparison of
  certificates fails, the order in which a hash table is searched, what the daemon replied to
  a library, whether its process knows the daemon's error names, whether a proxy could be
  made.
- Memory is accounted for where the code frees by hand. List links are live or freed; the
  owner table frees the list of an entry it replaces or removes, and not that of one it
  gives up by stealing. Path strings have addresses: inserting under a key that is there
  frees the string passed, removing frees the table's own.
- A run is a sequence of events of any clients. `Inv` is what every daemon state satisfies;
  `ClashFreeRun` says that no new id is that of a live service, `FreshRun` that none was ever
  issued before, which only the use of looked-up ids needs. `FaultFreeRunIsFresh` gives `FreshRun`
  for every run in which no export failed and fewer than 2^32 services were made.

Where the code and its intent part ways, the model follows the code:

- **A failed export** takes one off the id counter before anything was added
  (`daemon/dbus-service.c:186`, `:198`), so the next id can be that of a live service, or 0.
  `StepKeepsIff`, `LibrariesAgreeIff` and `StepMisroutesIff` say exactly which registrations
  break the indexes, which part a library from the daemon, and which make an old id lead to a
  new port; `OneFailedExportMisroutes` gives, for every state reached without a failure, the
  two steps that do it, on any connection but the one that owns the newest service while that
  is live. After a clash of live ids the C code reads a destroyed service: from there on what
  is proved of a run is proved of the model only.
- **Id 0** ends a plain send after the look-up with NONE and without a message
  (`lib/msgport-manager.c:366`). `PlainSendDelivers` carries this one exception, and
  `MessageToIdZeroIsLost` is the run that loses a message.
- **Ids from 2^31 on** are negative as `int`, and a bidirectional send refuses them
  (`lib/msgport-manager.c:389`): `UsableLocalIds`, with the run `NegativeIdCannotSend`. The
  daemon's unregister operation takes a `gint` too and never finds such an id where pointers
  have 64 bits, as the model takes them to have: `BulkIsRepeatedSingleIff`.
- **A path that is cached already** would leave `local_services` with a freed string
  (`lib/msgport-manager.c:182-183`): `CacheKeepsInverseIff`. `SysStepCoherent` shows that the
  library never caches one.
- **Several connections of one application** (one per thread) make the look-up by app id
  depend on the order of a hash table. `CheckSucceedsIff` says exactly when it still succeeds,
  and `LookUpDependsOnOrder` is a run in which it may not.
- **The unregister request** is never answered and changes nothing in the daemon
  (`daemon/dbus-service.c:119`). The daemon's own operation exists and is a step of
  `BrokerModel`; `SystemModel` leaves it out, as nothing calls it, and gives the library no
  reply to its request.
- **The error names** of the daemon are registered with GDBus by `msgport_error_quark`
  (`common/dbus-error.c:43-57`), which only the daemon calls. In an application's process
  GDBus therefore turns each of these errors into a generic one, and the library reads that
  as an I/O error (`lib/msgport-utils.c:99`). Whether the names are known is an input,
  `namesKnown`, of every result about errors; the code as it stands has it false.
  `NamesMatterIff` says when it matters, `MissingPortReadsAsIoError` shows a case, and
  `PlainSendOutcome`, `BidirectionalSendOutcome` and `RegisterOutcome` hold for both values.
- **Clearing the factory** destroys the table's managers, to which it holds the only
  references, and leaves a thread between the unlocked test and its look-up without a table
  (`lib/msgport-factory.c:50-53`): `UninitIsSafeIff`.
- The test at `lib/msgport-manager.c:397` stores a boolean as the error; only the NOT_FOUND
  returned there matters, and that is what `BidirectionalResult` has.

## Model

| member | source | states |
|---|---|---|
| Paths.PathInjective | daemon/dbus-service.c:175-181 | two services have the same object path exactly if they have the same id |
| Paths.PathOfIff | daemon/dbus-service.c:175-176 | the path of a service is the one text made of a slash and the decimal form of its id, without leading zeros |
| ServiceIds.NewServiceLawful | daemon/dbus-service.c:152-201 | after any history of successes and failures the counter is services made minus exports failed, modulo 2^32, and without failures the k-th id is k; an empty name and a failed export are told apart, and only the latter counts as a failure |
| ServiceIds.FaultFreeIdsAreFresh | daemon/dbus-service.c:155-198 | before the first failure and the 2^32-th service the next id was never issued; it is 0 exactly for the last of them |
| ServiceIds.FailedExportReissues | daemon/dbus-service.c:171-198 | the first failed export makes the next service repeat the newest id, or take 0 if there is none |
| ServiceIds.IdCounter.New | daemon/dbus-service.c:152-201 | the constructor on the static counter does what the allocator says, in the success, empty-name and export-failure cases |
| RegistryModel.WalkIsLookup | daemon/manager.c:119-146 | on a list without repeated ports the walk finds a service exactly if it is the one with that name and trust, and NULL exactly if there is none |
| RegistryModel.InsertAgreesIff | daemon/manager.c:169-187 | filing a new port keeps both indexes in agreement if and only if its id is not that of a live service; other owners' lists do not change |
| RegistryModel.RemoveFirstMembers | daemon/manager.c:275-281 | removing a service from its owner's list removes that service and no other |
| RegistryModel.UnregisterOneAgrees | daemon/manager.c:252-287 | unregistering an `int` id removes exactly that service from both indexes, fails exactly if no service has that number as its id, negative ones included, and keeps them in agreement |
| RegistryModel.UnregisterAllAgrees | daemon/manager.c:292-315 | the sweep removes exactly the owner's services from both indexes and keeps them in agreement |
| RegistryModel.BulkIsRepeatedSingleIff | daemon/manager.c:252-315 | unregistering an owner's `int` ids one at a time gives, in every order, the registry the sweep gives, if and only if all its ids are below 2^31; an absent key counts as an empty list |
| GLists.Append | daemon/manager.c:184-184 | appending to an acyclic list links one new last node; a list that was not empty keeps its head |
| GLists.Unlink | daemon/manager.c:276-276 | joining the neighbours of a link leaves the acyclic list of the other links; the head changes exactly if the first link goes |
| GLists.Remove | daemon/manager.c:276-276 | exactly the first link with the data is freed and the rest is the true list of the remaining ones |
| GLists.Free | daemon/manager.c:82-84 | every link reached from the head is given back once, none of which had been freed before |
| RegistryTables.RegistryTable.GetServiceInternal | daemon/manager.c:119-146 | the heap walk returns what the walk over the abstract list returns |
| RegistryTables.RegistryTable.RegisterService | daemon/manager.c:148-190 | registering on the tables and heap lists is the abstract registration; heads stay true, lists disjoint, and no link is freed |
| RegistryTables.RegistryTable.TableInsert | daemon/manager.c:82-84 | inserting frees every link that the replaced value leads to at that moment |
| RegistryTables.RegistryTable.TableSteal | daemon/manager.c:278-278 | stealing removes the entry and frees nothing |
| RegistryTables.RegistryTable.TableRemove | daemon/manager.c:312-312 | removing frees every link of the stored list |
| RegistryTables.RegistryTable.StoreAppended | daemon/manager.c:180-187 | storing the head only if the list was empty replaces NULL and frees no link; every stored value is the true head of its own list |
| RegistryTables.RegistryTable.StoreRemoved | daemon/manager.c:276-281 | stealing the old entry, which leads to a freed link, before inserting the changed head frees nothing twice and no live link |
| RegistryTables.RegistryTable.AppendToOwner | daemon/manager.c:180-187 | the owner's list grows by the service at its end, all other lists are untouched |
| RegistryTables.RegistryTable.RemoveFromOwner | daemon/manager.c:273-281 | steal-and-insert removes the service's link, frees that link only, and leaves no freed link in any list |
| RegistryTables.RegistryTable.UnregisterService | daemon/manager.c:252-287 | unregistering on the tables is the abstract operation; each link is either live or freed, never both |
| RegistryTables.RegistryTable.Sweep | daemon/manager.c:232-247 | walking the list removes exactly its services' ids from the id table |
| RegistryTables.RegistryTable.UnregisterServices | daemon/manager.c:292-315 | the sweep on the tables is the abstract one, and removing the key frees exactly the links of the owner's list |
| Certificates.ValidateDecides | daemon/dbus-manager.c:315-353 | the memoized check equals the direct decision, except that a failing comparison whose answer is not known refuses and changes nothing |
| Certificates.AnswersAreDirect | daemon/dbus-manager.c:315-353 | after any sequence of earlier queries each answer is "owner has no certificate, or both match", unless its comparison fails and no earlier query settles it |
| Certificates.MemoContents | daemon/dbus-manager.c:322-350 | what the cache and the sticky flag hold after any queries: an entry or the flag exactly if an earlier query settles the answer |
| Certificates.DbusManager.ValidatePeerCertificate | daemon/dbus-manager.c:315-353 | the method on the cache and the flag does what the abstract check does |
| BrokerSafety.ConnectKeeps | daemon/dbus-manager.c:257-289 | opening a connection touches no service and no owner's list, and one whose manager cannot be exported changes no table, no id and no reference count |
| BrokerSafety.CloseKeeps | daemon/dbus-manager.c:63-88 | closing removes the connection's services and no other from both indexes; with the last connection the registry goes and has nothing left to destroy |
| BrokerSafety.RegisterKeepsIff | daemon/dbus-manager.c:91-121 | a registration adds exactly the new service, and breaks the invariant if and only if its id is that of a live service |
| BrokerSafety.DeliverKeeps | daemon/dbus-service.c:260-281 | sending changes no index, no id and no connection's identity |
| BrokerSafety.StepKeepsIff | daemon/manager.c:148-315 | every event keeps index agreement, owners among open connections, and one registry reference per connection, if and only if it creates no clashing id |
| BrokerSafety.ConnectedStep | daemon/dbus-manager.c:257-289 | a connection is there afterwards exactly if its manager could be exported, with its app id, an empty memo, and the mark "no certificate" exactly if its application is not known |
| BrokerSafety.ClosedStep | daemon/dbus-server.c:183-196 | a close removes that connection, all of its live services and no other |
| BrokerSafety.RegisteredStep | daemon/manager.c:148-190 | a registration that makes a service makes it live at the end of its owner's list; any other changes no service; exactly a failed export is counted |
| BrokerSafety.StepIsolates | daemon/manager.c:148-315 | no event of any client changes the identity, the memo or the ports of a connection that it does not concern |
| BrokerSafety.RunKeepsIff | daemon/manager.c:100-315 | every state of a run satisfies the invariant if and only if no new id of the run clashes with a live one |
| BrokerSafety.StepLifetime | daemon/dbus-server.c:183-196 | a service is live after an event exactly if it was before and the event is neither its owner's close nor its unregistration |
| BrokerSafety.RunLifetime | daemon/dbus-server.c:183-196 | over a run a service stays live exactly as long as neither happens, and its owner keeps its app id |
| StaleIds.StepMisroutesIff | daemon/dbus-service.c:155-198 | all ids ever handed out stay safe to use if and only if an event does not create a service under an id issued before |
| StaleIds.RunMisroutesIff | daemon/dbus-service.c:155-198 | in every state of a run every old id leads to its own service or to none, registry death and rebirth included, if and only if no id is issued twice |
| StaleIds.FaultFreeRunIsFresh | daemon/dbus-service.c:155-198 | no failed export and fewer than 2^32 services make every id of the run new and non-zero |
| StaleIds.FaultFreeDaemonIsSafe | daemon/manager.c:100-315 | from its start such a daemon keeps all invariants in every state, and id 0 is never in use |
| StaleIds.OneFailedExportMisroutes | daemon/dbus-service.c:177-198 | in every failure-free state one failed export and one registration, by any connection but a live newest service's own, hand the newest id to another port; the indexes then disagree exactly if its first holder is still live |
| TrustGate.StepTrusty | daemon/dbus-service.c:271-275 | no event lets a signal through to a trusted port unless its owner has no certificate or it matches the sender's |
| TrustGate.RunTrusty | daemon/dbus-manager.c:315-353 | the same for every signal ever emitted by either sending route, in every run of the model, whose steps are those of the code until two live services share an id |
| TrustGate.RunSendersNamed | daemon/dbus-service.c:93-97 | in every run a signal names a port exactly if it was sent from a port, and then that port and its trust flag |
| Routing.StepLogIff | daemon/dbus-service.c:260-281 | an event emits exactly one signal, which is fully described, if it is a send whose port, target and gate are in order, and none otherwise |
| GateHistory.RunMemo | daemon/dbus-manager.c:315-353 | in every run the memo of an open connection is what the messages sent to its trusted ports since it was opened left of it |
| GateHistory.MemoSettlesIff | daemon/dbus-manager.c:322-350 | in every run a memo settles an answer if and only if the owner's application is not known or an earlier message whose comparison did not fail settled it |
| GateHistory.TrustedSendArrivesIff | daemon/dbus-service.c:271-280 | after every run a message to a live trusted port arrives if and only if its owner admits the sender and the comparison works or has been settled before |
| Routing.CheckIsSound | daemon/dbus-manager.c:141-152 | an id from the look-up names a live port of an open connection with the requested app id, name and trust |
| Routing.WalkFindsLive | daemon/manager.c:119-146 | within a connection the walk finds exactly its live ports, and never an empty name |
| Routing.CheckSucceedsIff | daemon/dbus-server.c:311-327 | the look-up succeeds in whatever order the table is searched if and only if the application is connected and each of its connections has the port |
| Routing.CheckIsCompleteIfAppsDistinct | daemon/dbus-manager.c:141-156 | with one connection per application the look-up succeeds exactly if the port exists |
| Routing.StaleIdSafety | lib/msgport-manager.c:365-377 | a looked-up id used any steps later leads to the very service found exactly if nothing ended it, and to nothing otherwise |
| Routing.PlainSendDelivers | lib/msgport-manager.c:354-378 | the caller sees NONE exactly if one signal was emitted, to the requested port and application with the data and the sender's app id; an error means no signal; the only exception is a port with id 0 |
| Routing.PlainSendOutcome | lib/msgport-manager.c:354-378 | which error a plain send returns, whether or not comparisons fail and error names are known: not found, invalid parameter, I/O error if the port ended in between, certificate mismatch exactly if the owner does not let the sender through; I/O error for each of them where the names are not known |
| Routing.NamesMatterIff | common/dbus-error.c:43-57 | a plain send returns the same whether or not its process has registered the error names, if and only if the port is found and has id 0, has ended in between, or lets the sender through |
| Witnesses.MissingPortReadsAsIoError | common/dbus-error.c:43-57 | a plain send to a port that does not exist returns not found where the error names are registered, and I/O error where they are not |
| Routing.PortIsNullIffOneWay | lib/msgport-service.c:82-90 | in every run, whatever client service receives it, a signal gives the callback a NULL port exactly if it is a one-way message |
| Witnesses.MessageToIdZeroIsLost | lib/msgport-manager.c:365-366 | after one failed export the first port has id 0; a plain send to it reports NONE and sends nothing |
| Witnesses.NegativeIdCannotSend | lib/msgport-manager.c:389-389 | after two failed exports the first port has id 2^32-1, which its library knows as -1 and can never send from |
| Witnesses.LookUpDependsOnOrder | daemon/dbus-server.c:311-327 | with two connections of one application, one of which has the port, the look-up finds it or fails, as the table is searched |
| Routing.ReplyReachesSender | lib/msgport-service.c:71-91 | whoever receives a bidirectional message is given the sender's app id, NULL if empty, and its port; looking these up finds the sending port itself, as long as it lives and app ids of open connections are distinct |
| ClientModel.CacheKeepsInverseIff | lib/msgport-manager.c:180-187 | caching a port keeps the tables inverse, and every borrowed string alive and owned, if and only if neither its path nor its id is in a table yet |
| ClientModel.CacheKeepsTablesIff | lib/msgport-manager.c:180-187 | if every port is filed under the path of its id, that the path is new suffices, since distinct ids have distinct paths; both this filing and the inverse tables then last exactly so |
| ClientModel.InsertedIsFound | lib/msgport-manager.c:108-182 | after an insertion the service is found under the key and all others as before; the string passed is the new key, or freed if there was one |
| ClientModel.GetLocalForgets | lib/msgport-manager.c:247-263 | an id is resolved exactly if it leads to a service, and forgotten exactly if it does not; nothing else changes |
| ClientModel.ToIntIsSameBits | lib/msgport-manager.c:171-180 | the id an application gets is the `int` with the bits of the daemon's id, and the same number exactly below 2^31 |
| ClientModel.RegisterGivesWorkingId | lib/msgport-manager.c:206-245 | registering, under a path not cached yet, gives an id that resolves to a port of that name and trust with the new handler, the same id as before if the port was cached, and leaves other ports alone; an error leaves both tables as they were and no string leaks |
| ClientModel.UnregisterKeepsTables | lib/msgport-manager.c:265-288 | unregistering keeps the tables inverse and leaks no path string; between the two removals no borrowed string dangles and the one still to be read is alive, which the other order would not keep; other ids resolve as before; an unknown id is not found, no answer of the daemon an I/O error, and then nothing changes |
| ClientModel.UnregisterUndoesCache | lib/msgport-manager.c:168-188 | unregistering a newly cached port restores both tables and frees its path string |
| ClientModel.UsableLocalIds | lib/msgport-manager.c:389-395 | a cached port can be the sender of a bidirectional message exactly if its id is a positive int |
| ClientManagers.LocalService.OnGotMessage | lib/msgport-service.c:71-91 | the callback gets the handler set at delivery, the port's own id, and NULL for empty app id or port |
| ClientManagers.ClientManager.FindService | lib/msgport-manager.c:195-203 | finds a cached port of that name and trust if and only if there is one |
| ClientManagers.ClientManager.RegisterService | lib/msgport-manager.c:206-245 | on the tables: a cached port gets the new handler, a daemon error or a failed proxy changes nothing, success files the port in both tables |
| ClientManagers.ClientManager.InsertService | lib/msgport-manager.c:108-182 | inserting under a key that is there keeps the old key string and frees the one passed |
| ClientManagers.ClientManager.RemoveService | lib/msgport-manager.c:285-285 | removing a service frees the key string the table owns |
| ClientManagers.ClientManager.CreateAndCacheService | lib/msgport-manager.c:168-188 | files the new service under its path and its id, or frees the path string if there is no proxy |
| ClientManagers.ClientManager.GetLocalPort | lib/msgport-manager.c:247-263 | resolves an id through both tables and forgets an id whose service is gone |
| ClientManagers.ClientManager.UnregisterService | lib/msgport-manager.c:265-288 | removes id and service, or reports not found or an I/O error without change |
| ClientManagers.ClientManager.SendMessage | lib/msgport-manager.c:354-378 | the error a plain send derives from its two replies |
| ClientManagers.ClientManager.SendBidirectionalMessage | lib/msgport-manager.c:380-404 | the error a bidirectional send derives from the local tables and its two replies |
| DaemonServer.DbusServer.AcquireRegistry | daemon/manager.c:100-113 | the first reference creates an empty registry, later ones share it |
| DaemonServer.DbusServer.DisposeManager | daemon/dbus-manager.c:63-88 | unregisters the owner's services, then drops one reference, and the registry with the last |
| DaemonServer.DbusServer.StartDbusManagerForConnection | daemon/dbus-server.c:198-219 | refines the abstract connect, one registry reference per open connection |
| DaemonServer.DbusServer.OnConnectionClosed | daemon/dbus-server.c:183-196 | refines the abstract close; an unknown connection changes nothing |
| DaemonServer.DbusServer.GetDbusManagerByAppId | daemon/dbus-server.c:311-327 | returns a manager with that app id if and only if there is one |
| DaemonServer.DbusServer.HandleRegisterService | daemon/dbus-manager.c:91-121 | refines the abstract registration and answers its path or error |
| DaemonServer.DbusServer.HandleCheckForRemoteService | daemon/dbus-manager.c:123-160 | refines the abstract look-up and changes nothing |
| DaemonServer.DbusServer.SendMessage | daemon/dbus-service.c:260-281 | refines the abstract gate and emission: one signal or none |
| DaemonServer.DbusServer.HandleSendMessage | daemon/dbus-manager.c:162-193 | refines the abstract one-way send |
| DaemonServer.DbusServer.HandleServiceSendMessage | daemon/dbus-service.c:75-109 | refines the abstract send on behalf of a port |
| DaemonServer.DbusServer.UnregisterService | daemon/manager.c:252-287 | refines the abstract single unregistration of an `int` id on the shared registry |
| DaemonServer.DbusServer.Serve | daemon/dbus-manager.c:91-193 | whatever the event, the server object takes exactly the step of the transition system |
| DaemonServer.RunDaemon | daemon/dbus-server.c:183-231 | a server object that has served any events is in the state the run reaches, so what is proved of runs holds of it |
| SystemModel.RegisterAnswers | daemon/dbus-manager.c:106-120 | a registration answers the path of a live fitting service, except for an empty name or a failed export; an existing port is returned without any change |
| SystemModel.RegisterOutcome | lib/msgport-manager.c:206-245 | exactly which result a registration returns: NONE, invalid parameter for an empty name, I/O error for a failed export, out of memory for a failed proxy; I/O error for the empty name where the error names are not known |
| SystemModel.StepKeepsMirrors | daemon/manager.c:148-315 | no daemon event disturbs the cache of a connection that stays open |
| SystemModel.FinishKeepsMirror | lib/msgport-manager.c:168-188 | caching an accepted registration, or failing to, keeps the cache matching the daemon |
| SystemModel.FinishCachesIff | lib/msgport-manager.c:168-188 | finishing an accepted registration caches the port if and only if the proxy could be made, with the daemon's id, the name and trust flag asked for and the handler given then; the id resolves to it, nothing waits any more, and no other port changes |
| SystemModel.RegistrationCompletes | lib/msgport-manager.c:206-245 | from the call to its return, with any events of other clients in between, a registration leaves the library with exactly one more port, live in the daemon, with the handler given and an id that resolves to it |
| SystemModel.CloseReachesDaemon | daemon/dbus-server.c:183-196 | when a connection closes, it and all of its ports are gone from the daemon, no other port is, and no library is touched |
| SystemModel.SysStepCoherent | lib/msgport-manager.c:168-288 | every event of any client or the daemon keeps each cached port equal to a live daemon service in id, path, name and trust, and the tables inverse |
| SystemModel.LibrariesAgreeIff | lib/msgport-manager.c:168-288 | after any event all libraries of open connections agree with the daemon if and only if it makes no service whose path one of them has cached or waiting |
| SystemModel.SysRunCoherentIff | lib/msgport-manager.c:168-288 | in every state of a run the daemon is sound and all libraries agree with it, if and only if no new id clashes with a live one; using the id of an ended port again is harmless here |
| SystemModel.BrokerOfRun | daemon/dbus-manager.c:91-193 | what the daemon does in a run of the whole system is a run of the daemon, whose ids are fresh, or free of clashes, exactly if those of the run are |
| SystemModel.BrokerOfEvent | daemon/dbus-manager.c:91-193 | every daemon event is that step of the daemon; a registration reaches the daemon exactly if the port is not cached; no other call changes the daemon |
| SystemModel.FaultFreeSystemIsCoherent | lib/msgport-manager.c:168-288 | from the start, without failed exports and with fewer than 2^32 services, every library agrees with the daemon in every state, and no old id misroutes |
| SystemModel.RetryGetsSamePath | daemon/manager.c:164-167 | a registration the daemon accepted but the library failed to finish gets the same path when asked again, any steps later, and no second service |
| Conversations.LocalPortStaysLive | lib/msgport-manager.c:391-395 | a cached local port stays a live service of its connection while that is open |
| Conversations.SendFromLivePort | daemon/dbus-service.c:93-108 | calling a live port's object emits one signal on behalf of that port, or fails and emits none |
| Conversations.GonePortReadsAsIoError | lib/msgport-service.c:165-183 | calling the object of a port that is gone, or another connection's, sends nothing and is an I/O error |
| Conversations.BidirectionalSendDelivers | lib/msgport-manager.c:380-404 | the caller sees NONE exactly if one signal was emitted to the requested port and application, naming the live port behind the given id; an error means no signal |
| Conversations.BidirectionalSendOutcome | lib/msgport-manager.c:380-404 | exactly which result a bidirectional send returns: invalid parameter for an id that is not positive, not found for an unknown one and for every failed look-up, then the error of sending to id 0, to an ended port or past a trusted port's owner, and NONE in all other cases |
| Delivery.CachedIsUnique | lib/msgport-manager.c:195-203 | a library that agrees with the daemon caches at most one service for a name and trust flag |
| Delivery.RunHandler | lib/msgport-manager.c:223-232 | over any run a cached port changes only in its handler, which is the one its application registered last |
| Delivery.SignalReachesLastHandler | lib/msgport-service.c:71-91 | a signal for a live port, received any steps later by the library that cached the port, calls the handler registered last with all of the signal's arguments and the id that resolves to that very port |
| Delivery.PlainSendReachesCallback | lib/msgport-manager.c:354-378 | whatever clients do before, between and after its two requests, a plain send that returned NONE for an id other than 0 ends in the callback of the requested application's port, with the data, the sender's app id, no port, and the handler registered last; of a bundle, the strings arrive in order |
| Delivery.BidirectionalSendReachesCallback | lib/msgport-manager.c:380-404 | the same for a bidirectional send, which gives that callback the name and trust flag of the sender's own port |
| FactoryModel.AdvanceExclusive | lib/msgport-factory.c:32-44 | the lock is held exactly by the one thread inside a locked section |
| FactoryModel.AdvanceViewsCurrent | lib/msgport-factory.c:65-76 | what a thread saw in a locked section is still so when it writes |
| FactoryModel.AdvanceOneTable | lib/msgport-factory.c:58-79 | one table at most, each manager stored under one thread, and the entries are exactly the managers handed out |
| FactoryModel.SameManagerIffSameThread | lib/msgport-factory.c:58-79 | for all interleavings: no crash, one table at most, and two calls return the same manager exactly if one thread made both |
| FactoryModel.UninitIsSafeIff | lib/msgport-factory.c:46-56 | clearing is harmless, however the threads go on, if and only if no manager was handed out and no thread is between the unlocked test and its look-up: such a thread crashes, and a manager handed out is destroyed |
| FactoryModel.UninitWaits | lib/msgport-factory.c:46-56 | clearing waits for the lock: it changes nothing while a thread is in a locked section |
| FactoryModel.UninterruptedCall | lib/msgport-factory.c:58-79 | the small steps of a call run alone add up to its two locked sections, and it returns the manager they give |
| FactoryModel.ManagerTable.GetManager | lib/msgport-factory.c:58-79 | the method returns what the two locked sections give, which `UninterruptedCall` ties to the small steps |
| Bundles.ToVariantMap | lib/msgport-utils.c:30-56 | the variant map holds exactly the string entries, in order |
| Bundles.FromVariantMap | lib/msgport-utils.c:58-78 | adds the pairs one after the other; no data makes no bundle |
| Bundles.AddAllKeepsIff | lib/msgport-utils.c:71-75 | nothing is lost in rebuilding a bundle exactly if no name comes twice |
| Bundles.AddAllMembers | lib/msgport-utils.c:71-75 | rebuilding keeps what was there, has every name that was sent, and of several pairs with one name keeps the first |
| Bundles.RoundTrip | lib/msgport-utils.c:30-78 | to the wire and back yields the string entries in order, is the identity exactly on bundles of strings, and is idempotent |

## Left out

- D-Bus transport, sockets, bus addresses, the main loop, signals and shutdown of the server object: calls are request and reply, and a send is considered while the sender's connection is open.
- A connection whose credentials cannot be read: it gets a NULL app id, which the daemon then hands to functions that need a string; every modelled connection has an app id.
- What the C code does after a registration under a clashing id: the owner's list then holds a destroyed object that later walks read.
- Pointers of 32 bits, where a negative `gint` and a large `guint` make the same table key.
- GDBus refuses to export two objects under one path of one connection; the model lets any export succeed or fail, which covers this.
- NULL arguments other than the port name and the callback of a registration, out-of-memory paths, property accessors, type registration, logging.
- Variant maps with values that are not strings, which only a peer without this library can send.
- `bundle_add` and GLib's hash tables, seen through what they promise; of GLib only the linked list has heap nodes, and its allocator is the set of live and of freed links.
- The library's dispose, which asks to unregister every local port, and its getters for a port's name and trust flag.
- `lib/message-port.c` and `lib/compatibility/message_port_wrapper.c`: argument checks and forwarding; their unregister call refuses a port whose trust flag matches (`lib/message-port.c:66`).
- `daemon/server-socket.c`: not part of the build.
- Certificates.AnswersAreDirect: takes the comparison of certificates as truthful and unchanging while the daemon runs, since the package database is not part of this model.
