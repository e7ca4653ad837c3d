# DDS Router: a verified model

The DDS Router forwards data and remote procedure calls between DDS domains. This project models the parts of it in
which correctness depends on many steps at once, and proves what they promise for every input, every interleaving or
every run:

- **Track** (`Track.dfy`, `TrackProofs.dfy`, `TrackHistory.dfy`, `TrackTheorems.dfy`, `TrackArrivals.dfy`): listener
  callbacks wake one consumer task through a single atomic counter. Each atomic access, take and write is one step; a
  run is any interleaving of callbacks, tasks and the enable/disable thread.
- **DDSBridge** (`DdsBridge.dfy`, `BridgeWriters.dfy`): the wiring of one track per participant, the product of all the
  tracks, and the writers they share.
- **ServiceRegistry** (`ServiceRegistry.dfy`): the bounded table from forwarded requests to requesters.
- **RPCBridge** (`RpcBridge.dfy`, `RpcWake.dfy`, `RpcRouting.dfy`, `RpcTheorems.dfy`, `RpcTasks.dfy`, `RpcFanOut.dfy`,
  `RpcSamples.dfy`, `RpcDrains.dfy`): the request/reply router, with the registry mutexes, the readers' RTPS mutexes and
  the shared transmission lock as explicit state.
- **Payload pools** (`PayloadPools.dfy`, `PayloadRuns.dfy`, `PayloadObjects.dfy`, `PayloadEmpty.dfy`): two
  reference-counted pools that refine the copying one, and payloads of size 0, where they do not.
- **Filter lists, discovery and activation** (`AllowedTopics.dfy`, `DiscoveryDatabase.dfy`, `Router.dfy`,
  `RouterTheorems.dfy`, `RouterObject.dfy`).
- **Command line** (`OptionParser.dfy`, `OptionSyntax.dfy`, `OptionScan.dfy`, `OptionMessages.dfy`,
  `OptionStorage.dfy`, `OptionActions.dfy`, `OptionPasses.dfy`): the two-pass parser with its intrusive circular lists,
  in POSIX mode (section 12.2 of POSIX.1-2017 Base Definitions) and in GNU mode.

Code that mutates objects or arrays is a class or a method with loops, proved against a function on values; the
theorems are about those functions and about runs of them. The protocols of Track and RPCBridge are state machines,
because their properties concern steps of several threads.

## What is taken from the environment

- Atomic accesses and locked regions are sequentially consistent steps.
- Fast DDS adds a change to a reader and calls the listener under that reader's mutex. Any number of callbacks of a
  Track may be in progress at once. The callback that enabling a reader makes may overlap later steps, which allows
  more runs than the code has.
- A reader's history does not drop unread changes, and taking succeeds while one is unread.
- Fewer than 2^31 - 1 callbacks of a Track fall between two stores to its counter, and a payload block has fewer than
  2^32 references.
- RPC readers are reliable and RPC payloads are not empty. Servers are discovered by RTPS participants only. The
  sequence numbers of one request writer increase strictly. A server answers with the guid of the proxy client's reader
  and the sequence number it was sent. Each emitted task runs once.
- The router's mutex serialises enable, disable, discovery and removal. Creating endpoints and bridges succeeds.
- The allocator returns addresses that are not in use. Each pool call is one step.
- Argument vectors do not alias: the elements of one are different strings in memory.

## Where the code departs from what one would expect

- The wake-up guarantee of a Track does not survive disable and enable, for two reasons. A transmit task that finds its
  Track disabled leaves without resetting the counter: `TrackTheorems.LostWakeup` is a run that strands a datum. And a
  callback that finds it disabled is dropped, while enabling a best-effort reader, the default, makes no callback:
  `TrackTheorems.LostBestEffortWakeup` is a run. `TrackTheorems.ServedIff` is the exact condition. RPCBridge resets its
  flag on that path and its readers are reliable, and its guarantee does survive.
- While a bridge disables its tracks one by one, a track that is still running may find a writer already disabled by
  another one: `BridgeWriters.WriterOffOnlyInDisable`.
- Stopping the router does not disable RPC bridges: `RouterTheorems.StopKeepsServices`, with the exact condition in
  `RouterTheorems.ServedSinceStop`. A service being served means there that its RPC bridge is enabled: stopping also
  disables the thread pool, so no RPC task starts until the next start.
- The router keeps topics by name and type. A topic found again with another key kind is judged as first found:
  `RouterTheorems.JudgedAsFirstFound` is the exact condition and `RouterTheorems.KeyedTopicIgnored` a run. Services are
  kept by name alone, with the same effect: `RouterTheorems.ServiceJudgedAsFirstFound`.
- Assigning an endpoint leaves its specific QoS alone, so the database keeps the QoS of the first insertion:
  `DiscoveryDatabase.QosIsFirstInserted`, with the exact condition in `DiscoveryDatabase.StoredAsGivenIff`.
- The copying pool accepts a payload of size 0 that the other pools refuse, reserves nothing for it and counts its
  release. From then on its counters drift: a release throws exactly when at least as many empty payloads were
  released as payloads are held (`PayloadEmpty.ReleaseThrowsIff`), which may be the release of somebody else's payload
  (`PayloadEmpty.WrongHolder`), and `is_clean` is right exactly as `PayloadEmpty.CleanIff` says.
- The sizing pass of the option parser gives up one option before the storing pass does, so the free slot at the end of
  the buffer is there if and only if fewer than 2^31 - 1 options are given: `OptionPasses.ParseCommandLine`. An option
  is stored in the list of its index converted to a signed int, so descriptor indices must be at most 2^31 - 1, which
  sizing does not see: `OptionPasses.Stats.Add`, `OptionPasses.SizedButOutside`. Sizing itself wraps around from
  2^32 - 2 on: `OptionPasses.OptionsMax`. A count of arguments beyond the end of the vector is corrected only when the
  options reach that end: `OptionPasses.NonOptionsRight`. In GNU mode the second pass may give an
  option another separate argument than the first one did: `OptionScan.SecondPassDiffers`, with the exact condition in
  `OptionScan.SecondPass`.

## Model

| member | source | states |
|---|---|---|
| TrackInvariants.StepKeeps | ddsrouter_core/src/cpp/communication/Track.cpp:89-239 | every step of callbacks, tasks, enable and disable keeps the invariant on counter, tokens, endpoints, unread data and payload references |
| TrackInvariants.RunKeeps | ddsrouter_core/src/cpp/communication/Track.cpp:89-239 | the invariant holds in every state of every run |
| TrackTheorems.OneOutstandingTask | ddsrouter_core/src/cpp/communication/Track.cpp:144-202 | at most one outstanding transmit token, none when the status is 0, the fetch_sub never underflows, and the 32-bit word equals the mathematical counter |
| TrackTheorems.NoLostWakeup | ddsrouter_core/src/cpp/communication/Track.cpp:144-202 | in every run in which the track is never turned off, unread data means a callback in progress or exactly one outstanding token |
| TrackTheorems.ServedIff | ddsrouter_core/src/cpp/communication/Track.cpp:144-202 | across any disable and enable, for reliable and best-effort readers, unread data with no callback in progress is served if and only if no task of the run left at the loop head and no callback was missed, both read off the steps of the run; a reliable reader misses none |
| TrackHistory.RunHistory | ddsrouter_core/src/cpp/communication/Track.cpp:144-202 | whether the track was ever disabled, a task ever left early and a callback is missed is what the steps of the run show |
| TrackTheorems.StaleTask | ddsrouter_core/src/cpp/communication/Track.cpp:164-202 | a run in which a queued task starts after disable and leaves the status at 2 |
| TrackTheorems.LostWakeup | ddsrouter_core/src/cpp/communication/Track.cpp:144-202 | a run after which an enabled, idle track has unread data, no callback and no task |
| TrackTheorems.DroppedCallback | ddsrouter_core/src/cpp/communication/Track.cpp:144-162 | a run in which a best-effort reader's callback finds the track disabled and is dropped, its datum unread |
| TrackTheorems.LostBestEffortWakeup | ddsrouter_core/src/cpp/communication/Track.cpp:144-162 | a run after which an enabled, idle track of a best-effort reader has unread data, no callback and no task, although no task ever left early |
| TrackTheorems.AbortedStaysSilent | ddsrouter_core/src/cpp/communication/Track.cpp:164-202 | after such a task no later step of the run takes or writes anything |
| TrackTheorems.EndpointsRespected | ddsrouter_core/src/cpp/communication/Track.cpp:89-137 | every write finds its writer enabled unless somebody else disabled it, and nothing is taken or written between disable passing the transmission mutex and the next enable, stale tasks included |
| TrackTheorems.PayloadReferences | ddsrouter_core/src/cpp/communication/Track.cpp:175-239 | a block's counter is the number of unread changes, writer histories and running transmissions that hold it; the track holds none at its loop head, and one until all writers have run |
| TrackTheorems.EndpointsSwitched | ddsrouter_core/src/cpp/communication/Track.cpp:89-137 | outside enable and disable the reader is on exactly when the track is, and a track that alone drives its writers has them all on |
| TrackTheorems.ControlEnds | ddsrouter_core/src/cpp/communication/Track.cpp:89-137 | every step of enable and disable brings its end nearer |
| TrackTheorems.WriteOutcome | ddsrouter_core/src/cpp/communication/Track.cpp:203-216 | each writer gets one attempt in order, which may succeed exactly if the writer is enabled, and only then holds the payload |
| TrackArrivals.TakenAreArrivals | ddsrouter_core/src/cpp/reader/implementations/rtps/CommonReader.cpp:145-184 | over every run the correct changes that the reader kept, in the order of their arrival, are the data taken followed by the correct ones still unread; changes reaching a disabled reader are kept exactly on reliable topics |
| TrackTheorems.TransmitRanks | ddsrouter_core/src/cpp/communication/Track.cpp:164-239 | each step of the transmit loop decreases a rank and starts no extra iteration |
| TrackTheorems.CallbackRanks | ddsrouter_core/src/cpp/communication/Track.cpp:144-162 | so does each step of a callback |
| TrackTheorems.DrainKeeps | ddsrouter_core/src/cpp/communication/Track.cpp:144-239 | along a run without arrivals, steps and started iterations are paid for by the initial rank |
| TrackTheorems.Drains | ddsrouter_core/src/cpp/communication/Track.cpp:144-202 | without arrivals every run ends, within queue length plus pending callbacks plus one iterations, with an empty queue, status 0 and no task |
| DdsBridge.WritersOfMembers | ddsrouter_core/src/cpp/communication/DDSBridge.cpp:60-82 | a track's writers are those of every participant, its own only if it is a repeater, each once |
| DdsBridge.WireTracks | ddsrouter_core/src/cpp/communication/DDSBridge.cpp:45-82 | the constructor's loops give each participant one track with exactly those writers |
| DdsBridge.TrackStepKeepsFanOut | ddsrouter_core/src/cpp/communication/Track.cpp:164-239 | each step keeps what every writer was handed equal to what was taken, up to the datum being forwarded |
| DdsBridge.BridgeRunKeeps | ddsrouter_core/src/cpp/communication/DDSBridge.cpp:45-82 | the same for all tracks, in every interleaving |
| DdsBridge.ForwardedInOrder | ddsrouter_core/src/cpp/communication/DDSBridge.cpp:45-82 | the attempts on q's writer from p are what p's track took, in order, without duplicates, at most the last missing; none from p to itself unless it is a repeater |
| DdsBridge.ArrivalsForwarded | ddsrouter_core/src/cpp/communication/DDSBridge.cpp:45-82 | what is attempted on q's writer from p are the correct changes that reached p's reader, in order and each once, up to the unread ones and at most one being forwarded |
| BridgeWriters.StepKeeps | ddsrouter_core/src/cpp/communication/DDSBridge.cpp:125-159 | with the writers shared, every step of tracks and bridge keeps which tracks and writers are enabled while the bridge enables or disables its tracks one by one |
| BridgeWriters.WriterOffOnlyInDisable | ddsrouter_core/src/cpp/communication/DDSBridge.cpp:125-159 | a track that is writing finds its writer disabled if and only if the bridge is being disabled and a track sharing that writer has already switched it off |
| BridgeWriters.BridgeGoesOn | ddsrouter_core/src/cpp/communication/DDSBridge.cpp:125-159 | enabling and disabling a bridge can always go on, except for a transmission to end, and each step brings its end nearer |
| ServiceRegistry.ServiceRegistry.constructor | ddsrouter_core/src/cpp/communication/rpc/ServiceRegistry.cpp:35-45 | a new registry is empty and disabled |
| ServiceRegistry.ServiceRegistry.Enable | ddsrouter_core/src/cpp/communication/rpc/ServiceRegistry.cpp:47-50 | the registry becomes enabled and its entries stay |
| ServiceRegistry.ServiceRegistry.Add | ddsrouter_core/src/cpp/communication/rpc/ServiceRegistry.cpp:62-85 | a known key changes nothing, a new one is inserted, and the entry with the least key goes when 5000 are reached |
| ServiceRegistry.ServiceRegistry.Get | ddsrouter_core/src/cpp/communication/rpc/ServiceRegistry.cpp:87-103 | the entry of a known key, and a miss otherwise |
| ServiceRegistry.ServiceRegistry.Erase | ddsrouter_core/src/cpp/communication/rpc/ServiceRegistry.cpp:105-119 | exactly that key is removed |
| ServiceRegistry.AlwaysBelowLimit | ddsrouter_core/src/cpp/communication/rpc/ServiceRegistry.cpp:62-85 | after every sequence of calls there are fewer than 5000 entries, all of them added |
| ServiceRegistry.AddedEntries | ddsrouter_core/src/cpp/communication/rpc/ServiceRegistry.cpp:62-85 | adding leaves every surviving entry as it was |
| ServiceRegistry.EvictionNeedsNewer | ddsrouter_core/src/cpp/communication/rpc/ServiceRegistry.cpp:62-85 | an entry is not evicted while fewer than 4998 newer ones are stored |
| ServiceRegistry.RecentEntryStays | ddsrouter_core/src/cpp/communication/rpc/ServiceRegistry.cpp:62-119 | with increasing keys an entry that is not erased stays, unchanged, through fewer than 4999 later adds |
| ServiceRegistry.KeptUntilEvicted | ddsrouter_core/src/cpp/communication/rpc/ServiceRegistry.cpp:62-119 | every added key is stored, was erased, or was followed by at least 4999 adds |
| RpcWake.StepKeeps | ddsrouter_core/src/cpp/communication/rpc/RPCBridge.cpp:149-334 | every step keeps the invariants on flags, mutexes, the shared lock, endpoints and servers |
| RpcWake.RunKeeps | ddsrouter_core/src/cpp/communication/rpc/RPCBridge.cpp:149-334 | they hold in every state of every run |
| RpcRouting.RouteStepKeeps | ddsrouter_core/src/cpp/communication/rpc/RPCBridge.cpp:347-455 | every forwarding or replying step keeps the routing invariants: lock ownership, tables, unanswered entries and the trace |
| RpcRouting.RunKeepsRouting | ddsrouter_core/src/cpp/communication/rpc/RPCBridge.cpp:347-455 | they hold in every state of every run |
| RpcTheorems.ReplyTracesToRequest | ddsrouter_core/src/cpp/communication/rpc/RPCBridge.cpp:347-455 | a reply written at P with identity I follows a request with identity I read at P, forwarded through the participant where the reply arrived and under the number it carries |
| RpcTheorems.AnsweredAtMostOnce | ddsrouter_core/src/cpp/communication/rpc/RPCBridge.cpp:405-455 | per participant and sequence number at most one reply is written successfully |
| RpcTheorems.SentIsRegistered | ddsrouter_core/src/cpp/communication/rpc/RPCBridge.cpp:376-400 | whenever a registry's mutex is free, the numbers sent through it increase, fewer than 5000 are stored, and each is stored, answered, or followed by at least 4999 later ones |
| RpcTheorems.ForwardedIsRecorded | ddsrouter_core/src/cpp/communication/rpc/RPCBridge.cpp:376-400 | every request forwarded through a participant is among the numbers its registry accounts for |
| RpcTheorems.ForwardedIsRegistered | ddsrouter_core/src/cpp/communication/rpc/RPCBridge.cpp:376-400 | whenever the registry's mutex is free, a forwarded request is registered, answered, or followed by at least 4999 later ones |
| RpcTheorems.ForwardedInOrder | ddsrouter_core/src/cpp/communication/rpc/RPCBridge.cpp:376-400 | the numbers forwarded through one participant increase in the order of the history, so a participant and a number identify one request |
| RpcTheorems.LookupFindsRequest | ddsrouter_core/src/cpp/communication/rpc/RPCBridge.cpp:405-455 | a reply task that looks up the number of a forwarded request finds that very request, not answered before, or finds nothing because it was answered or followed by at least 4999 later ones |
| RpcTheorems.FlagMeansOneTask | ddsrouter_core/src/cpp/communication/rpc/RPCBridge.cpp:270-334 | a reader's flag is set exactly when one task of it is queued or running, there is no second one, and a take never finds the reader empty |
| RpcTheorems.NoLostWakeup | ddsrouter_core/src/cpp/communication/rpc/RPCBridge.cpp:270-334 | across any enable and disable, an enabled bridge outside enable has a task for every reader with unread data |
| RpcTheorems.WritersEnabled | ddsrouter_core/src/cpp/communication/rpc/RPCBridge.cpp:149-234 | every request or reply write finds its writer enabled |
| RpcTheorems.SilentWhileStopped | ddsrouter_core/src/cpp/communication/rpc/RPCBridge.cpp:199-234 | once disable has passed the transmission lock no task takes or writes until the next enable |
| RpcTheorems.ServersHaveRegistries | ddsrouter_core/src/cpp/communication/rpc/RPCBridge.cpp:94-268 | once initialised a participant with servers has an enabled registry, and an enabled bridge has a server |
| RpcTheorems.ServerFound | ddsrouter_core/src/cpp/communication/rpc/RPCBridge.cpp:236-245 | outside enable and disable a server found at a participant is known beside the others, its registry is enabled once initialised, and the bridge may be enabled exactly if it was not |
| RpcTheorems.ServerLost | ddsrouter_core/src/cpp/communication/rpc/RPCBridge.cpp:247-268 | a server that goes is forgotten and no other, and the bridge starts to disable exactly when it was enabled and knew no other server |
| RpcFanOut.HandledSoFar | ddsrouter_core/src/cpp/communication/rpc/RPCBridge.cpp:347-403 | a task on a request has given every participant it is past its turn, without going back |
| RpcFanOut.EveryParticipantTried | ddsrouter_core/src/cpp/communication/rpc/RPCBridge.cpp:364-403 | when a task is through with a request, every participant has had one turn, and had a write attempt, exactly one, if and only if at its turn it was another participant than the source or a repeater, and its registry was enabled |
| RpcTasks.TakeStep | ddsrouter_core/src/cpp/communication/rpc/RPCBridge.cpp:336-421 | an incorrect sample is dropped; a correct request is noted under its writer and its own sequence number and forwarded unless that is unknown; a correct reply is looked up if and only if its writer is this participant's reply reader |
| RpcSamples.ReplyIsOwn | ddsrouter_core/src/cpp/communication/rpc/RPCBridge.cpp:405-455 | over every run a task that looks up, routes or erases a reply took it, correct, from an enabled reply reader whose guid is the sample's writer |
| RpcSamples.ReplyFromArrival | ddsrouter_core/src/cpp/communication/rpc/RPCBridge.cpp:405-455 | every reply written goes back to a correct sample that arrived at the reply reader of the participant it came through, with that reader's guid and the reply's sequence number |
| RpcSamples.RequestFromArrival | ddsrouter_core/src/cpp/communication/rpc/RPCBridge.cpp:347-362 | every request read is a correct sample that arrived at the participant's request reader, noted under its writer and its origin sequence number |
| RpcSamples.SentWhereEligible | ddsrouter_core/src/cpp/communication/rpc/RPCBridge.cpp:364-403 | every request forwarded went to another participant than its source, or to a repeater, with an enabled registry |
| RpcDrains.EndpointsSwitched | ddsrouter_core/src/cpp/communication/rpc/RPCBridge.cpp:149-234 | in every run, outside enable and disable every reader and writer of the bridge is on if and only if the bridge is enabled |
| RpcDrains.StepProgress | ddsrouter_core/src/cpp/communication/rpc/RPCBridge.cpp:298-460 | outside enable, every step of a callback or a task lowers the rank of its reader and leaves the other readers and the endpoints alone |
| RpcDrains.BoundedWork | ddsrouter_core/src/cpp/communication/rpc/RPCBridge.cpp:298-460 | however they are scheduled, callbacks and tasks make no more steps than the ranks of the readers say when nothing more arrives |
| RpcDrains.NeverStuck | ddsrouter_core/src/cpp/communication/rpc/RPCBridge.cpp:149-460 | in every run, while enable, disable, a callback or a task is under way, one of them can make a step: nobody waits for good for the registry mutexes, the readers' mutexes or the transmission lock |
| RpcDrains.Drains | ddsrouter_core/src/cpp/communication/rpc/RPCBridge.cpp:298-460 | from every state outside enable and disable, or with disable waiting, callbacks and tasks reach a state in which all have ended, the transmission lock is free and an enabled bridge has read everything |
| RpcDrains.ControlFalls | ddsrouter_core/src/cpp/communication/rpc/RPCBridge.cpp:149-234 | every step of enable or disable brings it nearer to its end, and nothing else moves it |
| RpcDrains.SwitchOrder | ddsrouter_core/src/cpp/communication/rpc/RPCBridge.cpp:174-232 | the order in which enable and disable switch the endpoints, group by group and one participant at a time |
| RpcDrains.DisableEnds | ddsrouter_core/src/cpp/communication/rpc/RPCBridge.cpp:199-234 | a disable that waits for the transmission lock gets it and comes to its end |
| RpcDrains.RequestCanBeSent | ddsrouter_core/src/cpp/communication/rpc/RPCBridge.cpp:376-393 | a task about to send a request may fail, and may succeed under exactly the numbers above all those sent before through that participant |
| RpcDrains.ReplyCanBeSent | ddsrouter_core/src/cpp/communication/rpc/RPCBridge.cpp:436-453 | a task that found the request of a reply may write it, with or without success |
| PayloadRuns.CallKeeps | ddsrouter_core/src/cpp/efficiency/payload/FastPayloadPool.cpp:32-151 | every legal call keeps the fast pool in step with a ledger of plain values, sharing a block exactly among copies of one payload |
| PayloadRuns.MapCallIsCall | ddsrouter_core/src/cpp/efficiency/payload/MapPayloadPool.cpp:44-140 | every legal call on the map pool is the same call on the fast pool |
| PayloadRuns.CopyCallKeeps | ddsrouter_core/src/cpp/efficiency/payload/CopyPayloadPool.cpp:29-62 | every legal call keeps the copying pool in step with the ledger |
| PayloadRuns.RunRefines | ddsrouter_core/src/cpp/efficiency/payload/FastPayloadPool.cpp:32-151 | after every legal run all three pools agree with the ledger |
| PayloadRuns.SharingUnobservable | ddsrouter_core/src/cpp/efficiency/payload/FastPayloadPool.cpp:32-106 | after every legal run no call failed or threw, every live payload shows the same length, size and bytes in the three pools, and they agree on being clean |
| PayloadRuns.ReleaseCounted | ddsrouter_core/src/cpp/efficiency/payload/FastPayloadPool.cpp:81-106 | releasing keeps the counters exact and frees the block if and only if the last holder releases it |
| PayloadRuns.CountersExact | ddsrouter_core/src/cpp/efficiency/payload/FastPayloadPool.cpp:65-151 | in every reachable state a counter is the number of holders, reserved minus released is the number of live blocks, and the over-release exception is unreachable |
| PayloadRuns.CleanIffEmpty | ddsrouter_core/src/cpp/efficiency/payload/PayloadPool.cpp:114-136 | a pool is clean exactly when no payload is live |
| PayloadObjects.CallSeen | ddsrouter_core/src/cpp/efficiency/payload/FastPayloadPool.cpp:32-151 | to the holders of its payloads, a legal call changes exactly the one payload it is about, and sharing shows the source's bytes |
| PayloadObjects.CopyCallSeen | ddsrouter_core/src/cpp/efficiency/payload/CopyPayloadPool.cpp:29-62 | the same map of payloads to what they show, for the copying pool |
| PayloadObjects.FastPayloadPool.Reserve | ddsrouter_core/src/cpp/efficiency/payload/FastPayloadPool.cpp:32-43 | a new payload in a block of its own, every other payload as before, counters exact; refused exactly for size 0 |
| PayloadObjects.FastPayloadPool.Import | ddsrouter_core/src/cpp/efficiency/payload/FastPayloadPool.cpp:45-63 | as Reserve, and the new payload shows the copied bytes |
| PayloadObjects.FastPayloadPool.Share | ddsrouter_core/src/cpp/efficiency/payload/FastPayloadPool.cpp:45-79 | the new payload shows what the source shows, without a new block or reservation, and every other one as before |
| PayloadObjects.FastPayloadPool.Release | ddsrouter_core/src/cpp/efficiency/payload/FastPayloadPool.cpp:81-106 | never throws, frees the block if and only if this was its last holder, and every other payload shows what it showed |
| PayloadObjects.FastPayloadPool.Clean | ddsrouter_core/src/cpp/efficiency/payload/PayloadPool.cpp:114-117 | clean if and only if nothing is held, and then no block is left |
| PayloadObjects.MapPayloadPool.Reserve | ddsrouter_core/src/cpp/efficiency/payload/MapPayloadPool.cpp:44-62 | as for the fast pool, with the counters in the map |
| PayloadObjects.MapPayloadPool.Import | ddsrouter_core/src/cpp/efficiency/payload/MapPayloadPool.cpp:64-82 | as for the fast pool |
| PayloadObjects.MapPayloadPool.Share | ddsrouter_core/src/cpp/efficiency/payload/MapPayloadPool.cpp:64-103 | as for the fast pool; throws and changes nothing exactly for a payload not reserved here |
| PayloadObjects.MapPayloadPool.Release | ddsrouter_core/src/cpp/efficiency/payload/MapPayloadPool.cpp:105-140 | as for the fast pool; throws and changes nothing exactly for a payload not reserved here |
| PayloadObjects.CopyPayloadPool.Get | ddsrouter_core/src/cpp/efficiency/payload/CopyPayloadPool.cpp:39-56 | the new payload shows the copied bytes in memory of its own, every other one as before; size 0 reserves nothing and succeeds |
| PayloadObjects.CopyPayloadPool.Release | ddsrouter_core/src/cpp/efficiency/payload/CopyPayloadPool.cpp:58-62 | never throws for a payload held, frees its memory, and every other one shows what it showed |
| PayloadEmpty.Balance | ddsrouter_core/src/cpp/efficiency/payload/CopyPayloadPool.cpp:29-62 | over every run with payloads of size 0, reserved plus releases of empty payloads equals released plus payloads held, and every payload held shows what it was given |
| PayloadEmpty.ReleaseThrowsIff | ddsrouter_core/src/cpp/efficiency/payload/PayloadPool.cpp:127-136 | a release throws if and only if at least as many empty payloads were released as payloads are held |
| PayloadEmpty.CleanIff | ddsrouter_core/src/cpp/efficiency/payload/PayloadPool.cpp:114-117 | the pool is clean if and only if those numbers are equal, and when is_clean tells whether anything is held |
| PayloadEmpty.WrongHolder | ddsrouter_core/src/cpp/efficiency/payload/CopyPayloadPool.cpp:58-62 | a run in which the release of the only payload held throws, because an empty one was released before |
| PayloadEmpty.EmptyRefused | ddsrouter_core/src/cpp/efficiency/payload/FastPayloadPool.cpp:108-118 | the reference-counted pools refuse a size of 0 in every state and stay as they are |
| PayloadEmpty.EmptyAccepted | ddsrouter_core/src/cpp/efficiency/payload/CopyPayloadPool.cpp:29-56 | the copying pool accepts it in every state and stays as it is |
| PayloadEmpty.OverRelease | ddsrouter_core/src/cpp/efficiency/payload/PayloadPool.cpp:127-136 | what the over-release exception would leave behind in each pool: the block is freed, the release counted, and the map pool keeps a counter of 0 |
| AllowedTopics.WithoutRepetition | ddsrouter_core/src/cpp/dynamic/AllowedTopicList.cpp:121-162 | in any processing order: the same topics matched, empty only for an empty list, and no filter left that contains another |
| AllowedTopics.Redundant | ddsrouter_core/src/cpp/dynamic/AllowedTopicList.cpp:127-148 | the inner loop finds a stored filter that contains the new one, or all the stored ones that the new one contains |
| AllowedTopics.AddKeepsMatches | ddsrouter_core/src/cpp/dynamic/AllowedTopicList.cpp:121-162 | one round keeps the union of matched topics |
| AllowedTopics.SimpleContains | ddsrouter_core/src/cpp/types/topic/filter/WildcardDdsFilterTopic.cpp:34-40 | a `contains` that never holds, like the repository's, is sound, and so is equality |
| AllowedTopics.AllowedTopicList.constructor | ddsrouter_core/src/cpp/dynamic/AllowedTopicList.cpp:33-40 | both lists are simplified without changing what they match |
| AllowedTopics.AllowedTopicList.IsTopicAllowed | ddsrouter_core/src/cpp/dynamic/AllowedTopicList.cpp:67-102 | the decision on the simplified lists is that on the configured ones |
| AllowedTopics.AllowedTopicList.IsServiceAllowed | ddsrouter_core/src/cpp/dynamic/AllowedTopicList.cpp:104-108 | a service is allowed when its request and reply topics are |
| DiscoveryDatabase.DiscoveryDatabase.PushItemToQueue | ddsrouter_core/src/cpp/dynamic/DiscoveryDatabase.cpp:303-311 | an operation is appended to the queue and nothing else changes |
| DiscoveryDatabase.DiscoveryDatabase.AddEndpoint | ddsrouter_core/src/cpp/dynamic/DiscoveryDatabase.cpp:105-148 | inserts and notifies, or reassigns an inactive endpoint silently, or fails on an active one |
| DiscoveryDatabase.DiscoveryDatabase.UpdateEndpoint | ddsrouter_core/src/cpp/dynamic/DiscoveryDatabase.cpp:150-182 | reassigns and notifies, or fails on an unknown guid |
| DiscoveryDatabase.DiscoveryDatabase.EraseEndpoint | ddsrouter_core/src/cpp/dynamic/DiscoveryDatabase.cpp:184-210 | removes and notifies, or fails on an unknown guid |
| DiscoveryDatabase.DiscoveryDatabase.ProcessQueue | ddsrouter_core/src/cpp/dynamic/DiscoveryDatabase.cpp:313-343 | draining the queue is the fold of its operations in order |
| DiscoveryDatabase.FoldConcat | ddsrouter_core/src/cpp/dynamic/DiscoveryDatabase.cpp:313-343 | processing in batches is processing at once |
| DiscoveryDatabase.StepKeeps | ddsrouter_core/src/cpp/dynamic/DiscoveryDatabase.cpp:303-343 | every push, swap, application and pop keeps processed plus waiting equal to pushed |
| DiscoveryDatabase.ProcessedInPushOrder | ddsrouter_core/src/cpp/dynamic/DiscoveryDatabase.cpp:280-343 | in every interleaving the map is the fold of the processed operations, a prefix of the pushed ones |
| DiscoveryDatabase.CallbacksAlternate | ddsrouter_core/src/cpp/dynamic/DiscoveryDatabase.cpp:105-210 | per guid the added and erased callbacks alternate strictly, added first, and the guid is stored exactly after an added one |
| DiscoveryDatabase.QosIsFirstInserted | ddsrouter_core/src/cpp/types/endpoint/Endpoint.cpp:121-130 | a stored endpoint keeps the specific QoS it was inserted with |
| DiscoveryDatabase.StoredAsGivenIff | ddsrouter_core/src/cpp/dynamic/DiscoveryDatabase.cpp:113-170 | after every run, an update, or an endpoint added again over an inactive one, is stored as given if and only if it carries the specific QoS of the insertion |
| DiscoveryDatabase.AddedOverActive | ddsrouter_core/src/cpp/dynamic/DiscoveryDatabase.cpp:113-121 | an endpoint added again over an active one changes nothing |
| DiscoveryDatabase.AddedNew | ddsrouter_core/src/cpp/dynamic/DiscoveryDatabase.cpp:133-148 | after every run an endpoint of an unknown guid is stored and announced as given, and no other entry changes |
| DiscoveryDatabase.AddedOverInactive | ddsrouter_core/src/cpp/dynamic/DiscoveryDatabase.cpp:122-131 | an inactive endpoint added again takes over everything but the specific QoS, silently |
| DiscoveryDatabase.UpdatedKnown | ddsrouter_core/src/cpp/dynamic/DiscoveryDatabase.cpp:150-182 | an update takes over everything but the specific QoS and is announced as given, and no other entry changes |
| DiscoveryDatabase.ErasedKnown | ddsrouter_core/src/cpp/dynamic/DiscoveryDatabase.cpp:184-210 | an erased endpoint is gone and announced as the operation gave it, and no other entry changes |
| DiscoveryDatabase.UnknownIgnored | ddsrouter_core/src/cpp/dynamic/DiscoveryDatabase.cpp:150-210 | updating or erasing an unknown guid changes nothing |
| DiscoveryDatabase.ProcessingEnds | ddsrouter_core/src/cpp/dynamic/DiscoveryDatabase.cpp:280-343 | every step of the processing thread brings its end nearer, and pushing is always possible |
| DiscoveryDatabase.IdleIsProcessed | ddsrouter_core/src/cpp/dynamic/DiscoveryDatabase.cpp:280-343 | when the processing thread has nothing to do, everything pushed has been processed in push order |
| RouterObject.DDSRouter.constructor | ddsrouter_core/src/cpp/core/DDSRouterImpl.cpp:41-86 | a new router is disabled, knows the builtin topics as first configured, forwards nothing and satisfies the invariants |
| RouterObject.DDSRouter.ActivateAllTopics | ddsrouter_core/src/cpp/core/DDSRouterImpl.cpp:567-577 | exactly the known topics that the list allows are activated |
| RouterObject.DDSRouter.DeactivateAllTopics | ddsrouter_core/src/cpp/core/DDSRouterImpl.cpp:579-586 | exactly the known topics are deactivated |
| RouterObject.DDSRouter.DiscoveredTopic | ddsrouter_core/src/cpp/core/DDSRouterImpl.cpp:376-399 | keeps the topic invariant: the topic is known as first found and forwarded if and only if an enabled router allows that one; no other topic changes |
| RouterObject.DDSRouter.DiscoveredService | ddsrouter_core/src/cpp/core/DDSRouterImpl.cpp:401-432 | keeps the service invariant: the server is recorded, even for a service not allowed, and the service served if it was or an enabled router allows it; no other service changes |
| RouterObject.DDSRouter.RemovedService | ddsrouter_core/src/cpp/core/DDSRouterImpl.cpp:434-449 | keeps the service invariant: the server is dropped, and the service stays served if and only if it was and another server is left; no other service changes |
| RouterObject.DDSRouter.EnableServices | ddsrouter_core/src/cpp/core/DDSRouterImpl.cpp:267-275 | turns the service invariant of a stopped router into that of an enabled one |
| RouterObject.DDSRouter.Start | ddsrouter_core/src/cpp/core/DDSRouterImpl.cpp:252-284 | the router is enabled and satisfies the invariants; the whole new state; OK exactly if it was disabled |
| RouterObject.DDSRouter.Stop | ddsrouter_core/src/cpp/core/DDSRouterImpl.cpp:286-307 | the router is stopped and satisfies the invariants; the whole new state; OK exactly if it was enabled; the services stay |
| RouterObject.DDSRouter.ReloadAllTopics | ddsrouter_core/src/cpp/core/DDSRouterImpl.cpp:170-189 | turns the topic invariant for the old list into that for the new one by switching exactly the topics that differ |
| RouterObject.DDSRouter.NewBuiltinTopics | ddsrouter_core/src/cpp/core/DDSRouterImpl.cpp:148-156 | exactly the builtin topics whose name and type are not known, the first of each |
| RouterObject.DDSRouter.DiscoverAll | ddsrouter_core/src/cpp/core/DDSRouterImpl.cpp:191-195 | all of them are discovered, in any order |
| RouterObject.DDSRouter.ReloadAllServices | ddsrouter_core/src/cpp/core/DDSRouterImpl.cpp:197-210 | turns the service invariant for the old list into that for the new one |
| RouterObject.DDSRouter.ReloadConfiguration | ddsrouter_core/src/cpp/core/DDSRouterImpl.cpp:125-220 | NOT_ENABLED exactly for a disabled router, NO_DATA exactly for an equal list without a builtin topic of a new name and type, and OK otherwise; an accepted reload installs the list and satisfies the invariants for it, and nothing changes otherwise |
| RouterTheorems.TopicsKept | ddsrouter_core/src/cpp/core/DDSRouterImpl.cpp:125-399 | every operation keeps: active means enabled and allowed, and exactly the active topics have an enabled bridge |
| RouterTheorems.ServicesKept | ddsrouter_core/src/cpp/core/DDSRouterImpl.cpp:125-449 | every operation keeps the relation of services, servers, list and RPC bridges |
| RouterTheorems.ForwardedIffAllowed | ddsrouter_core/src/cpp/core/DDSRouterImpl.cpp:125-399 | after every run a bridge is enabled if and only if the router is, the topic is known and the current list allows it |
| RouterTheorems.HistoryIndependent | ddsrouter_core/src/cpp/core/DDSRouterImpl.cpp:125-399 | two runs that agree on switch, list and known topics agree on what is active and forwarded |
| RouterTheorems.SwitchAndList | ddsrouter_core/src/cpp/core/DDSRouterImpl.cpp:125-307 | after every run the router is what the last start or stop made it, and its list that of the last reload given while enabled that was not a no-op |
| RouterTheorems.ForwardedByRun | ddsrouter_core/src/cpp/core/DDSRouterImpl.cpp:125-399 | what is forwarded is a function of the run: the topics found, as first found, that the list in force allows while the router is on |
| RouterTheorems.KnownAreFound | ddsrouter_core/src/cpp/core/DDSRouterImpl.cpp:376-399 | the known topics are those discovered in the run, each as first found |
| Router.NewTopicsFirst | ddsrouter_core/src/cpp/core/DDSRouterImpl.cpp:376-399 | the topic kept for a name and type is the one of least index among those found |
| RouterTheorems.TopicsTable | ddsrouter_core/src/cpp/core/DDSRouterImpl.cpp:125-399 | the table of topics is a function of the topics found, the switch and the current list |
| RouterTheorems.JudgedAsFirstFound | ddsrouter_core/src/cpp/types/topic/dds/DdsTopic.cpp:88-104 | the list decides about a later find as it stands if and only if it treats it like the first one, or the router is stopped |
| RouterTheorems.KeyedTopicIgnored | ddsrouter_core/src/cpp/core/DDSRouterImpl.cpp:376-399 | a run in which an enabled router does not forward a topic found and allowed |
| RouterTheorems.ServedServices | ddsrouter_core/src/cpp/core/DDSRouterImpl.cpp:401-449 | an enabled RPC bridge has an allowed service and a server; an enabled router serves every allowed service with a server |
| RouterTheorems.ServersKnown | ddsrouter_core/src/cpp/communication/rpc/RPCBridge.cpp:236-268 | the servers known are those discovered and not removed since |
| RouterTheorems.ServedIffServerLeft | ddsrouter_core/src/cpp/core/DDSRouterImpl.cpp:401-449 | in an enabled router a service with a server left by the run is served if and only if it is allowed; a served one always is and has a server |
| RouterTheorems.ServedSinceStop | ddsrouter_core/src/cpp/core/DDSRouterImpl.cpp:286-307 | in a stopped router a service is served if and only if it was served at the stop and its servers never all left since |
| RouterTheorems.UnservedBeforeStart | ddsrouter_core/src/cpp/core/DDSRouterImpl.cpp:401-432 | before the first start nothing is served |
| RouterTheorems.ServicesTable | ddsrouter_core/src/cpp/core/DDSRouterImpl.cpp:401-432 | the table of services is a function of the services found, each as first found, and the current list |
| RouterTheorems.ServiceFirstsLeast | ddsrouter_core/src/cpp/types/topic/rpc/RPCTopic.cpp:131-143 | the service kept for a name is the one of least index among those found |
| RouterTheorems.ServiceJudgedAsFirstFound | ddsrouter_core/src/cpp/types/topic/rpc/RPCTopic.cpp:131-143 | the list decides about a service found again as it stands if and only if it treats it like the first one |
| RouterTheorems.StopKeepsServices | ddsrouter_core/src/cpp/core/DDSRouterImpl.cpp:286-307 | stopping ends every topic and no service |
| RouterTheorems.ServedWhileStopped | ddsrouter_core/src/cpp/core/DDSRouterImpl.cpp:286-307 | a run after which a stopped router has an enabled RPC bridge |
| OptionParser.StrEq | thirdparty/optionparser/optionparser.h:1482-1495 | true exactly when the first string is the second or its part before an equals sign |
| OptionParser.StrEqAbbr | thirdparty/optionparser/optionparser.h:1520-1533 | true exactly when the longest common prefix ends the argument's name and is long enough |
| OptionParser.InStr | thirdparty/optionparser/optionparser.h:1541-1550 | membership of a character, and true for the terminating one |
| OptionParser.FindLong | thirdparty/optionparser/optionparser.h:1846-1880 | the first exact match, or else the only abbreviation |
| OptionParser.FindShort | thirdparty/optionparser/optionparser.h:1901-1914 | the first descriptor with the character |
| OptionParser.FindDummy | thirdparty/optionparser/optionparser.h:1928-1938 | the first descriptor for unknown options |
| OptionSyntax.ExactIndex | thirdparty/optionparser/optionparser.h:1846-1880 | a name means the first descriptor it names exactly |
| OptionSyntax.AbbreviatedIndex | thirdparty/optionparser/optionparser.h:1854-1874 | without an exact match an abbreviation means a descriptor if and only if it abbreviates no other |
| OptionSyntax.LongAttached | thirdparty/optionparser/optionparser.h:1882-1893 | `--name=value` gives the option the argument `value` and uses one element |
| OptionSyntax.LongDetached | thirdparty/optionparser/optionparser.h:1894-1898 | `--name value` gives an accepted following element and uses two |
| OptionSyntax.LongAlone | thirdparty/optionparser/optionparser.h:1894-1898 | `--name` whose option declines the following element, or has none, uses one element and has no argument |
| OptionSyntax.LongUnknown | thirdparty/optionparser/optionparser.h:1928-1938 | a name that nothing matches goes to the entry for unknown options, and is skipped without one |
| OptionSyntax.SingleMinusAttached | thirdparty/optionparser/optionparser.h:1846-1893 | `-name=value` likewise where a single minus may begin a long option |
| OptionSyntax.ShortAttached | thirdparty/optionparser/optionparser.h:1901-1925 | `-cvalue` gives the option the argument `value` and uses one element |
| OptionSyntax.ShortDetached | thirdparty/optionparser/optionparser.h:1901-1925 | `-c value` gives an accepted following element and uses two |
| OptionSyntax.ShortFlags | thirdparty/optionparser/optionparser.h:1839-1974 | a group whose options all decline is one option without argument for each character, and uses one element |
| OptionSyntax.ShortIllegal | thirdparty/optionparser/optionparser.h:1942-1945 | an illegal argument is fatal |
| OptionSyntax.AbbreviatesExamples | thirdparty/optionparser/optionparser.h:1505-1519 | the documented examples of abbreviations |
| OptionSyntax.NamesExamples | thirdparty/optionparser/optionparser.h:1474-1481 | the documented examples of names |
| OptionMessages.PassesAgree | thirdparty/optionparser/optionparser.h:1769-2001 | the silent pass finds the options of the other one if and only if every check that the pass asks for has the same effect with and without a message, and then they agree in everything, in both modes |
| OptionMessages.QuietAlike | thirdparty/optionparser/optionparser.h:1942-1945 | so it does for every vector when no check depends on the message flag |
| OptionScan.PosixScan | thirdparty/optionparser/optionparser.h:1787-1821 | in POSIX mode the options are those up to the first non-option argument or `--`, and the vector stays as it is |
| OptionScan.Moved | thirdparty/optionparser/optionparser.h:1557-1567 | in GNU mode the vector is permuted, whatever happens |
| OptionScan.Rescan | thirdparty/optionparser/optionparser.h:1769-2001 | a pass over a rearranged vector finds the same options if and only if each parameter that used no separate argument still uses none where it now stands; and then in the same elements, moving nothing |
| OptionScan.SecondPass | thirdparty/optionparser/optionparser.h:1769-2001 | the exact condition under which the storing pass after a sizing pass in GNU mode finds the same options, in either mode for a legal vector |
| OptionScan.SteadyKept | thirdparty/optionparser/optionparser.h:1769-2001 | it holds of every vector when each option that declines one separate argument declines every one |
| OptionScan.SecondPassDiffers | thirdparty/optionparser/optionparser.h:1769-2001 | a usage and vector where an option takes another argument the second time |
| OptionMessages.LoudChecksDiffer | thirdparty/optionparser/optionparser.h:1942-1945 | a usage and vector where the storing pass finds more |
| OptionParser.TailIgnored | thirdparty/optionparser/optionparser.h:1787-1821 | the options depend on nothing behind the argument that ends them |
| OptionParser.RestIsNonOption | thirdparty/optionparser/optionparser.h:1787-1821 | the options end at the end, at a non-option argument, or behind a `--` |
| OptionStorage.AppendLinks | thirdparty/optionparser/optionparser.h:738-747 | appending a single cell to a circle of any length gives the circle with that cell last |
| OptionStorage.InsideIff | thirdparty/optionparser/optionparser.h:1698-1706 | the list of an index is inside an array if and only if the index is below its length and at most 2^31 - 1 |
| OptionStorage.StoreKeeps | thirdparty/optionparser/optionparser.h:1687-1710 | storing one option whose signed list index is inside the array keeps the buffer its sequence of options and every list its in-order subsequence |
| OptionActions.Action.First | thirdparty/optionparser/optionparser.h:613-621 | from any option of a list the search ends at its head; an unused option is its own first |
| OptionActions.Action.Last | thirdparty/optionparser/optionparser.h:647-650 | the last option of the list; an unused option is its own last |
| OptionActions.Action.Length | thirdparty/optionparser/optionparser.h:564-574 | the number of options in the list, 0 for an unused one |
| OptionActions.Action.Occurrences | thirdparty/optionparser/optionparser.h:564-574 | counting through `options[k]` gives the number of parsed options of index k, for every k |
| OptionActions.Action.Append | thirdparty/optionparser/optionparser.h:738-747 | called on any option of a list, puts the new one last by the four link assignments |
| OptionActions.Action.Store | thirdparty/optionparser/optionparser.h:1666-1685 | storing starts at the first empty slot of the buffer |
| OptionActions.Action.Put | thirdparty/optionparser/optionparser.h:1687-1710 | after storing an option through its signed list index the arrays hold exactly one more, and every list is intact |
| OptionActions.Action.Perform | thirdparty/optionparser/optionparser.h:1632-1710 | counts or stores an option, drops it when the buffer is full, refuses it at the limit |
| OptionActions.CountedAll | thirdparty/optionparser/optionparser.h:1632-1640 | the sizing pass counts every option up to the limit |
| OptionActions.StoredAll | thirdparty/optionparser/optionparser.h:1687-1710 | the storing pass keeps exactly the first options there is room for, and fails only at the limit |
| OptionPasses.DoGroup | thirdparty/optionparser/optionparser.h:1839-1974 | a group of short options is performed as its meaning says |
| OptionPasses.DoElement | thirdparty/optionparser/optionparser.h:1823-1980 | so is any parameter, and a separate argument is used up with it |
| OptionPasses.Shift | thirdparty/optionparser/optionparser.h:1557-1567 | rotates the element behind the non-option arguments in front of them |
| OptionPasses.Workhorse | thirdparty/optionparser/optionparser.h:1769-2001 | in both modes the loop performs the options of the vector in order until one is refused, for any argument count, leaves the vector exactly as `Final` says, and reports where the non-option arguments begin |
| OptionPasses.FinalMoves | thirdparty/optionparser/optionparser.h:1769-2001 | whatever happens, refusal included, the vector left is a permutation of the one given |
| OptionPasses.NonOptionsRight | thirdparty/optionparser/optionparser.h:1985-2000 | the number of non-option arguments reported is right if and only if the count given does not exceed the vector or the options reach its end |
| OptionPasses.OptionsMax | thirdparty/optionparser/optionparser.h:1753-1763 | the options array has room for every index and a free slot if and only if no index wraps around |
| OptionPasses.Stats.Add | thirdparty/optionparser/optionparser.h:1745-1767 | the sizes grow by what this vector needs; sizing covers every index if and only if none wraps around, and every list access is inside if and only if every index is at most 2^31 - 1 |
| OptionPasses.SizedButOutside | thirdparty/optionparser/optionparser.h:1698-1706 | a descriptor of index 2^31 is sized for and its option found, while its signed list index is outside every array |
| OptionPasses.Parser.ParseArgs | thirdparty/optionparser/optionparser.h:1730-1743 | where every signed list index is inside, new options are added behind those already stored, inside both arrays, with every list the in-order subsequence of its index |
| OptionPasses.ParseCommandLine | tools/ddsrouter_tool/src/cpp/user_interface/arguments_configuration.cpp:205-208 | arrays of the computed sizes hold all options, the options array ends with a free slot, and the buffer does if and only if the options stay below the limit |

## Left out

- OptionPasses.ParseCommandLine: in GNU mode only for fewer than 2^31 - 1 options, because a sizing pass that reaches that limit stops in the middle of rearranging the vector.
- RpcTheorems.ServersHaveRegistries: one direction only, because nothing calls `ServiceRegistry::disable`.
- PayloadRuns.CountersExact: treats each call as one step; the decrement and the zero test of the fast pool are two accesses, so two interleaved releases are not covered.
- TrackTheorems.NoLostWakeup: for runs without a disable, because the claim is false beyond them; ServedIff covers the others.
- Owner bookkeeping of cache changes in PayloadPool.cpp, and the payload release inside RPCBridge::transmit_: field-by-field plumbing.
- The overflow of the 64-bit reserve and release counters of the pools.
- Destructors, `exit_`, failed creation of endpoints and bridges, and the stop and callback-clearing of the discovery database.
- Thread-pool scheduling, SlotThreadPool and DBQueue internals, and weak memory.
- Wildcard matching itself: filters are any relation `matches` with a sound `contains`. The one filter in the repository has a `contains` that is always false (WildcardDdsFilterTopic.cpp), for which simplifying keeps every filter.
- `AllowedTopicList::operator ==` as equality of meaning: it compares printed forms, so a reload takes its answer as a parameter.
- The choice between topic and service for a discovered endpoint, and the names in RPCTopic.cpp: string classification.
- YAML reading, configuration validity, addresses, DNS, TLS, domain ids and participant kinds: single-branch checks.
- DiscoveryServerParticipant and InitialPeersParticipant: attribute building over Fast DDS descriptors.
- File watching, `main`, event handlers, logging, stream printing and `printUsage`: input and output.
