# fips2go, modelled and proved

This project models the data path of the fips2go VPN (the Rust shim and the few Kotlin classes with logic of their
own) and proves what it keeps. Each file stands for one component; `dafny verify dfyconfig.toml` checks them all.

Concurrent components come as two modules. The first is the protocol: a state, the atomic steps of each thread,
`Enabled`, `Next` and `Run`, one inductive invariant proved part by part, and the results about every run. The second
is the code: a class with the component's own fields and the threads' loops and calls as they are written, with scripts
of what the other threads do between two accesses. Its history is a run of the protocol, so what is proved of all runs
holds of it. Failures, timeouts, schedules and what the outside world answers are choices in the events.
The engine's protocol takes one retirement of a pump generation as a step that succeeds, fails or abandons its
threads; PumpEngine.dfy proves that every run of the pump's own protocol is such a step.

Sequential components are functions that specify a result, the loops that compute it, and lemmas that relate the
result to an independent reading of it: the standard it implements, its inverse, or the history it stands for.

| file | component |
|---|---|
| Pump.dfy, PumpThreads.dfy | TUN reader and writer generations and the swap of their fd |
| PumpQueue.dfy | what becomes of packets queued while a generation is retired |
| PumpEngine.dfy | the pump's runs as the engine's steps |
| Engine.dfy, EngineSlot.dfy | start, stop and rebind of the engine: its slot, its two flags, its lock, its dups |
| Rebind.dfy | the service's rebind worker and the shim call it serves |
| Firewall.dfy | the bounded, expiring flow table of the inbound firewall |
| Pipe.dfy, RelayPipe.dfy | the byte pipe between a loopback connection and a relay on the mesh |
| Divert.dfy | in-process flows: their keys, their table, the counter of the fast path |
| Dns.dfy | DNS messages as the proxy rewrites them, and as section 4.1 of RFC 1035 reads them |
| Early.dfy | the race between the upstreams and a lookup released before it decided |
| Packet.dfy | IPv6/UDP packets: build, checksum, parse |
| Chunked.dfy, Response.dfy | chunked bodies, and when a response counts as whole |
| Bech32.dfy | the checksum of isNpub |
| Hosts.dfy | the mesh-names file and the two lists it refines |
| Bytes.dfy, AsciiText.dfy | octets and 16-bit words; ASCII white space and case |

## Where the code and its promises differ

- A stop that times out, or a bridge that cannot be spawned, lets an fd be closed under a running thread
  (`PumpProtocol.TimeoutBreaksFdSafety`, `PumpProtocol.BridgeFailureBreaksFdSafety`). That happens exactly if the last
  close comes before both threads are done (`PumpProtocol.FdSafetyIff`).
- The comment in `stop_io` (shim/src/pump.rs:362-363) says that queued packets still get written. The retired
  generation writes them exactly if they are no more than the one packet its writer is already at
  (`PumpQueue.QueuedWrittenIff`, `PumpQueue.NotWrittenByRetired`). After a swap the next generation writes the rest
  (`PumpQueue.DrainRun`, `PumpQueue.WrittenByNext`); at a shutdown there is none, and they are lost
  (`PumpQueue.LostAtShutdown`).
- A rebind worker that throws may leave a request unserved (`RebindProtocol.ThrowLosesRequest`), exactly if one is
  flagged when it throws (`RebindProtocol.ThrowLosesIff`).
- The comment at shim/src/meshtcp.rs:481-482 says that our side is closed once our bytes are out. So it is exactly if
  nothing waits when the relay finishes or the local side closes too (`PipeProtocol.PromiseKeptIff`,
  `PipeProtocol.FinishedRelayLeftOpen`).
- A response that is chunked and also has a Content-Length may be taken as whole before its chunks are there, and
  then fails as cut short (`Response.EarlyFinishIff`, `Response.TakenTooEarly`, `Response.BothHeadersFail`).
- A UDP payload above 65527 octets is built into a packet whose length fields are truncated and that does not parse
  back (`Packet.RoundTripIffFits`).

## Model

| member | source | states |
|---|---|---|
| PumpProtocol.Delivery | shim/src/pump.rs:304-326 | in every run, over any number of swaps, what was sent is what the writers took for the successive fds, in order and once each, then the packet in hand, then the queue; a failed write is the last of its fd |
| PumpProtocol.RetiringWriterAdvances | shim/src/pump.rs:353-375 | a writer asked to stop is never stuck in recv, each of its steps brings it nearer its end, and it writes at most one more packet |
| PumpProtocol.RetirementIsNotUndone | shim/src/pump.rs:353-375 | no other thread revives a generation that was asked to stop |
| PumpProtocol.RetiringReaderAdvances | shim/src/pump.rs:419-441 | a woken reader can always go on and each step brings it nearer its end |
| PumpProtocol.LiveWriterKeepsRunning | shim/src/pump.rs:304-309 | sentinels left by earlier generations stop no live writer |
| PumpProtocol.AtMostOneLateWrite | shim/src/pump.rs:361-363 | at most one packet is written to an fd after its generation's flag was cleared |
| PumpProtocol.FdSafetyIff | shim/src/pump.rs:353-375 | in every run, whatever times out or fails, the fd under a running thread is open exactly until the last close, unless both threads are done by then |
| PumpProtocol.MayTurnUnsafeIff | shim/src/pump.rs:367-371 | a state can come to a closed fd under a thread without a further timeout exactly if a thread was abandoned and still runs |
| PumpProtocol.FdSafety | shim/src/pump.rs:353-375 | so if no stop times out and the bridge spawns, no thread is at a closed fd and no dup is leaked |
| PumpProtocol.TimeoutBreaksFdSafety | shim/src/pump.rs:367-371 | a run in which a timed-out stop leaves the reader polling a closed fd |
| PumpProtocol.BridgeFailureBreaksFdSafety | shim/src/pump.rs:146-185 | a run in which a bridge that cannot be spawned leaves the reader polling a closed fd |
| PumpProtocol.OnlyDetachingDetaches | shim/src/pump.rs:367-371 | threads are abandoned by a timeout or a failed bridge spawn and by nothing else |
| PumpProtocol.WriterKeepsInv | shim/src/pump.rs:304-326 | every step of the writer keeps the pump's invariant |
| PumpProtocol.ReaderKeepsInv | shim/src/pump.rs:419-470 | every step of the reader keeps it |
| PumpProtocol.ControlKeepsInv | shim/src/pump.rs:206-245 | every step of swap, stop and spawn keeps it, failures and timeouts included |
| PumpProtocol.RunKeepsInv | shim/src/pump.rs:117-245 | so does every run |
| PumpQueue.QueuedWrittenIff | shim/src/pump.rs:361-364 | from the clearing of its flag on, a generation takes for its fd all that was waiting exactly if that is no more than the one packet its writer is already at |
| PumpQueue.NotWrittenByRetired | shim/src/pump.rs:362-363 | a run of a swap in which two packets queued before it are not written by the retired generation |
| PumpQueue.WrittenByNext | shim/src/pump.rs:202-203 | and in which the next generation writes both to the new fd |
| PumpQueue.LiveWriterDrains | shim/src/pump.rs:304-326 | a live writer is stuck on an empty channel only, and each of its steps brings it nearer to one |
| PumpQueue.OthersKeepDraining | shim/src/pump.rs:304-326 | no other thread but a sender sets it back while it is live |
| PumpQueue.DrainRun | shim/src/pump.rs:304-326 | left alone it writes all that waits to its fd, once each and in order |
| PumpQueue.RestIsLost | shim/src/pump.rs:220-245 | once the channel's receiver is dropped, all that no writer took is lost |
| PumpQueue.LostAtShutdown | shim/src/pump.rs:220-245 | a run of a shutdown in which two queued packets are lost |
| PumpEngine.SpawnRefines | shim/src/pump.rs:117-195 | every run of the pump's spawn is the engine's step of that outcome: an engine on that fd, or abandoned threads and a dup to close |
| PumpEngine.SwapRefines | shim/src/engine.rs:525-540 | every run of the pump through a swap is the engine's step of that outcome: the threads left are users it counts, the old fd's exactly if they were abandoned, and the dup closed is the one it closes |
| PumpEngine.JoinRefines | shim/src/engine.rs:404-428 | so is every run through a shutdown, for the engine's join |
| PumpThreads.Pump.WriterThread | shim/src/pump.rs:304-331 | the writer's loop, whatever the others do between its accesses, is a run of the protocol; it ends with its marker or waits in recv on an empty channel |
| PumpThreads.Pump.ReaderThread | shim/src/pump.rs:406-521 | so is the reader's, round by round, and it ends with its marker |
| PumpThreads.Pump.StopIo | shim/src/pump.rs:353-375 | flag, wake, sentinel and the wait for both markers come back with both threads done and joined, or with both abandoned |
| PumpThreads.Pump.SpawnOn | shim/src/pump.rs:250-346 | spawn_io leaves both threads on the new fd or, half started or not, none at all |
| PumpThreads.Pump.SwapFd | shim/src/pump.rs:206-215 | swap_fd between the engine's dup and close: afterwards only the fd in use is open, the new one or, on an fd-less pump, the engine's, and no thread is at a closed one |
| PumpThreads.Pump.Stop | shim/src/pump.rs:220-245 | join and the engine's close leave no dup open, and no thread at a closed fd exactly if both are done, as they are if the wait was not given up |
| PumpThreads.Pump.SpawnBridge | shim/src/pump.rs:146-185 | without its bridge the pump is gone, and no thread at a closed fd exactly if both are done |
| RebindProtocol.LostIff | android/app/src/main/java/org/fips/android/FipsVpnService.kt:1061-1080 | with no further call, request or throw, some schedule leaves a request over exactly if one is flagged and a worker is dying with the slot or nobody is going to look |
| RebindProtocol.LostForSureIff | android/app/src/main/java/org/fips/android/FipsVpnService.kt:1061-1080 | and every schedule does exactly if one is flagged and nobody is going to look |
| RebindProtocol.ThrowLosesIff | android/app/src/main/java/org/fips/android/FipsVpnService.kt:1077-1080 | so a throw may cost a request exactly if one is flagged when it happens |
| RebindProtocol.NoRequestLost | android/app/src/main/java/org/fips/android/FipsVpnService.kt:1054-1082 | if no worker threw no schedule loses a request; once every thread is done none is left and a pass started after the last one |
| RebindProtocol.OneWorkerAndNoDrop | android/app/src/main/java/org/fips/android/FipsVpnService.kt:1056-1075 | at most one worker in every run, so the shim's drop-if-busy branch is never taken |
| RebindProtocol.ThrowLosesRequest | android/app/src/main/java/org/fips/android/FipsVpnService.kt:1077-1080 | a run in which a worker that throws leaves a request unserved |
| RebindProtocol.StepsRunOut | android/app/src/main/java/org/fips/android/FipsVpnService.kt:1061-1076 | every step that is not a new request lowers a measure of the work left |
| RebindProtocol.SettlesDown | android/app/src/main/java/org/fips/android/FipsVpnService.kt:1061-1076 | without new requests a run is bounded and can go on until all that is left is threads about to ask |
| RebindProtocol.StepKeepsOneWorker | android/app/src/main/java/org/fips/android/FipsVpnService.kt:1056-1080 | the slot is taken exactly while one thread owns it |
| RebindProtocol.StepKeepsSomeoneLooks | android/app/src/main/java/org/fips/android/FipsVpnService.kt:1071-1074 | a set flag always has a thread that will look at it, the release race included |
| RebindProtocol.StepKeepsShimFree | shim/src/engine.rs:452-457 | the shim's flag is taken only while the worker is inside the call |
| RebindService.Service.RebindNode | android/app/src/main/java/org/fips/android/FipsVpnService.kt:1054-1060 | a callback, with the worker it may start and whatever others do meanwhile, is a run of the protocol to its end |
| RebindService.Service.Worker | android/app/src/main/java/org/fips/android/FipsVpnService.kt:1061-1080 | the worker's loop, throws included, ends whatever requests come meanwhile |
| RebindService.Service.NetworkChanged | shim/src/engine.rs:452-496 | the shim's call takes its flag or is turned away, and gives it back after whatever others do meanwhile |
| RebindService.Serve | android/app/src/main/java/org/fips/android/FipsVpnService.kt:1054-1082 | any number of callbacks, interleaved with others, end with no request left over unless one threw |
| EngineProtocol.DupsBalance | shim/src/engine.rs:272-277 | in every run no dup is closed twice and the open ones are the stored engine's and the lock holder's |
| EngineProtocol.StoredEngineIsWhole | shim/src/engine.rs:507-542 | with LIFECYCLE free, a stored engine's pump runs on the engine's own dup and no start is in progress |
| EngineProtocol.DeadBranches | shim/src/engine.rs:144-152 | the swap's expect never fails, "start already in progress" is never returned, one caller at a time is inside |
| EngineProtocol.ResultIsTrue | shim/src/engine.rs:144-165 | what a call reports about the engine is so when it reports it |
| EngineProtocol.SlotKeptDuringSwap | shim/src/engine.rs:516-530 | whoever reads the slot during a swap finds the node it keeps |
| EngineProtocol.ClosedUnderThreadIff | shim/src/engine.rs:404-428 | in every run no reader or writer has a closed fd exactly if no abandoned one still runs on such; with LIFECYCLE free, exactly if every abandoned one has ended |
| EngineProtocol.NobodyOnClosedFd | shim/src/engine.rs:404-428 | so if no stop times out and the bridge spawns, none ever has |
| EngineProtocol.NoDeadlock | shim/src/engine.rs:452-501 | whenever a call is unfinished, some call can go on |
| EngineProtocol.CallsEnd | shim/src/engine.rs:134-165 | every step brings its own call nearer its end and touches no other call |
| EngineProtocol.KeepsNodeIff | shim/src/engine.rs:474-493 | a rebind keeps the node exactly if the config is the stored one and dup and swap succeed; then only the fd is new and the old one is closed |
| EngineProtocol.StartKeepsLedger | shim/src/engine.rs:272-371 | every outcome of a start accounts for its dup |
| EngineProtocol.StopKeepsLedger | shim/src/engine.rs:404-428 | so does a stop |
| EngineProtocol.SwapKeepsLedger | shim/src/engine.rs:507-542 | so does a swap, failed or not |
| EngineProtocol.StepKeepsOneHolder | shim/src/engine.rs:72-75 | LIFECYCLE has one holder at most |
| EngineProtocol.StepKeepsOneRebind | shim/src/engine.rs:452-496 | REBINDING is set exactly while one rebind is past its swap of it |
| EngineSlot.Shim.StartLocked | shim/src/engine.rs:144-165 | start_locked under the lock is a run of the protocol to its result; a started engine is the one in the slot, with the asked config |
| EngineSlot.Shim.StartInner | shim/src/engine.rs:167-396 | start_inner builds an engine on its own dup or closes it on each failure |
| EngineSlot.Shim.StopLocked | shim/src/engine.rs:404-428 | stop_locked empties the slot, joins the pump and closes the dup behind it |
| EngineSlot.Shim.SwapTunLocked | shim/src/engine.rs:507-542 | swap_tun_locked keeps the node on the new dup or leaves it to be rebuilt, and its expect never fails |
| EngineSlot.Shim.NetworkChangedLocked | shim/src/engine.rs:458-495 | the rebuild under the lock runs to its result: swap, or stop and start |
| EngineSlot.Shim.Start | shim/src/engine.rs:134-141 | a start among other callers ends, and what it reports is so when it lets go of the lock |
| EngineSlot.Shim.Stop | shim/src/engine.rs:398-401 | so does a stop, with the slot empty |
| EngineSlot.Shim.NetworkChanged | shim/src/engine.rs:452-501 | so does a rebind, unless REBINDING turns it away |
| FlowTable.SameFlowIffReversed | shim/src/filter.rs:119-131 | a received packet has a sent one's key exactly if protocol, addresses and ports are the reversed tuple |
| FlowTable.TableBounded | shim/src/filter.rs:135-143 | no run holds more than MAX_FLOWS entries |
| FlowTable.UnboundedAdmitsIffChain | shim/src/filter.rs:147-176 | without the bound, a packet is admitted exactly if an outbound packet and activity of its flow with every gap below the idle limit lead up to it |
| FlowTable.BoundedWithinUnbounded | shim/src/filter.rs:119-144 | the bounded table only ever forgets |
| FlowTable.AdmittedIsJustified | shim/src/filter.rs:147-176 | whatever the table admits is led up to by a chain of its flow's outbound packets and of inbound ones this same table admitted, with every gap below the idle limit; the unbounded table admits it too |
| FlowTable.SameWhileFewFlows | shim/src/filter.rs:36-39 | with at most MAX_FLOWS flows of outbound packets in all, both tables are the same |
| FlowTable.EveryFlowAccounted | shim/src/filter.rs:135-143 | a flow's last activity is in the table, out of time, or followed by that of MAX_FLOWS other flows |
| FlowTable.TimelyReplyAdmitted | shim/src/filter.rs:165-168 | a reply within the idle limit is admitted unless MAX_FLOWS other flows were active since |
| InboundFirewall.InboundFilter.NoteOutbound | shim/src/filter.rs:119-144 | the table after an outbound packet is one its history allows, and holds the packet's flow at this instant |
| InboundFirewall.InboundFilter.AllowInbound | shim/src/filter.rs:147-176 | admitted exactly if ICMPv6, allowlisted, or in the table and within the idle limit; the table follows |
| InboundFirewall.FindOldest | shim/src/filter.rs:139-141 | the entry evicted is one with the earliest time |
| PipeProtocol.BytesAreInOrder | shim/src/meshtcp.rs:414-458 | the mesh socket is given a prefix of the admitted head and the local bytes in read order; the local side a prefix of what arrived |
| PipeProtocol.BacklogIsExact | shim/src/meshtcp.rs:220-243 | until the teardown the backlog is reader-held plus in-channel plus to_mesh minus the head's rest, crediting never saturates, and limit plus one read is never exceeded |
| PipeProtocol.HeldBackForReason | shim/src/meshtcp.rs:227-237 | a reader held back has more than the limit waiting ahead of it, and after the teardown is never held back |
| PipeProtocol.ClosedOnceAndDrained | shim/src/meshtcp.rs:445-448 | the mesh socket is closed once at most, never with a byte waiting, and gets nothing after |
| PipeProtocol.FinFollowsEverything | shim/src/meshtcp.rs:445-448 | after a local close its FIN follows the head and every local byte |
| PipeProtocol.ShutBehindEverything | shim/src/meshtcp.rs:481-495 | the local write side is shut once at most and only behind everything the relay sent |
| PipeProtocol.ClosedAfterFinishIff | shim/src/meshtcp.rs:445-495 | in every run on from the step that passes the relay's end of stream on, our side is closed exactly if it was by then, nothing waited for it, or a later pass found the local side closed and nothing waiting |
| PipeProtocol.PromiseKeptIff | shim/src/meshtcp.rs:481-482 | a later pass that finds nothing waiting leaves our side closed, as the comment promises, exactly if nothing waited when the relay finished or the local side has closed since |
| PipeProtocol.OpenUntilLocalCloses | shim/src/meshtcp.rs:445-448 | left open then, it is closed by nothing but a local close |
| PipeProtocol.FinishedRelayLeftOpen | shim/src/meshtcp.rs:481-482 | behind any head, with more bytes read than the 64 KiB send buffer holds: a run in which the relay finishes, the rest goes out later, and the mesh side stays open |
| PipeProtocol.StepKeepsInv | shim/src/meshtcp.rs:405-544 | every step of reader, loop and teardown keeps the pipe's invariant |
| RelayPipe.Pipe.Add | shim/src/meshtcp.rs:227-237 | the wait for room, whatever the loop does meanwhile: it ends counted or, once the pipe is done, given up, and goes on only while more than the limit is on its way ahead |
| RelayPipe.Pipe.ReaderThread | shim/src/meshtcp.rs:285-317 | the reader's loop is a run of the protocol that reads in order and ends, waits for room with a reason, or reads on |
| RelayPipe.Pipe.CreditSent | shim/src/meshtcp.rs:238-242 | crediting takes off exactly what was sent; the subtraction never saturates |
| RelayPipe.Pipe.SendLoop | shim/src/meshtcp.rs:433-444 | the loop over slices ends with nothing waiting or no room in the socket |
| RelayPipe.Pipe.ReceiveLoop | shim/src/meshtcp.rs:449-457 | the loop over what arrived ends at the limit or with nothing left |
| RelayPipe.Pipe.WriteLoop | shim/src/meshtcp.rs:458-479 | the loop that writes it to the local side, which may block or fail |
| RelayPipe.Pipe.ShutFinished | shim/src/meshtcp.rs:483-495 | the relay's end of stream passed on exactly if it has finished, and our side closed with it exactly if nothing waits |
| RelayPipe.Pipe.Pass | shim/src/meshtcp.rs:405-543 | one pass of the loop is a run of the protocol, back to its top or to its return |
| RelayPipe.Pipe.Finish | shim/src/meshtcp.rs:343-346 | the teardown after the loop returned |
| RelayPipe.Pipe.Carry | shim/src/meshtcp.rs:246-346 | pass by pass and through the teardown, with the byte orders that follow |
| FlowKeys.RepliesShareKey | shim/src/meshhttp.rs:146-163 | a reply, an ICMPv6 error quoting the packet and an echo reply all have the key of the flow the packet was sent from |
| FlowKeys.KeyNamesSender | shim/src/meshhttp.rs:146-163 | what comes back answers packets of one flow only |
| DivertProtocol.PickFailsIffExhausted | shim/src/meshhttp.rs:95-115 | the port search fails exactly if all 4536 local ports towards that remote port are taken |
| DivertProtocol.RefusedIffExhausted | shim/src/meshhttp.rs:95-115 | so does open, in any interleaving |
| DivertProtocol.CounterIsOpenAndDropping | shim/src/meshhttp.rs:95-139 | the counter is the open flows plus the drops between removal and decrement, and never wraps |
| DivertProtocol.FastPathSkipsNothing | shim/src/meshhttp.rs:77-80 | a claim that skips the table skips no flow whose open has returned |
| DivertProtocol.OpenFlowGetsPacket | shim/src/meshhttp.rs:77-92 | a packet with the key of an open flow goes to that flow, whatever else runs |
| DivertProtocol.ClaimedOnceInItsFlow | shim/src/meshhttp.rs:84-92 | a claimed packet is queued once, to the one flow with its key, and nowhere else |
| DivertProtocol.QueuedInClaimOrder | shim/src/meshhttp.rs:84-92 | what a flow receives is what claims sent to it, in claim order |
| DivertProtocol.PacketUnchanged | shim/src/meshhttp.rs:77-92 | a claim hands on or gives back its own packet |
| DivertProtocol.StepKeepsInv | shim/src/meshhttp.rs:74-140 | every step of open, claim and drop keeps table, counter, lock and queues in agreement |
| DivertTable.Divert.FindKey | shim/src/meshhttp.rs:97-104 | the search loop finds a free key with a local port in range, or none if all are taken |
| DivertTable.Divert.Open | shim/src/meshhttp.rs:95-115 | open among other callers, the lock held over search and insert, is a run of the protocol to an open flow or a refusal |
| DivertTable.Divert.Claim | shim/src/meshhttp.rs:77-92 | so is claim, which queues its packet or gives it back |
| DivertTable.Divert.Drop | shim/src/meshhttp.rs:135-140 | so is the guard's drop; the counter is positive when it is decremented |
| DnsMessage.QuestionEndLoop | shim/src/dns.rs:341-351 | the loop over the question's labels ends where the walk does |
| DnsMessage.AnswerAsAskedLoop | shim/src/dns.rs:383-418 | the loop over the reply's records computes the specified answer on every octet string |
| DnsMessage.CollectAddresses | shim/src/dns.rs:390-415 | exactly the 16-octet AAAA records are appended, in order, and counted |
| DnsMessage.ReissuedMessage | shim/src/dns.rs:383-418 | read by section 4.1.4 of RFC 1035, the answer has the query's id and question, the reply's flags and its addresses under the asked name |
| DnsMessage.ReissueIsIdempotent | shim/src/dns.rs:383-418 | re-issuing a re-issued answer changes nothing |
| DnsMessage.ReplyIsReissued | shim/src/dns.rs:378-382 | a well-formed reply is re-issued: its addresses in order under the asked name |
| DnsMessage.QuestionIsName | shim/src/dns.rs:341-351 | the question the walk accepts is a name without pointers, a type and a class |
| DnsMessage.NameEndAgrees | shim/src/dns.rs:392-404 | wherever a name reads, the walk over owner names ends in the same place |
| DnsMessage.QnameLoop | shim/src/dns.rs:311-337 | the loop over the question's name computes the specified text |
| DnsMessage.QnameIsName | shim/src/dns.rs:308-337 | that text is the name's labels joined in lower case |
| DnsMessage.NpubQueryReads | shim/src/dns.rs:365-376 | the re-asked query reads as one question for the npub's name with id, flags, type and class unchanged |
| DnsMessage.ServfailFor | shim/src/dns.rs:422-437 | the query edited in place into its error response |
| DnsMessage.ServfailReads | shim/src/dns.rs:420-437 | that response has RCODE 2, QR set, AA clear, no records, and the question reads as before |
| Packet.UdpChecksum | shim/src/packet.rs:33-53 | the stored checksum is never zero |
| Packet.Fold | shim/src/packet.rs:46-48 | folding terminates, keeps the value modulo 0xffff and is zero for zero only |
| Packet.ChecksumVerifies | shim/src/packet.rs:33-53 | pseudo-header and segment sum to 0xffff, for odd and even lengths (section 8.1 of RFC 8200) |
| Packet.BuiltPacketVerifies | shim/src/packet.rs:4-31 | so do those of every built packet |
| Packet.RoundTripIffFits | shim/src/packet.rs:67-86 | a built packet parses back to its addresses, ports and payload exactly if the payload is at most 65527 octets |
| Packet.WireParses | shim/src/packet.rs:67-86 | every IPv6 frame that holds a whole datagram parses to its addresses, ports and payload, whatever else the frame says |
| Packet.ParsedIsWire | shim/src/packet.rs:67-86 | and whatever parses is such a frame |
| Packet.AddWords | shim/src/packet.rs:35-40 | the word loop adds up the words whenever their sum fits 32 bits |
| Packet.ShortIsSummable | shim/src/packet.rs:33-53 | as that of every packet with up to 131026 octets of payload does |
| Packet.UdpChecksumLoop | shim/src/packet.rs:33-53 | the loops compute the specified checksum |
| Packet.BuildIpv6Udp | shim/src/packet.rs:4-31 | the packet built step by step verifies and parses back |
| LinearChecksum.Code.PolymodIsLinear | android/app/src/main/java/org/fips/android/ConfigStore.kt:377-381 | the checksum of a difference is the difference of the checksums |
| LinearChecksum.Code.SameChecksumSameWord | android/app/src/main/java/org/fips/android/ConfigStore.kt:377-381 | words with one checksum that differ in one window only are equal, for any such code |
| Bech32.IsLinear | android/app/src/main/java/org/fips/android/ConfigStore.kt:376-381 | the polymod step is linear |
| Bech32.KeepsAt | android/app/src/main/java/org/fips/android/ConfigStore.kt:376-381 | on 30-bit registers the step on a zero symbol has no kernel |
| Bech32.DetectsBursts | android/app/src/main/java/org/fips/android/ConfigStore.kt:376-381 | the code loses no difference within six symbols |
| Bech32.BurstsAreDetected | android/app/src/main/java/org/fips/android/ConfigStore.kt:367-383 | isNpub never accepts two strings that differ only within six consecutive characters |
| Bech32.AddGenerators | android/app/src/main/java/org/fips/android/ConfigStore.kt:380 | the inner loop adds the generators of the top bits |
| Bech32.Checksum | android/app/src/main/java/org/fips/android/ConfigStore.kt:375-381 | the outer loop computes the polymod |
| Bech32.CheckNpub | android/app/src/main/java/org/fips/android/ConfigStore.kt:368-383 | accepted exactly if length, prefix, characters and checksum are right |
| Chunked.DechunkLoop | shim/src/meshhttp.rs:564-581 | the loop computes the specified decoding on every octet string and terminates |
| Chunked.DechunkInverts | shim/src/meshhttp.rs:564-581 | every chunked encoding decodes to its body, whatever trails it (section 7.1 of RFC 9112) |
| Chunked.AcceptedIsEncoded | shim/src/meshhttp.rs:564-581 | and whatever decodes is such an encoding of its body |
| Chunked.CutIsError | shim/src/meshhttp.rs:567-579 | an encoding cut before the end of its last-chunk line is an error, never a shorter body |
| Chunked.EverySizeHasLines | shim/src/meshhttp.rs:571-573 | every size has size lines, in either case of its digits and with any extension |
| Response.EarlyFinishIff | shim/src/meshhttp.rs:523-561 | with the header readers as written, finishing on Content-Length is final exactly if no chunk of a chunked body is missing |
| Response.WrittenReads | shim/src/meshhttp.rs:517-555 | the header block of a written response is read back: its end, its lines, its status, whatever body follows |
| Response.TakenTooEarly | shim/src/meshhttp.rs:531-561 | every response with both headers and a length short of its chunked body is taken as complete too early, fails as cut short, and parses once the rest is there |
| Response.BothHeadersFail | shim/src/meshhttp.rs:531-561 | such a response, octet by octet |
| Response.DecodedStays | shim/src/meshhttp.rs:564-581 | a body that decodes or has a bad size does so whatever follows |
| Response.CutCanGoOn | shim/src/meshhttp.rs:564-581 | a body cut short always has a continuation that is not |
| EarlyRelease.Decision.Ask | shim/src/names.rs:389-405 | the decision comes out once, at the first ask that finds it made |
| EarlyRelease.Race | shim/src/dns.rs:189-243 | the race in closed form: an unclamped legacy reply only after a legacy decision, no reply only if the upstreams gave none and no fips answer was seen |
| EarlyRelease.ServeReleased | shim/src/dns.rs:189-243 | the loop's result is the race's, a decision handed over is the one acted on, none goes unseen before the last ask there is, at most one inline round and only if no fetch is alive, and a fips answer waits for no upstream |
| EarlyRelease.Serve | shim/src/dns.rs:136-246 | every outcome of the lookup is answered as it should be, with at most one inline round |
| EarlyRelease.SoonerIsSeen | shim/src/names.rs:96-116 | a decision that comes sooner is acted on the same, as if the lookup had settled |
| EarlyRelease.LaterIsNever | shim/src/dns.rs:189-224 | a decision that is not seen might as well never come, and no later one is seen |
| HostsText.SplitCanonical | android/app/src/main/java/org/fips/android/HostsStore.kt:53-66 | the file written for some entries and a block splits into just those |
| HostsText.ParsedAfter | android/app/src/main/java/org/fips/android/HostsStore.kt:71-84 | later entries replace those of the same name and come last, in their order |
| HostsText.ReadsBack | android/app/src/main/java/org/fips/android/HostsStore.kt:87-119 | what is read is what the file holds; the synced entry wins on a duplicate name |
| HostsText.SaveHeld | android/app/src/main/java/org/fips/android/HostsStore.kt:122-128 | saving the user's entries keeps the block |
| HostsText.SyncHeld | android/app/src/main/java/org/fips/android/HostsStore.kt:136-151 | syncing a block keeps the user's entries |
| HostsText.SyncChangesIff | android/app/src/main/java/org/fips/android/HostsStore.kt:148-150 | a sync changes the file exactly if master, label or entries are others |
| HostsText.FileLinesOfText | android/app/src/main/java/org/fips/android/HostsStore.kt:54 | what is written reads back line by line |
| HostsStore.Store.ParseLines | android/app/src/main/java/org/fips/android/HostsStore.kt:71-84 | the loop over lines computes the specified entries |
| HostsStore.Store.Load | android/app/src/main/java/org/fips/android/HostsStore.kt:87-91 | returns the user's list the file refines |
| HostsStore.Store.Effective | android/app/src/main/java/org/fips/android/HostsStore.kt:98-103 | returns the user's entries overridden by the synced ones |
| HostsStore.Store.LoadSynced | android/app/src/main/java/org/fips/android/HostsStore.kt:114-119 | returns the block's master and entries |
| HostsStore.Store.Save | android/app/src/main/java/org/fips/android/HostsStore.kt:122-128 | the file refines the new list and the old block, or is untouched if it could not be replaced |
| HostsStore.Store.SaveSynced | android/app/src/main/java/org/fips/android/HostsStore.kt:136-151 | the file refines the old list and the new block, and reports a change exactly if there is one |
| HostsStore.ApplyEdits | android/app/src/main/java/org/fips/android/HostsStore.kt:87-151 | from no file, any sequence of saves and syncs reads back the last of each that reached the file, and a repeated sync changes nothing |

## Left out

- Packet.UdpChecksumLoop: a sum of words beyond 32 bits, which wraps or panics depending on the build, and a segment whose length a u32 cannot hold.
- Packet.BuildIpv6Udp: the same two.
- Response.ParseResponse: header text is one character per octet; octets that are not UTF-8, which the code replaces, only ever stand for themselves.
- Response.IsComplete: lengths are mathematical integers; the sum of header end and Content-Length does not wrap.
- Chunked.Dechunk: usize is 64 bits and white space around a size is ASCII only; octets that are not UTF-8 are a bad size either way.
- DnsMessage.QnameFrom: the name is kept as code points, its length in UTF-8 octets, as the code counts them.
- AsciiText.Trim: white space in the names file is ASCII only, for String.trim and the regular expressions alike; so is that around header names and values.
- The standard library's and other libraries' own code: sockets, smoltcp, ipstack, tokio, hickory, nostr-sdk, the fips node and pubdom appear as choices, with only the interface the code relies on (PollAllowed in Pipe.dfy for the TCP socket).
- Loops without an end in PumpThreads.dfy, RelayPipe.dfy and Rebind.dfy: scripts are finite, so a thread that works or waits for ever is followed as long as its script lasts; the protocols' runs have no such end.
- Weak memory: atomics are sequentially consistent, and a step is one access to something shared.
- Fairness: progress is stated as a step that can be taken and a measure that falls, not as time.
- The pump's recv error (every sender gone): its own reader context holds a sender, so the branch ends nothing the model distinguishes.
- The bridge's loop: it is one of the senders; its firewall and flow tap are in Firewall.dfy and Divert.dfy.
- Node, DNS proxy and forwarder start-up inside start_inner: one step that succeeds or fails.
- `now` in the firewall is taken with the lock; the code reads the clock just before it.
- The TTL clamp: what it does to the octets; a reply it cannot parse goes out as it came.
- When a lookup is released early, and the slot that starts the fetching thread at most once: the schedule says what came of it.
- The request-head check, URL parsing and accept loop of meshtcp.rs, aaaa_query in meshhttp.rs, config.rs, forward.rs, meshudp.rs, logbuf.rs: they would add easy members only.
- normalizeName and normalizeNpub in HostsStore.kt, and everything else in FipsVpnService.kt and ConfigStore.kt: Android callbacks, preferences and user interface.
