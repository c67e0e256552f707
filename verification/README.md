# Verified model of tailscale-vita

A Dafny model of the parts of tailscale-vita (a Tailscale client for the PlayStation Vita)
whose correctness is hard to see from one function: how map frames from the control plane become
a peer table and its replicas, what the runtime's event loop keeps over every run, how the byte-stream
layers behave under every chunking and interleaving, and what the socket pool, the upload
counter, the FTP jail and session, the SFO writer and the STUN client promise.

Check everything with `dafny verify dfyconfig.toml`.

## How to read it

| file | what it models |
|---|---|
| `Common.dfy`, `ByteStream.dfy` | sequences, octets, big-endian fields; a blocking stream whose chunking, timeouts and end are the environment's choice |
| `NetMap.dfy`, `NetMapIndex.dfy`, `NetMapFrames.dfy` | merging a map frame into the two-index peer table; what the indexes promise each other; what a whole frame does, list by list |
| `Replicas.dfy` | replaying a frame's delta, in another order, onto `peer_regions` and the engine's peers |
| `Lifecycle.dfy`, `Runtime.dfy`, `Login.dfy` | the state tracker, the event loop with its supervisor, the interactive login |
| `Noise.dfy` | records, the stream over them, and the split of the handshake response |
| `Pump.dfy` | the pump thread and the h2 task, one atomic step at a time |
| `DerpFrame.dfy`, `DerpConn.dfy` | the DERP frame codec, its resumable reader, and the connection's I/O loop |
| `Listener.dfy` | the self-healing pool of listening sockets |
| `InFlight.dfy` | the lock-free reservation of in-flight upload bytes |
| `Sfo.dfy` | the PARAM.SFO reader and writer |
| `Vfs.dfy`, `Ftp.dfy`, `FtpSafety.dfy` | FTP path resolution, the session, and what holds over every session |
| `Stun.dfy` | the STUN client against responses described from the server's side |

Where the source updates state in place the model is a class or a method with loops, proved equal to a
function on values; the properties are then lemmas about that function, over every input, run or
reachable state. Straight-line methods that only carry such a function over to fields (those of
`LifecycleTracker`, the handlers of `Session`, `ApplyPatch`, `LogOut`, `HandleEvent`) have no row of their own;
the rows name the lemmas about what they do. Concurrency is a state machine with one step per lock or atomic access. Sockets, disks,
the control plane, time and the scheduler are choices the environment makes, given as arguments. Node
keys are symbolic, and a key or address that does not parse is `None`. The cipher is any pair of functions
where opening what was sealed under the same nonce gives the plaintext back and sealing adds sixteen octets.

Where the code and its own documentation differ the model follows the code:

- A failed logout is documented to keep the prior state. `runtime.rs:840` sets `want_running` on both
  outcomes, so a parked runtime starts running again while the tracker still says `Stopped`
  (`Runtime.FailedLogoutUnparks`, `Runtime.StoppedWhileRunningStays`). When it does keep the state is exact in
  `Runtime.FailedLogoutKeepsIff`.
- A flush that reports readiness means the pump has taken the bytes, not that they were written
  (`Pump.FlushedMeansTaken`, `Pump.FlushReadyTooEarly`).
- A map frame that carries a full set and changed peers, or patches an entry after rekeying it, makes the
  replayed replica differ from the table (`Replicas.BothListsLoseAKey`, `Replicas.RekeyThenPatchIsStale`);
  the exact conditions are `Replicas.KeysFollowFrameIff` and `Replicas.RegionsFollowFrameIff`, the latter read
  off the patches in `Replicas.RegionsFollowPatchesIff`.
- The FTP path jail is documented to map everything under its root. An upload writes to a temporary name next to
  its target, so a `STOR` that resolves to the virtual root writes beside the root, not under it
  (`FtpSafety.StorRootWritesBeside`). Everything else is confined; the exact condition is
  `FtpSafety.EveryTouchConfinedIff`.
- A comment in the FTP session says that the virtual root lists the known devices. The code lists the
  jail root, and so does the model.

## Model

| member | source | states |
|---|---|---|
| `NetMap.NetMap.Apply` | crates/ts-control/src/netmap.rs:264-323 | merging a frame into the two maps is the four phases in order: full set, changed, removed, patches, for some order of the old keys |
| `NetMap.NetMap.ReplacePeers` | crates/ts-control/src/netmap.rs:264-287 | a full set drops exactly the peers it leaves out, forgets the old ids and upserts its own |
| `NetMap.NetMap.UpsertPeers` | crates/ts-control/src/netmap.rs:289-297 | changed nodes are inserted or replaced one by one, those without a usable key skipped |
| `NetMapIndex.UpsertAllGood` | crates/ts-control/src/netmap.rs:289-297 | upserts keep every id leading to a present peer that carries it, if keys stay with their ids |
| `NetMapIndex.RemoveIdsGood` | crates/ts-control/src/netmap.rs:299-306 | removals keep the index sound, unknown ids included |
| `NetMapIndex.PatchAllGood` | crates/ts-control/src/netmap.rs:325-362 | patches keep the index sound and its ids unchanged; exactly the patches that name an unknown id are skipped and all others applied, so the missing-peer branch is never taken |
| `NetMapIndex.ReplaceAllGood` | crates/ts-control/src/netmap.rs:264-287 | a full set leaves a sound index and every key with its owner, whatever the table held before |
| `NetMapIndex.UpsertAllSettles` | crates/ts-control/src/netmap.rs:281-287 | upserting a list sets right every entry whose key it names, whatever stood there |
| `NetMapIndex.DropAbsentPeers` | crates/ts-control/src/netmap.rs:264-280 | the sweep removes exactly the listed keys that the full set does not name, and reports exactly those |
| `NetMapIndex.ApplyFrameGood` | crates/ts-control/src/netmap.rs:264-362 | a whole frame keeps the two indexes in step and skips exactly the patches with unknown ids |
| `NetMapIndex.EveryRunKeepsIndex` | crates/ts-control/src/netmap.rs:264-362 | after every sequence of frames that never moves a key to another node id, each id leads to a present peer that carries it |
| `NetMapIndex.IndexInjective` | crates/ts-control/src/netmap.rs:278-306 | a sound index gives different ids different peers |
| `NetMapIndex.RemovalDropsOnlyItsPeer` | crates/ts-control/src/netmap.rs:299-306 | a removal takes away its own peer and leaves every other id with the same peer as before |
| `NetMapIndex.UpsertKeepsIndexIff` | crates/ts-control/src/netmap.rs:289-297 | an upsert keeps the index sound if and only if no other id leads to the key it brings |
| `NetMapIndex.PatchKeepsIndexIff` | crates/ts-control/src/netmap.rs:325-362 | a patch that brings a key keeps the index sound if and only if no other id leads to that key |
| `NetMapIndex.PatchMovesOneEntry` | crates/ts-control/src/netmap.rs:325-362 | a patch changes one entry: that peer ends up under the patch's key with what the patch names, keeps what it leaves out, and every other entry and id is untouched |
| `NetMapIndex.PatchTwice` | crates/ts-control/src/netmap.rs:325-362 | a patch that arrives twice changes the table once |
| `NetMapIndex.UpsertKeepsReachableIff` | crates/ts-control/src/netmap.rs:289-297 | an upsert keeps every peer reachable by its id if and only if the id is new or keeps its key; otherwise the old entry is stranded |
| `NetMapFrames.RemovalsExact` | crates/ts-control/src/netmap.rs:299-306 | removals take away exactly the ids named and the keys these led to, and report exactly those keys |
| `NetMapFrames.UpsertsLand` | crates/ts-control/src/netmap.rs:280-297 | each key of a node list ends with what the last node of that key says, and each id leads to the key of the last node of that id |
| `NetMapFrames.FrameRemoves` | crates/ts-control/src/netmap.rs:264-362 | every id a frame removes is gone after the whole frame, and so is the key it led to, which is reported; no patch of the frame brings them back |
| `NetMapFrames.FrameKeeps` | crates/ts-control/src/netmap.rs:264-362 | a peer that no list of a frame names keeps its entry, and its id keeps leading to it |
| `NetMapFrames.FrameBrings` | crates/ts-control/src/netmap.rs:289-362 | a changed node is in the table after the whole frame as the frame describes it, unless the frame removes or patches it |
| `NetMapFrames.FrameReplaces` | crates/ts-control/src/netmap.rs:264-362 | so is a node of the full set that the changed nodes do not name again |
| `NetMapFrames.FrameDrops` | crates/ts-control/src/netmap.rs:264-362 | a key that the full set and the changed nodes leave out is gone after the frame |
| `NetMapFrames.FramePatches` | crates/ts-control/src/netmap.rs:264-362 | the only patch of a frame for a known node does to it what that patch alone would do, among any other changes |
| `NetMapFrames.SnapshotOf` | crates/ts-control/src/netmap.rs:455-494 | every field the table keeps of a node, with the fallbacks for missing allowed addresses, home region and online flag |
| `Replicas.UpdatePeerRegions` | crates/tailscale-vita/src/runtime.rs:2419-2445 | the three loops replay a delta onto the region table: upserts, then removals, then rekeys |
| `Replicas.ReplayAt` | crates/tailscale-vita/src/runtime.rs:2419-2445 | what the replay leaves at any one key, in terms of the last rekey, removal and upsert that mention it |
| `Replicas.FrameAt` | crates/tailscale-vita/src/runtime.rs:2419-2445 | merging a frame and replaying its delta agree at a key, its presence and its region, except on keys the frame loses |
| `Replicas.KeysFollowFrameIff` | crates/tailscale-vita/src/runtime.rs:2419-2445 | table and replica have the same keys after a frame if and only if the frame loses no key |
| `Replicas.NothingLost` | crates/ts-control/src/netmap.rs:264-323 | a frame without both a full set and changed peers loses no key |
| `Replicas.RegionsFollowFrameIff` | crates/tailscale-vita/src/runtime.rs:2425-2444 | every home region is right after a frame if and only if no rekeyed entry got another home by a later patch of that frame |
| `Replicas.RegionsFollowPatchesIff` | crates/ts-control/src/netmap.rs:325-362 | the same condition on the frame: every home region is right if and only if no patch gives an entry, after the frame moved it to a new key, a nonzero home other than the one it was moved with |
| `Replicas.HomeAfterMove` | crates/ts-control/src/netmap.rs:325-362 | a moved entry ends with the home it was moved with, or the last one that a later patch names |
| `Replicas.FrameKeepsReplica` | crates/tailscale-vita/src/runtime.rs:2419-2445 | one frame keeps the replica covering the table, with right regions if nothing is patched after being rekeyed |
| `Replicas.SessionKeysAgree` | crates/tailscale-vita/src/runtime.rs:2419-2445 | over every sequence of frames of a session that began empty, replica keys equal table keys |
| `Replicas.ReplicaCoversTable` | crates/ts-control/src/map.rs:194 | across any reconnects, each with a fresh table and the replica kept, the replica covers the table with every nonzero home region right |
| `Replicas.RekeyThenPatchIsStale` | crates/ts-control/src/netmap.rs:325-362 | for every known peer, one frame that rekeys it and then changes its home leaves the earlier region in the replica |
| `Replicas.BothListsLoseAKey` | crates/ts-control/src/netmap.rs:264-297 | for every table, one frame with an empty full set and one old peer changed leaves that peer out of the replica |
| `Replicas.PushDeltaToEngine` | crates/tailscale-vita/src/runtime.rs:1527-1618 | the engine gets the upserts it accepts, loses the removals, and each rekey's old key even when the new one is refused |
| `Replicas.EngineWithinRegions` | crates/tailscale-vita/src/runtime.rs:1527-1618 | whatever the engine refuses, it never has a peer the region table lacks, and has all of them when it refuses nothing |
| `Replicas.EngineKeeps` | crates/tailscale-vita/src/runtime.rs:1527-1618 | whatever the engine refuses, it keeps a peer that the delta neither removes nor moves away, and takes in each one upserted and not refused |
| `Replicas.EngineDrops` | crates/tailscale-vita/src/runtime.rs:1527-1618 | a peer that the delta removes and does not move back is not in the engine |
| `Replicas.UpsertListsUnderHome` | crates/tailscale-vita/src/runtime.rs:2419-2445 | a peer upserted last and then left alone is listed under its home region, or under our own if it has none |
| `Replicas.RekeyListsUnderHome` | crates/tailscale-vita/src/runtime.rs:2419-2445 | so is a peer moved to a new key, and its old key is not listed any more |
| `Lifecycle.StickyStates` | crates/tailscale-vita/src/lifecycle.rs:285-302 | no sequence of events and ticks leaves a fatal or a stopped state |
| `Lifecycle.EventsStayNormal` | crates/tailscale-vita/src/lifecycle.rs:285-324 | from any other state events never lead into a fatal or stopped state, and the login wait lasts exactly until the first tick |
| `Lifecycle.OnlineMeansHeardRecently` | crates/tailscale-vita/src/lifecycle.rs:303-323 | online after any sequence of events and ticks of a new tracker means both planes were heard and one of them within the last minute |
| `Lifecycle.Heard` | crates/tailscale-vita/src/lifecycle.rs:191-207 | the times the tracker remembers are times of events it was told of |
| `Lifecycle.StoppedIff` | crates/tailscale-vita/src/lifecycle.rs:173-188 | after every history of operations the tracker is stopped if and only if it was parked and nothing since failed, asked for login or unparked it |
| `Lifecycle.FatalIff` | crates/tailscale-vita/src/lifecycle.rs:135-144 | it is in a fatal state if and only if it failed that way and nothing since replaced the state; no event or tick does |
| `Lifecycle.LoginWaitIff` | crates/tailscale-vita/src/lifecycle.rs:151-168 | it waits for login if and only if it was asked to and nothing since, a tick included, ended the wait |
| `Lifecycle.LossesAreCounted` | crates/tailscale-vita/src/lifecycle.rs:191-221 | the counters are the losses of each plane since it was last heard |
| `Lifecycle.OfflineIff` | crates/tailscale-vita/src/lifecycle.rs:285-302 | after every history that is neither fatal nor stopped, a tick finds the client offline if and only if one plane was lost five times in a row |
| `Lifecycle.OnlineIff` | crates/tailscale-vita/src/lifecycle.rs:285-323 | after every history that is neither fatal nor stopped, a tick finds the client online if and only if neither plane was lost five times in a row, both were heard, and one within the last minute |
| `Lifecycle.DegradedIff` | crates/tailscale-vita/src/lifecycle.rs:285-323 | degraded if and only if both planes were heard, but neither within the last sixty seconds |
| `Lifecycle.ConnectingIff` | crates/tailscale-vita/src/lifecycle.rs:285-323 | connecting if and only if one plane has never been heard |
| `Lifecycle.TimesAreKept` | crates/tailscale-vita/src/lifecycle.rs:191-207 | after every history the times kept are those at which each plane was last heard |
| `Lifecycle.Drive` | crates/tailscale-vita/src/lifecycle.rs:135-324 | the tracker on fields, driven through any operations, holds what the histories above say |
| `Runtime.EveryRunContained` | crates/tailscale-vita/src/runtime.rs:695-1279 | in every run of signals, control replies, refused upserts and restarts, the engine's peers are listed in the region table, and a runtime not wanted has no session, no engine peer and no region |
| `Runtime.EveryRunInStep` | crates/tailscale-vita/src/runtime.rs:695-1279 | in every run in which the engine refuses nothing, with any reconnects, parks, logouts and restarts, it holds exactly the listed peers |
| `Runtime.SnapshotKeepsPeer` | crates/tailscale-vita/src/runtime.rs:1150-1160 | whatever is refused, a snapshot leaves a peer in the engine that it neither removes nor moves |
| `Runtime.DrainMeans` | crates/tailscale-vita/src/runtime.rs:704-798 | the last request in a queue to run or park decides; a reconnect or down request anywhere in it drops the session, a down request the peers too; a fatal state ignores all |
| `Runtime.ExitIff` | crates/tailscale-vita/src/runtime.rs:695-1279 | each way a pass ends the loop has exactly the causes named |
| `Runtime.EventIsNoted` | crates/tailscale-vita/src/runtime.rs:978-1279 | a pass that takes an event keeps its session, notes which planes it heard and ticks the tracker |
| `Runtime.LossDropsSession` | crates/tailscale-vita/src/runtime.rs:978-1015 | a transient error drops the session and counts one loss of the control plane, and changes nothing else |
| `Runtime.FailureIsShown` | crates/tailscale-vita/src/runtime.rs:930-1000 | a failure shows in the tracker as the kind of error the control plane gave |
| `Runtime.ParkIsShown` | crates/tailscale-vita/src/runtime.rs:725-860 | a pass that leaves the runtime not wanted shows it stopped, and asking to run again clears that |
| `Runtime.UpShows` | crates/tailscale-vita/src/runtime.rs:350-415 | coming up gives a session exactly after an authorized login, the login wait after a logout, and stopped if not wanted, parked or shut down |
| `Runtime.EveryRunTable` | crates/tailscale-vita/src/runtime.rs:864-1160 | in every run a live session's table is what merging, in order, the frames since the session was opened gives from an empty table |
| `Runtime.EveryRunIndexed` | crates/tailscale-vita/src/runtime.rs:864-1160 | so its index is sound in every run whose frames keep each key with its node |
| `Runtime.EveryRunListed` | crates/tailscale-vita/src/runtime.rs:977-1279 | in every run whose frames carry one full list at most, with any reconnects, parks and restarts, a live session's peers are all listed; with their home regions, if besides no frame patches an entry it rekeyed |
| `Runtime.LogoutLogsOut` | crates/tailscale-vita/src/runtime.rs:827-847 | an accepted logout leaves no session, no engine peer and the login wait |
| `Runtime.StepStaysLoggedOut` | crates/tailscale-vita/src/runtime.rs:849-975 | without a down request no pass leaves that state, whatever the control plane replies |
| `Runtime.LogoutLasts` | crates/tailscale-vita/src/runtime.rs:827-975 | after an accepted logout in any run, every continuation without a down or login request is still logged out |
| `Runtime.EveryRunKeysMatch` | crates/tailscale-vita/src/runtime.rs:1970-2033 | in every run with no down request after an accepted logout, each session uses the key that the engine and DERP were built with |
| `Runtime.SplitBeginsIff` | crates/tailscale-vita/src/runtime.rs:864-975 | a session on another key begins in a pass if and only if that pass opens a session after the stored key moved on |
| `Runtime.DownThenUpSplitsKeys` | crates/tailscale-vita/src/runtime.rs:704-798 | from every logged-out state with a rotated key, down and then up open a session on the new key while the data plane keeps the old one |
| `Runtime.SplitKeysReachable` | crates/tailscale-vita/src/runtime.rs:423-431 | such a state is reached from a normal start |
| `Runtime.FailedLogoutKeepsIff` | crates/tailscale-vita/src/runtime.rs:827-847 | a failed logout keeps the state the drained queue led to if and only if the runtime was running by then |
| `Runtime.FailedLogoutUnparks` | crates/tailscale-vita/src/runtime.rs:827-847 | from every parked state a failed logout makes the next pass open a session with the tracker still stopped |
| `Runtime.StoppedWhileRunningStays` | crates/tailscale-vita/src/lifecycle.rs:285-302 | from there only a down request, an accepted logout or a fatal error changes the tracker |
| `Runtime.Runtime.constructor` | crates/tailscale-vita/src/runtime.rs:350-415 | bringing the runtime up gives the start state of the runs above, for each way login can end |
| `Runtime.Runtime.ClearEnginePeers` | crates/tailscale-vita/src/runtime.rs:1919-1926 | exactly the listed peers leave the engine and the table is emptied, in any order |
| `Runtime.Runtime.DrainSignals` | crates/tailscale-vita/src/runtime.rs:704-798 | draining the queue is folding the signals in order, all ignored once the state is fatal |
| `Runtime.Runtime.RunOnce` | crates/tailscale-vita/src/runtime.rs:695-1279 | one pass of the loop over the fields is one step of the state machine |
| `Login.InterpretRegisterResponse` | crates/ts-control/src/register.rs:243-302 | authorized exactly when granted without an error; a URL is handed on exactly when it can be acted on; an expired key is passed on as the server said; each error has exactly its own cause |
| `Login.DecidesIff` | crates/tailscale-vita/src/runtime.rs:2239-2355 | in the server's words: an attempt decides the login exactly by an abort, a grant, a new key that cannot be stored, and with an auth key by anything else but an expired key |
| `Login.KeyIsLatest` | crates/tailscale-vita/src/runtime.rs:2239-2355 | after any attempts the key is the one made at the latest expiry, and the first key if there was none |
| `Login.StandingUrlStands` | crates/tailscale-vita/src/runtime.rs:2239-2355 | the URL carried on is the last one offered to the key since it last expired, and none if there is none |
| `Login.EveryLoginFollowsUp` | crates/tailscale-vita/src/runtime.rs:2239-2355 | in every sequence of attempts each request carries exactly the URL that stands for its key, and the key changes only when it expired |
| `Login.KeyNeverFollowsUp` | crates/tailscale-vita/src/runtime.rs:2239-2355 | with an auth key supplied no request ever carries a follow-up |
| `Login.ExchangesAreAttempts` | crates/tailscale-vita/src/runtime.rs:2239-2355 | each attempt that connects sends one request, in order, with the key current at that point |
| `Login.InteractiveErrors` | crates/tailscale-vita/src/runtime.rs:2239-2355 | without an auth key only a failure to store a new key ends the wait with an error |
| `Login.LoginEnds` | crates/tailscale-vita/src/runtime.rs:2239-2355 | the attempt that decides a login is its only grant if it succeeds, to the key then current |
| `Login.Register` | crates/tailscale-vita/src/runtime.rs:2239-2355 | one attempt decides exactly what its own answers call for, sends one request if it connects, and moves key, URL and tracker accordingly |
| `Login.FollowupsWereOffered` | crates/tailscale-vita/src/runtime.rs:2239-2355 | a follow-up was offered earlier for the same key, and none is sent right after the key expired |
| `Login.InteractiveLogin` | crates/tailscale-vita/src/runtime.rs:2198-2355 | for every sequence of attempts: the first that decides anything decides the outcome and the wait goes on exactly while none does; what went out and the key are those of the attempts made; success is a grant in the last exchange and no other, to the current key; a login without a supplied key puts the tracker in the login wait, and only being authorized takes it out |
| `DerpFrame.FromByte` | crates/ts-derp/src/frame.rs:59-79 | decoding inverts encoding, and refuses exactly the octets no frame type has |
| `DerpFrame.TypeCodes` | crates/ts-derp/src/frame.rs:39-82 | the codes of the frames a client gets and sends, and exactly which octets are codes |
| `DerpFrame.PayloadLimit` | crates/ts-derp/src/frame.rs:85-120 | both sides draw the line at 65536 octets of payload, and an unknown type is an error |
| `DerpFrame.WriteThenRead` | crates/ts-derp/src/frame.rs:85-120 | a frame is written exactly if its payload fits, and reads back the same with what follows untouched |
| `DerpFrame.ReadThenWrite` | crates/ts-derp/src/frame.rs:85-120 | whatever reads as a frame is what writing that frame gives |
| `DerpFrame.SettledByPrefix` | crates/ts-derp/src/frame.rs:106-120 | once a prefix settles a frame or an error, no later octet changes it |
| `DerpFrame.WireThenRead` | crates/ts-derp/src/frame.rs:85-120 | any sequence of frames written, followed by anything, is read as those frames and then what follows |
| `DerpFrame.CutFrame` | crates/ts-derp/src/frame.rs:106-120 | a frame cut short anywhere is no frame and no error |
| `DerpFrame.FrameReader.TryExtract` | crates/ts-derp/src/frame.rs:181-201 | the buffer gives the frame or the error the whole stream would, and loses nothing otherwise |
| `DerpFrame.FrameReader.PollFrame` | crates/ts-derp/src/frame.rs:151-178 | buffer plus stream is conserved, the frame or error is that of the joined bytes, asking for more and reporting the end mean that no complete frame is held, each poll without a frame uses up one answer of the stream, and the buffer stays below 5 + 65536 + 8192 |
| `DerpFrame.AccountsForEnd` | crates/ts-derp/src/frame.rs:122-202 | when no frame is left, the frames returned are all the frames of the stream |
| `DerpFrame.Drive` | crates/ts-derp/src/frame.rs:122-202 | under every chunking and placement of timeouts the reader returns the frames and the error of the whole stream in order; when it asks for more with nothing on its way, or at the end, all of them; and all of them whenever the stream keeps delivering and is polled often enough |
| `DerpConn.DrainQueue` | crates/ts-derp/src/conn.rs:233-243 | the batch is the queue with pongs in front, both kinds in their order |
| `DerpConn.WriteBatch` | crates/ts-derp/src/conn.rs:244-250 | what was written whole is a prefix of the batch, followed by at most part of one more frame; it stops only at a failed write or a message too big |
| `DerpConn.HandleFrame` | crates/ts-derp/src/conn.rs:317-388 | a frame is answered with exactly the echo of its ping, delivers exactly its packet, and restarts exactly on a well-formed restart |
| `DerpConn.PingAsks` | crates/ts-derp/src/frame.rs:257-268 | a ping of at least eight octets asks for its first eight back, a shorter one for nothing |
| `DerpConn.PacketIs` | crates/ts-derp/src/frame.rs:229-240 | a received packet is 32 octets of source and the rest; a shorter one is no packet |
| `DerpConn.AllUnderstood` | crates/ts-derp/src/conn.rs:390-399 | read as the other end reads them, the frames of some messages are pongs with exactly the echoes, and packets and preferences exactly as handed over |
| `DerpConn.PongOnWire` | crates/ts-derp/src/frame.rs:252-254 | the octets of a pong |
| `DerpConn.PreferenceOnWire` | crates/ts-derp/src/frame.rs:243-249 | the octets of a preference |
| `DerpConn.PacketOnWire` | crates/ts-derp/src/frame.rs:207-226 | the octets of a packet |
| `DerpConn.SendBatch` | crates/ts-derp/src/conn.rs:232-265 | the write half of a turn puts everything handed over before it on the wire, pongs first, and fails only for a cause in that turn |
| `DerpConn.ReadOne` | crates/ts-derp/src/conn.rs:267-291 | the read half of a turn handles at most one frame, adds at most one pong, and stops only for a reason of the inbound side |
| `DerpConn.WrittenBefore` | crates/ts-derp/src/conn.rs:232-291 | between turns the messages of callers on the wire are exactly those handed over before the last write |
| `DerpConn.IoLoop` | crates/ts-derp/src/conn.rs:212-302 | in every run pongs are a prefix of the pings received and other messages a prefix of what callers handed over, and the wire read as the other end reads it holds exactly those pongs, packets and preferences; while it runs everything handed over before the last read is on the wire and at most one ping is unanswered; after an exit too at most one ping is unanswered and all that was handed over before the write of the turn before the last is on the wire; a turn reads at most one frame; every batch has its pongs first; packets delivered are those read; it exits only for a cause in its last turn, and goes on only past turns, frames and answers that gave none; a stream that keeps delivering is read to its last frame; the wire decodes to the messages written even if the last was cut |
| `Noise.LengthFieldExact` | crates/ts-control/src/noise.rs:264-280 | the 16-bit length field of a record is right if and only if the payload is within the limit |
| `Noise.RecordOctets` | crates/ts-control/src/noise.rs:264-280 | the octets of a record: its type, the length of the ciphertext, the ciphertext under its nonce |
| `Noise.ChunksWhole` | crates/ts-control/src/record.rs:135-147 | a write is cut into non-empty payloads within the limit that join to what was written |
| `Noise.Sender.WriteRecord` | crates/ts-control/src/noise.rs:264-280 | a record is made exactly for a payload within the limit and uses up one nonce |
| `Noise.Sender.Write` | crates/ts-control/src/record.rs:135-147 | a write appends the records of its payloads under consecutive nonces, or a prefix of them when the stream below fails |
| `Noise.Receiver.FillUntil` | crates/ts-control/src/record.rs:66-88 | reading ahead conserves buffer plus stream, and stops exactly at enough octets, or for what the stream answered: a timeout, an error or the end |
| `Noise.Receiver.DrainOneRecord` | crates/ts-control/src/record.rs:93-118 | one record is taken whole with the nonce it was sealed under; a timeout changes neither nonce nor plaintext, and with nothing on its way means every record sent was taken |
| `Noise.Receiver.Read` | crates/ts-control/src/record.rs:122-131 | reads give the plaintext in order and never a corrupt record; at the end, or at a timeout with nothing on its way, everything sent has been read; the end is remembered and the stream not asked again |
| `Noise.ReadServerResponse` | crates/tailscale-vita/src/proto.rs:56-78 | the response is the first 51 octets and what came with it is handed on in order; it fails only if the octets are not there or a read brings none |
| `Noise.SendAll` | crates/ts-control/src/record.rs:135-147 | any writes that succeed put on the wire exactly the records of their payloads, nonces counting from zero |
| `Noise.ReadAll` | crates/ts-control/src/record.rs:66-131 | reads of any sizes give a prefix of the plaintext, and all of it to a patient reader of a stream that keeps delivering |
| `Noise.Converse` | crates/ts-control/src/record.rs:33-147 | from the handshake on, for every cut, delay and read size, what is read is a prefix of what was written; once everything arrived it is all of it, at the end and also for a patient reader on a connection that never ends; the handshake fails only for a cause |
| `Pump.EveryInterleaving` | crates/ts-control/src/async_io.rs:131-289 | in every interleaving, accepted bytes are sent, in hand or queued in order, received bytes are delivered, queued or in hand, and a parked reader or flusher with work pending has its wake-up to come |
| `Pump.NothingInvented` | crates/ts-control/src/async_io.rs:149-195 | delivered bytes are a prefix of those received and sent bytes a prefix of those accepted |
| `Pump.AnswersAreTrue` | crates/ts-control/src/async_io.rs:205-296 | how a poll ends is true of that moment: data is what was queued first, pending means nothing there or something unsent, flushed an empty queue, and a refusal or an end a closed connection |
| `Pump.ReadGives` | crates/ts-control/src/async_io.rs:213-251 | a look that finds bytes queued, the first or the second of a read, ends it with as many of them as it has room for |
| `Pump.ReaderGetsAll` | crates/ts-control/src/async_io.rs:205-251 | in every run and however it goes on, a reader that asks once for each byte queued gets all of them |
| `Pump.EverythingSent` | crates/ts-control/src/async_io.rs:149-195 | in every run everything accepted is written within eight pump moves for each byte, whatever else happens, while the connection is up |
| `Pump.DrainTakes` | crates/ts-control/src/async_io.rs:151-156 | one turn of the pump takes up to 16384 queued octets from the front |
| `Pump.PumpReadsSoon` | crates/ts-control/src/async_io.rs:149-195 | however much there is to send, the pump reads within eight of its moves while the connection is up |
| `Pump.LeavesIff` | crates/ts-control/src/async_io.rs:157-195 | the pump gives up exactly when a write, flush or read fails or a read comes to the end, and stops by itself exactly when it finds the connection closed |
| `Pump.LeavingMoves` | crates/ts-control/src/async_io.rs:54-63 | giving up closes the connection, then wakes the reader, then the flusher |
| `Pump.ShutdownWakes` | crates/ts-control/src/async_io.rs:291-296 | in every run a shutdown closes at once and then wakes both waiters |
| `Pump.ClosedAcceptsNothing` | crates/ts-control/src/async_io.rs:254-270 | once closed, with no write under way, nothing is ever accepted again |
| `Pump.ClosedNeverWaits` | crates/ts-control/src/async_io.rs:222-289 | once closed, no poll that begins afterwards ever waits |
| `Pump.ClosedPumpStops` | crates/ts-control/src/async_io.rs:149-195 | once closed, the pump stops within nine of its moves, whatever the stream below does |
| `Pump.ReaderWokenNext` | crates/ts-control/src/async_io.rs:205-240 | a reader parked while data is queued is woken by the pump's very next step |
| `Pump.FlusherWoken` | crates/ts-control/src/async_io.rs:149-195 | in any run a flusher parked on a running pump is woken before the pump has made ten moves, however the threads interleave and whatever the stream does, unless the connection is shut down |
| `Pump.FlushedMeansTaken` | crates/ts-control/src/async_io.rs:272-289 | when the queue is empty, everything accepted has been sent if and only if the pump has nothing in hand |
| `Pump.FlushAnswers` | crates/ts-control/src/async_io.rs:272-289 | that is what a flush that reports success has established, in every run |
| `Pump.FlushReadyTooEarly` | crates/ts-control/src/async_io.rs:272-289 | a run in which a flush reports success while the byte accepted before it is unwritten |
| `Pump.ReaderParkedIff` | crates/ts-control/src/async_io.rs:205-240 | in every run a reader is parked if and only if its last read gave up and every wake-up since that read began found the slot empty |
| `Pump.CloseMissesReaderIff` | crates/ts-control/src/async_io.rs:222-240 | in every run in which the pump has stopped and no poll is under way, the reader stays parked for good if and only if its last read gave up and every wake-up since it began found the slot empty |
| `Pump.CloseMissesReaderReachable` | crates/ts-control/src/async_io.rs:222-240 | such a miss is reached in a short run |
| `Listener.Stack.AllocListening` | crates/netstack/src/tcp_listener.rs:280-299 | a new handle, listening and registered, for every port but zero; nothing is left behind on failure |
| `Listener.TcpListener.constructor` | crates/netstack/src/tcp_listener.rs:72-99 | binding gives a pool of the asked size, at least one, all listening, and nothing else new in the socket set |
| `Listener.TcpListener.HealPool` | crates/netstack/src/tcp_listener.rs:223-262 | after healing every slot is alive; live slots are untouched, dead ones listen, nothing outside the pool changes |
| `Listener.TcpListener.FindEstablished` | crates/netstack/src/tcp_listener.rs:159-182 | the first slot that is established with a peer, or none if no slot is |
| `Listener.TcpListener.ClaimAt` | crates/netstack/src/tcp_listener.rs:189-195 | a claimed socket leaves the pool for its stream and a new listening one takes its place; nothing else in the socket set changes |
| `Listener.TcpListener.TryClaim` | crates/netstack/src/tcp_listener.rs:147-212 | from the real state before a pass to the real one after it: the pass heals the pool, other threads run, it claims the first slot ready at its scan, or nothing exactly if none was, and hands the socket to its stream; no socket is leaked |
| `Listener.UndisturbedPass` | crates/netstack/src/tcp_listener.rs:147-212 | left alone, a pass claims the first slot that was ready when it began, if any was, and then every slot is alive |
| `Listener.TcpListener.Drop` | crates/netstack/src/tcp_listener.rs:265-275 | dropping the listener removes exactly its pool |
| `Listener.Bind` | crates/netstack/src/tcp_listener.rs:72-99 | binding succeeds on every port but zero and leaves the stack alone otherwise |
| `Listener.Serve` | crates/netstack/src/tcp_listener.rs:72-275 | under any interleaving of accepts, socket changes and stream drops a listener keeps its pool of distinct, registered handles owned by no stream and leaks no socket, and each move leads from the state before it to the state after it as the accept pass or the other threads make it |
| `InFlight.CounterIsSum` | crates/ts-peerapi/src/handler.rs:203-236 | in every interleaving the counter is the sum of live reservations, never above the limit, and no release can wrap it |
| `InFlight.ValuesWereReal` | crates/ts-peerapi/src/handler.rs:214-236 | a loop compares with a value the counter really had, and refuses only if the limit would have been exceeded at such a moment |
| `InFlight.AttemptSucceedsIff` | crates/ts-peerapi/src/handler.rs:203-236 | undisturbed, a reservation succeeds if and only if it fits beside the live ones, and its release restores the counter |
| `Sfo.WriteSfo` | scripts/sfo_make.py:34-55 | a file is written if and only if data fits its reservation and every field its width; otherwise the reason given is true |
| `Sfo.PackKeys` | scripts/sfo_make.py:35-41 | the padded key table and where each key begins in it |
| `Sfo.ReadSfo` | scripts/sfo_make.py:21-31 | the reading loop gives the entries in order or the first error, on any bytes |
| `Sfo.ErrorsStick` | scripts/sfo_make.py:21-31 | an error at one entry is the outcome of the whole read |
| `Sfo.UnpackPacked` | scripts/sfo_make.py:26-50 | an index entry whose fields fit their widths unpacks to the same fields |
| `Sfo.EntryLocated` | scripts/sfo_make.py:34-55 | each entry's index record, key and data stand in the file where the reader will look |
| `Sfo.Layout` | scripts/sfo_make.py:34-55 | the file octet by octet: for each entry sixteen octets of index with its five fields, and its key with a NUL and its data padded with NULs at the offsets given there |
| `Sfo.HeaderLayout` | scripts/sfo_make.py:52-55 | the first twenty octets: magic, version, where the tables begin, and the number of entries |
| `Sfo.ReadBack` | scripts/sfo_make.py:21-55 | a written file reads back as its entries, each key cut at its first NUL |
| `Sfo.RoundTripIff` | scripts/sfo_make.py:21-55 | reading a written file gives exactly the entries if and only if no key contains a NUL |
| `Sfo.RereadIsStable` | scripts/sfo_make.py:21-55 | whatever any file gave when read, if it can be written at all then reading it again gives the same |
| `Sfo.Rewrite` | scripts/sfo_make.py:21-55 | a file that was read is written again if and only if its entries fit their reservations and fields, and reads the same; otherwise the reason given is true |
| `Sfo.RegionsDisjoint` | scripts/sfo_make.py:43-51 | data regions follow one another without overlap inside the data table |
| `Sfo.DataAt` | scripts/sfo_make.py:40-54 | the data table begins at a multiple of four |
| `Sfo.SetStr` | scripts/sfo_make.py:58-63 | the first entry of that name gets the terminated value, every other entry stays, and a missing name is an error |
| `Sfo.CloneWith` | scripts/sfo_make.py:21-63 | a reference file read, edited and written reads back as the reference with that one value changed; each failure is reported exactly for its own cause |
| `Vfs.ResolvePath` | crates/ts-ftp/src/vfs.rs:35-55 | the loop over segments is the walk the lemmas below are about |
| `Vfs.ResolveIsNormal` | crates/ts-ftp/src/vfs.rs:35-55 | every resolved path is absolute with no empty, dot or dot-dot segment, for any directory and argument |
| `Vfs.NormalIsFixed` | crates/ts-ftp/src/vfs.rs:35-55 | a normal path resolves to itself from anywhere and stays put on "" and "." |
| `Vfs.ResolveJoin` | crates/ts-ftp/src/vfs.rs:35-55 | resolving `a/b` is resolving `a` and then relative `b` from there, failures included |
| `Vfs.UpIsParent` | crates/ts-ftp/src/vfs.rs:35-55 | from every directory but the root `..` leads to the path without its last name |
| `Vfs.UpUndoesName` | crates/ts-ftp/src/vfs.rs:39-47 | a name and a `..` right after it take each other away, anywhere in a walk |
| `Vfs.UpUndoesDown` | crates/ts-ftp/src/vfs.rs:35-55 | `a/name/..` resolves as `a` does, failures included |
| `Vfs.StayingPut` | crates/ts-ftp/src/vfs.rs:39-47 | an empty segment and a `.` change nothing, anywhere in a walk |
| `Vfs.WhereItStarts` | crates/ts-ftp/src/vfs.rs:35-38 | an absolute path resolves the same from everywhere, a relative one as its directory with it behind |
| `Vfs.EscapeIff` | crates/ts-ftp/src/vfs.rs:39-47 | a path is refused if and only if some prefix of it goes up more often than down |
| `Vfs.WalkFailsIff` | crates/ts-ftp/src/vfs.rs:39-47 | the same for a walk from any depth, which otherwise ends exactly as deep as its segments count |
| `Vfs.TrimSlashes` | crates/ts-ftp/src/vfs.rs:24-30 | a root loses the slashes at its end and nothing else |
| `Vfs.SplitJoin` | crates/ts-ftp/src/vfs.rs:35-38 | splitting two texts joined by a slash gives the pieces of both |
| `Vfs.DeviceIff` | crates/ts-ftp/src/vfs.rs:83-85 | a device is a name without a colon, followed by one |
| `Vfs.RealOfPath` | crates/ts-ftp/src/vfs.rs:62-76 | a normal path goes to its device if device paths are on and it names one first, and under the root otherwise |
| `Vfs.RealIsUnderRoot` | crates/ts-ftp/src/vfs.rs:62-76 | with device paths off everything that resolves maps to the root followed by normal segments |
| `Vfs.RealIsInjective` | crates/ts-ftp/src/vfs.rs:62-76 | with device paths off different normal paths are different real paths |
| `Vfs.SplitParentOf` | crates/ts-ftp/src/vfs.rs:89-95 | splitting a normal path takes off exactly its last segment |
| `Vfs.ParentThenName` | crates/ts-ftp/src/vfs.rs:89-95 | the parent is normal and the name resolved in it is the path again |
| `Ftp.FindFile` | crates/ts-ftp/src/session.rs:533-541 | a size is found exactly when the directory lists a file of that name, and is that of the first |
| `Ftp.StreamToFile` | crates/ts-ftp/src/session.rs:600-625 | the upload file never passes the limit and is always a prefix of the body; success means the whole body; every failure has its own cause, and with a peer that sends and closes the size alone decides |
| `Ftp.Session.Dispatch` | crates/ts-ftp/src/session.rs:150-223 | one command over the fields is one step of the session machine, and an undelivered reply ends it |
| `Ftp.Session.Serve` | crates/ts-ftp/src/session.rs:39-69 | a whole session is the run the lemmas below are about |
| `FtpSafety.PendingIsPending` | crates/ts-ftp/src/session.rs:154-167 | the name a password is checked with can be read off the commands alone |
| `FtpSafety.AuthedIff` | crates/ts-ftp/src/session.rs:150-168 | a session is logged in if and only if some command was the right PASS after the right USER, and stays so |
| `FtpSafety.TouchNeedsLogin` | crates/ts-ftp/src/session.rs:150-223 | any command that touches the filesystem or a data port comes after a login |
| `FtpSafety.ReadOnlyNeverChanges` | crates/ts-ftp/src/session.rs:353-489 | in every read-only session no rename is ever pending and nothing in the filesystem is ever changed |
| `FtpSafety.EveryRunJailed` | crates/ts-ftp/src/session.rs:225-489 | whatever property resolving gives paths, in every session the directory has it and every touched path comes from one that has it, or is the temporary file of an upload to one |
| `FtpSafety.JailIsSound` | crates/ts-ftp/src/vfs.rs:35-95 | being normal is such a property of the path jail |
| `FtpSafety.PartialUnderIff` | crates/ts-ftp/src/session.rs:370-374 | the temporary file of an upload lies under the root if and only if the upload is not to the root itself |
| `FtpSafety.EveryTouchConfinedIff` | crates/ts-ftp/src/session.rs:225-489 | with device paths off, everything a session ever touches lies under the root if and only if none of its commands is a STOR that resolves to `/` and gets as far as receiving |
| `FtpSafety.EveryCommandConfinedIff` | crates/ts-ftp/src/session.rs:225-489 | in every session, what one command touches lies under the root if and only if that command is no such upload |
| `FtpSafety.StorRootWritesBeside` | crates/ts-ftp/src/session.rs:353-404 | from every open, logged-in, writable session with a data port pending, `STOR /` writes a file that is not under the root |
| `FtpSafety.PathCommandsTouch` | crates/ts-ftp/src/session.rs:422-469 | DELE removes the file it names, MKD makes the directory, RNFR remembers the path; nothing else is touched, and nothing at all if the path does not resolve or the session is read-only |
| `FtpSafety.CwdGoes` | crates/ts-ftp/src/session.rs:225-239 | CWD looks at the directory it names and goes there exactly if that is found |
| `FtpSafety.CdupGoesUp` | crates/ts-ftp/src/session.rs:225-239 | CDUP leads to the parent of the current directory |
| `FtpSafety.CwdThenCdup` | crates/ts-ftp/src/session.rs:225-239 | CDUP after a CWD into a name leads back |
| `FtpSafety.SizeLooks` | crates/ts-ftp/src/session.rs:406-420 | SIZE looks for the file in the directory that holds it |
| `FtpSafety.StorStores` | crates/ts-ftp/src/session.rs:353-404 | an upload that is received and renamed puts its file where its path leads, by way of the temporary name |
| `FtpSafety.RetrSends` | crates/ts-ftp/src/session.rs:320-351 | a download that finds its file within the limit reads it where its path leads and sends it to the client |
| `FtpSafety.RetrRefuses` | crates/ts-ftp/src/session.rs:320-351 | otherwise it uses no data connection and the pending port stays |
| `FtpSafety.ListSends` | crates/ts-ftp/src/session.rs:295-318 | a listing looks at the directory asked for, or the current one, and is sent to the client |
| `FtpSafety.ListRefuses` | crates/ts-ftp/src/session.rs:295-318 | a directory that cannot be read is not listed and the pending port stays |
| `FtpSafety.PortCommandsOpen` | crates/ts-ftp/src/session.rs:241-293 | PASV opens a data port if the address is known, EPSV unless it is EPSV ALL in any case; both give up the earlier one |
| `FtpSafety.SessionEnds` | crates/ts-ftp/src/session.rs:39-69 | a session ends at QUIT or when a reply cannot be delivered, and at nothing else |
| `FtpSafety.EveryRunOnlyToClient` | crates/ts-ftp/src/session.rs:353-517 | in every session bytes are sent or received only right after accepting a connection from the control peer |
| `FtpSafety.EveryReadWithinLimit` | crates/ts-ftp/src/session.rs:320-351 | in every session a file is read only right after its directory was listed and gave it a size within the limit |
| `FtpSafety.EveryUploadSettled` | crates/ts-ftp/src/session.rs:353-404 | in every session each upload's temporary file is at once renamed to the target it was made for, or removed |
| `FtpSafety.PortPendingIff` | crates/ts-ftp/src/session.rs:241-293 | while a session is open a data port is pending if and only if the last thing done with one was opening it, and that worked; a failed bind gives up the earlier one |
| `FtpSafety.EveryDirectoryWasListed` | crates/ts-ftp/src/session.rs:225-239 | in every session the current directory is the virtual root or one the server found and listed |
| `FtpSafety.EveryAcceptHasItsPort` | crates/ts-ftp/src/session.rs:241-517 | in every session each awaited data connection used up a data port of its own |
| `FtpSafety.PendingRenameWasNamed` | crates/ts-ftp/src/session.rs:458-489 | a pending rename is what the latest RNFR named, not used up since |
| `FtpSafety.RenamesAsAsked` | crates/ts-ftp/src/session.rs:458-489 | an RNTO that does anything renames what that RNFR named to what it names itself, and nothing else |
| `FtpSafety.UploadNamesDiffer` | crates/ts-ftp/src/session.rs:370-374 | two uploads share a temporary file only if they have the same target and the same 64-bit number |
| `Stun.ParseBindingResponse` | crates/ts-magicsock/src/stun.rs:79-119 | on arbitrary bytes the walk stays in bounds, ends, and gives the result the lemmas below are about |
| `Stun.XorTwice` | crates/ts-magicsock/src/stun.rs:133-153 | masking twice with the same bits gives the value back, for every width |
| `Stun.XorBits` | crates/ts-magicsock/src/stun.rs:133-153 | bit by bit, the exclusive or has a one exactly where its operands differ, for every width |
| `Stun.MaskFlips` | crates/ts-magicsock/src/stun.rs:133-153 | masking an octet flips exactly the bits of the mask |
| `Stun.RequestOctets` | crates/ts-magicsock/src/stun.rs:40-55 | the request octet by octet |
| `Stun.ParseNeeds` | crates/ts-magicsock/src/stun.rs:79-99 | nothing is read from a datagram that is not a success response with the cookie and all its attributes |
| `Stun.ResponseOctets` | crates/ts-magicsock/src/stun.rs:79-119 | the type, cookie and attribute number of the responses the lemmas speak of |
| `Stun.AddrOctets` | crates/ts-magicsock/src/stun.rs:128-158 | the family, port mask and address mask of the address attribute |
| `Stun.AddrRoundTrip` | crates/ts-magicsock/src/stun.rs:128-158 | the client decodes every encoded IPv4 and IPv6 address and port |
| `Stun.SearchFindsFirst` | crates/ts-magicsock/src/stun.rs:100-118 | on well-formed attributes the walk finds the first address attribute and nothing else |
| `Stun.ResponseRead` | crates/ts-magicsock/src/stun.rs:79-119 | what the client reads from any well-formed response, whatever follows it in the datagram |
| `Stun.AddressArrives` | crates/ts-magicsock/src/stun.rs:79-158 | among any other padded attributes the client gets exactly the address and port the server encoded |
| `Stun.RequestIsNoResponse` | crates/ts-magicsock/src/stun.rs:40-73 | a request is recognised as STUN, carries its transaction and is not taken for a response |

## Left out

- The engine, smoltcp, h2, TLS and cipher internals: they appear as a peer set that may refuse, socket states that change by themselves, and symbolic sealing.
- JSON, compression and text parsing of keys, addresses and command lines: a value that does not parse is `None`.
- The packet filter, DERP map, user profiles and domain of a map frame, the magicsock delta and the published snapshots: they would only add independent fields.
- Times, backoff, jitter and the lengths of timeouts: a timeout is a choice of the environment.
- The DERP connection cap in `mux.rs`, which releases its lock while dialling: only a claim about a single caller would hold.
- Disconnected channels, panics, logging, process start-up, netcheck and the LocalAPI.
- `consume_early_payload` and the handshake itself: easy beside the split of the response.
- `read_line` of the FTP session, its replies and the text of listings.
- DerpConn.IoLoop: callers are taken to enqueue no pongs of their own, which holds of every caller in the crate.
- Noise.Sender.Write: the nonce is unbounded; the counter's end at 2^64 is not modelled.
- InFlight.CounterIsSum: the limit is below 2^64, the width of the counter.
- Lifecycle.LifecycleTracker.NoteControlReconnect: the counter is unbounded; the source's 32-bit overflow is not modelled.
- Pump.EveryInterleaving: the kind of the stored error is not modelled.
- Pump.FlusherWoken: a shutdown in between is left out, since shutting down wakes the flusher itself.
- Runtime.EveryRunKeysMatch: the hypothesis is sufficient; which passes break the property is exact in `Runtime.SplitBeginsIff`.
- Runtime.EveryRunListed: the hypotheses on frames are sufficient; frame by frame the exact conditions are those of `Replicas.KeysFollowFrameIff` and `Replicas.RegionsFollowPatchesIff`.
- Sfo.SetStr: gives back an edited list instead of changing an entry in place, so two names for one list are not modelled; keys are octets, without their text encoding.
- Ftp.StreamToFile: a disk that refuses a piece is one choice for the whole body, and the total is unbounded where the source saturates at the largest 64-bit limit.
- Ftp.Session.DoStor: the pieces of an upload are one write in the session's log; `Ftp.StreamToFile` has the pieces.
