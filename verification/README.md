# wantasticd: a verified model

wantasticd is an agent for a WireGuard overlay. This project models the parts of it that are
protocols, state machines or algorithms, and proves what they promise over every input and
every run. `dafny verify dfyconfig.toml` checks everything.

| file | models | shows |
|---|---|---|
| `TransferStream.dfy` | the WUSP file transfer: a sender with a window of eight, cumulative acknowledgements and resends, and a receiver that takes only the next chunk, composed over a channel that loses, repeats and reorders | the receiver only ever holds a prefix of the source made of whole chunks, completion means the whole source, and the transfer can always still finish |
| `ExitEngine.dfy`, `Routes.dfy` | the exit-node client engine as a state machine over choose, clear, control and reconcile steps, with the host as a route table, the owner of 0.0.0.0/0 and the NAT rules of `Nat.dfy` | fail open over every run, exact restoration, the order of every single host command, and where the traffic goes |
| `ExitHistory.dfy` | the same runs, read backwards | which events the state of the engine goes back to: grant, offer, sighting, plan, back-off |
| `Nat.dfy` | NAT rules with rollback on the iptables backend | all or nothing, and exact restoration |
| `ReplayCache.dfy` | the reliable-control replay cache | at most one execution, bounded memory, no channel closed twice |
| `ReplayHistory.dfy` | its runs, read backwards | which execution a repetition is matched with, how long replies last, what makes room |
| `RefreshCache.dfy` | the single-flight data-model cache | one sweep at a time, and no write without a later sweep |
| `Accounts.dfy` | the account store as sequences of atomic file writes, cut anywhere | no configuration is lost |
| `AccountFiles.dfy` | its finished operations and its key files | what each operation has done, and no key file is lost |
| `StaCalibration.dfy` | the self-calibrating station record decoder | what it learned decodes what it learned from |
| `LocalAccess.dfy`, `Cidr.dfy` | local-access route codecs, CIDR overlap and route synchronisation | round trips, exact overlap, and exactly when record and system agree |
| `EchoReply.dfy` | the Internet checksum and the ICMP echo reply | the reply verifies |
| `EditDistance.dfy` | the two-row edit-distance table behind command suggestions | the table computes a shortest edit script |

`Sums.dfy`, `Octets.dfy` and `Options.dfy` hold what several of these share.

Every part has the same shape. Code that changes state is a class or a method with loops,
whose `ensures` ties the new state to a specification function or relation. A run is a fold or
a chain of that specification over a list of labelled steps, where everything the outside
world decides (which frame arrives, which command fails, what the clock says, where an
operation is cut) is part of the label. The theorems quantify over all such lists.

## What the code does not promise

Each of these properties can fail. The middle column shows it, the last one gives the exact condition.

| what fails | shown by | holds exactly when |
|---|---|---|
| Completing an account leaves it with a configuration file, the one it was completed with: the lookup accepts a name, or an id with blanks around it, but the files are named after the raw argument | `Accounts.CompleteByNameLosesFile` | `Accounts.CompleteNeedsTheId`: the argument is the entry's id, or an old file of the entry exists; `Accounts.CompleteSetsConfigIff`: it is the id, or that old file holds the same bytes |
| An encoded owner update decodes: the encoder validates before it masks | `LocalAccess.UnmaskedUpdateCanFail` | `LocalAccess.UpdateRoundTrip`: the masked routes are private |
| After a successful synchronisation the recorded routes are the installed ones: a failed one before it may have removed a route that stays recorded | `LocalAccess.LoseRoute` | `LocalAccess.SyncedIffNoDrift`: no route lost by failed attempts is wanted again, and every route they added is |
| A failed NAT activation restores the host: rules that were there before go with the rest | `Nat.RollbackCanLoseRule` | `Nat.RollbackIsExact`: the rules were not tried, or the host held none of them; `Nat.DisableIsExact` says the same of disabling after a success |
| Activation and deactivation restore the route table: where the route command overwrites (Linux) any taken key is lost, elsewhere a taken split or reject route is deleted and replaced | `ExitEngine.TakenKeyIsLost`, `ExitEngine.TakenHalfIsLost` | `ExitEngine.UndoneIffKeysFree`: the activation stops before the routes, or none of the keys it spends was taken |
| Bypass routes that are still planned stay while split routes stand: a gateway move takes them all away first | `ExitEngine.GatewayMoveBreaksOrder` | `ExitEngine.ReactivationIsOrderedIff`, `ExitEngine.RunIsOrdered`: the gateway is the recorded one, or no such route is recorded |
| A request is executed once at a time: an entry expires while its request runs | `ReplayCache.LateRepetitionOverlaps` | `ReplayCache.LifetimeIsExact`: the repetition comes within the lifetime, asks for fragments of a read, or finds the cache full of running requests |
| Handlers of one request do not overlap: a handler that overruns its five seconds outlives its ticket | `ReplayCache.SlowHandlerOverlaps` | `ReplayCache.HandlersApartIff`: no request arrives while an earlier handler of its key runs and its entry is gone or expired, unless it asks for fragments of a read or the cache is full of running requests |
| Every critical endpoint is pinned: the plan is cut by address | `Routes.CrowdedOut` | `Routes.PlannedIff`, `ExitEngine.CriticalPinnedIff`: fewer than the limit of the candidates are lower |
| Activation and deactivation restore the NAT rules of the host | `Nat.RollbackCanLoseRule` | `ExitEngine.FirewallUndoneIff`: the activation does not get to a valid client plan, or the host held none of its rules |

## Model

| member | source | states |
|---|---|---|
| `TransferStream.TransferIsSafe` | internal/agent/usp_stream.go:216-316 | over every run with fewer than 2^32 chunks, under loss, duplication and reordering: the accepted bytes are whole chunks and a prefix of the source, so is the file; Complete is sent only when the receiver holds the whole source; a closed file is the whole source unless the peer aborted, and then it is gone |
| `TransferStream.RepliesAreHonest` | internal/agent/usp_stream.go:229-299 | over every run: an acknowledgement of a chunk gives the file position after it, a final one means that the source up to there is in the file, and a completion that the whole source is, unless the peer aborted |
| `TransferStream.SenderIsHonest` | internal/agent/usp_stream.go:350-423 | over every run: no chunk is empty or longer than 1120 bytes, a final chunk ends the source, the completion gives its size and last number, and at most 16 acknowledgements are queued |
| `TransferStream.ReceiverAnswers` | internal/agent/usp_stream.go:216-268 | a working receiver answers an opening with number 0 and its position, and every chunk with the last number accepted |
| `TransferStream.FailureAborts` | internal/agent/usp_stream.go:353-403 | a failed read, send, resend or completion ends the transfer |
| `TransferStream.QueueMeans` | internal/agent/usp_stream.go:318-327 | acknowledgements queue in order while there is room for 16 and are dropped otherwise |
| `TransferStream.TransferCanFinish` | internal/agent/usp_stream.go:350-423 | from every reachable state with a sender that has not aborted, a working receiver and numbers for the rest, some continuation finishes the sender with the whole source in the file |
| `TransferStream.AbortIsThePeers` | internal/agent/usp_stream.go:300-312 | an abort reaches the receiver only if the peer sent one |
| `TransferStream.WindowIsContiguous` | internal/agent/usp_stream.go:350-403 | over every run: pending is the interval ending at the last cut chunk, at most 8; released plus pending bytes are the bytes read; each pending chunk carries the bytes between its two cuts, with the first cut as offset |
| `TransferStream.ResendPassCatchesUp` | internal/agent/usp_stream.go:388-403 | from every reachable state with a working receiver one loss-free sorted resend pass makes it accept all pending chunks, and the last acknowledgement empties the window |
| `TransferStream.PassReaches` | internal/agent/usp_stream.go:229-268 | after i frames of a pass the receiver has accepted up to the i-th, or what it already had, and acknowledges exactly that |
| `TransferStream.RunKeeps` | internal/agent/usp_stream.go:216-423 | the joint invariant of sender, receiver and channel holds in every reachable state |
| `TransferStream.ReceiverKeeps` | internal/agent/usp_stream.go:216-316 | whatever genuine frame arrives and whatever the disk does, the receiver keeps its invariant and only acknowledges what it has accepted |
| `TransferStream.MoveKeeps` | internal/agent/usp_stream.go:329-423 | every move of the sender keeps the window and sends only genuine frames |
| `TransferStream.NextChunkGenuine` | internal/agent/usp_stream.go:353-382 | a chunk cut from the reader is the next slice of the source under the next number |
| `TransferStream.ReleaseKeeps` | internal/agent/usp_stream.go:485-494 | releasing up to a cumulative acknowledgement keeps the window contiguous and the byte count exact |
| `TransferStream.DownloadSession.PendingTransferredBytes` | internal/agent/usp_stream.go:496-502 | the loop over the map returns the order-independent total of pending sizes |
| `TransferStream.DownloadSession.ReleaseAckedPendingChunks` | internal/agent/usp_stream.go:485-494 | exactly the chunks up to the acknowledged number go, and their bytes are returned |
| `TransferStream.DownloadSession.ResendPendingChunks` | internal/agent/usp_stream.go:469-483 | pending frames are resent in ascending order until a send fails |
| `TransferStream.DownloadSession.ReadChunk` | internal/agent/usp_stream.go:353-382 | one read step, with the end of file and read errors told apart |
| `TransferStream.DownloadSession.Await` | internal/agent/usp_stream.go:384-403 | one wait: an acknowledgement releases, a timeout resends |
| `TransferStream.DownloadSession.Stream` | internal/agent/usp_stream.go:329-423 | the nested loops perform exactly the run of sender steps for the given outcomes |
| `TransferStream.UploadSession.HandleFrame` | internal/agent/usp_stream.go:216-316 | handling an open, chunk, complete or abort frame is the receiver's transition, with its reply |
| `ExitEngine.EngineFailsOpen` | internal/device/exitnode.go:815-879 | over every run: active means both split routes recorded, every recorded route in the table with the recorded gateway, 0.0.0.0/0 with the exit peer after each tick and until the next with nobody else but a server that had it first, a listed, not refusing, direct, fresh and granted path at the last tick, and the client NAT off or with each rule once over the first firewall; any other phase means the table that other software alone would have made, 0.0.0.0/0 with its first owner, and the first firewall |
| `ExitEngine.RunKeepsNat` | internal/device/exitnode.go:1090-1109 | over every run the client NAT is off with the firewall as it was, or on with each rule once and disabling gives that firewall back |
| `ExitEngine.FirewallUndoneIff` | internal/device/exitnode.go:1078-1080 | a first activation, failed or not, followed by deactivation restores the NAT rules if and only if it does not get to a valid client plan or the host held none of its rules |
| `ExitEngine.RunIsOrdered` | internal/device/exitnode.go:1001-1173 | over every run, at every host command: a tick that starts at rest routes nothing into the tunnel before every planned critical endpoint has a host route and the exit owns 0.0.0.0/0; an active phase that ends by choice, clear or lost path, whoever owns 0.0.0.0/0, loses no bypass route and moves no ownership while a split route remains; a tick that re-activates keeps every bypass route still planned while a split route stands if and only if the gateway has not moved or there is no such route |
| `ExitEngine.FirstActivationIsOrdered` | internal/device/exitnode.go:1001-1088 | the same for every prefix of one first activation, failed or not, and of the deactivation after it |
| `ExitEngine.CriticalPinnedIff` | internal/device/exitnode.go:1020-1027 | a critical endpoint that can be pinned is among the pins if and only if fewer than the limit of the candidates are lower |
| `ExitEngine.DeactivationIsOrdered` | internal/device/exitnode.go:1135-1173 | in every prefix of a deactivation all bypass routes and the owner of 0.0.0.0/0 last as long as any split route |
| `ExitEngine.ReactivationIsOrderedIff` | internal/device/exitnode.go:1014-1088 | every prefix of a re-activation, and of the deactivation when it fails, keeps the bypass routes still planned while a split route stands if and only if the gateway has not moved or there is no such route |
| `ExitEngine.GatewayMoveBreaksOrder` | internal/device/exitnode.go:1014-1018 | a run of choose, grant and two ticks in which the order fails at a gateway move |
| `ExitEngine.ActiveTrafficFollowsRecord` | internal/device/exitnode.go:1048-1076 | over every run, in the active phase, longest-prefix match on the host table sends recorded bypass addresses to the recorded gateway, leaves addresses whose best outside route has length 2 or more alone, and sends every other into the tunnel |
| `ExitEngine.RestingTickActivatesIff` | internal/device/exitnode.go:815-879 | over every run, a tick that starts at rest activates if and only if an exit is chosen, its path is live and granted, the back-off is over, a gateway is known, the device takes the allowed IP and no split or critical route is refused |
| `ExitHistory.ActiveIsWitnessed` | internal/device/exitnode.go:815-879 | over every run, the active phase goes back to a last tick that saw the chosen peer under the key in use, direct and with a handshake at most 200 seconds old; that peer's last word since it was chosen was no refusal, it granted the use and nothing voided that; and the record follows that tick's plan, with the gateway it found or else the old one, and client NAT on where a valid plan could be applied |
| `ExitHistory.GrantedIff` | internal/device/exitnode.go:610-625 | over every run, the exit counts as granted if and only if the chosen peer itself sent a status frame with the grant bit and since then there was no clear, no other choice, no tick that sighted it under another key or without a direct path, and no status from it with neither bit |
| `ExitHistory.OfferedIff` | internal/device/exitnode.go:610-625 | over every run, a peer counts as offering or refusing if and only if that was its last word since it was last newly chosen |
| `ExitHistory.KeyIsLatest` | internal/device/exitnode.go:835-838 | over every run, the key in use is the one the last tick sighted for the choice, or the one it was chosen with |
| `ExitHistory.TickDecides` | internal/device/exitnode.go:831-879 | over every run, the phase a tick leads to, by what it sees, the last word and the grant of the peer, and the back-off |
| `ExitHistory.ActiveBlocksIPv6` | internal/device/exitnode.go:1048-1076 | over every run, in the active phase, if the last tick's plan blocks IPv6 and no block was refused, every IPv6 address lies in a recorded block the host rejects; and if it does not, no block is recorded |
| `ExitHistory.ClearedStaysOff` | internal/device/exitnode.go:716-738 | over every run, after a clear nothing activates until the next choice |
| `ExitHistory.HeldBackIff` | internal/device/exitnode.go:868-875 | over every run, activation is held back until a time if and only if the last attempt failed thirty seconds before it and no new choice was made since |
| `ExitEngine.FatalRoutes` | internal/device/exitnode.go:1064-1073 | an activation depends on exactly the two split routes and the planned critical host routes |
| `ExitEngine.FirstActivationSucceedsIff` | internal/device/exitnode.go:1001-1088 | the same for the activation alone |
| `ExitEngine.DeactivatedRestores` | internal/device/exitnode.go:1135-1173 | deactivation gives back the base table and the first owner of 0.0.0.0/0, and leaves nothing recorded |
| `ExitEngine.ActivatedKeeps` | internal/device/exitnode.go:1001-1088 | a first, repeated, re-planned, gateway-moving or failed activation keeps the record exact; a successful one has both halves and the owner |
| `ExitEngine.UndoneIffKeysFree` | internal/device/exitnode.go:1001-1088 | on every host a first activation, failed or not, followed by deactivation leaves the table without exactly the keys spent: those installed on, over an old route if need be, and those whose old route was deleted in vain, up to the first failure that ends it; so it restores the table if and only if it stops before the routes or none of those keys was taken |
| `ExitEngine.TakenKeyIsLost` | internal/device/exitnode.go:1048-1076 | on Linux one host route there before is gone after activation and deactivation |
| `ExitEngine.TakenHalfIsLost` | internal/device/exitnode.go:1053-1063 | elsewhere a 0.0.0.0/1 route there before is gone after activation and deactivation |
| `ExitEngine.AddOneWears` | internal/device/exitnode.go:1048-1076 | one planned route over any table: refused, left alone, installed or lost, what that leaves of the table, and whether the activation goes on |
| `ExitEngine.FirstActivationRecords` | internal/device/exitnode.go:1048-1076 | on every host a first activation records exactly the routes whose fate is to be installed, up to the first failure that ends it, over the table it found less the routes deleted in vain |
| `ExitEngine.GatewayMoveUnpins` | internal/device/exitnode.go:1014-1018 | a gateway move leads to a host with a split route and none of the recorded bypass routes, and keeps the record sound |
| `ExitEngine.TickKeeps` | internal/device/exitnode.go:815-879 | a tick keeps the run invariant, and in the active phase the exit owns 0.0.0.0/0 |
| `ExitEngine.DeletedKeeps` | internal/device/exitnode.go:1111-1126 | removal deletes exactly the matching routes from record and table, each with the gateway it was installed with |
| `ExitEngine.AddAllKeeps` | internal/device/exitnode.go:1048-1076 | adding keeps record and table in step; when it goes through, every tunnel route is recorded and every critical address has a host route |
| `ExitEngine.AddPlanGuarded` | internal/device/exitnode.go:1048-1076 | in every prefix of adding a plan, a split route comes only after every critical host route |
| `ExitEngine.NextPhase` | internal/exitnode/classify.go:71-85 | active exactly on a live granted path, pending exactly on a live path not yet granted |
| `ExitEngine.Engine.DeleteRoutes` | internal/device/exitnode.go:1111-1126 | the backward loop removes the matching routes, last installed first, and keeps the order of the rest |
| `ExitEngine.Engine.AddRoutes` | internal/device/exitnode.go:1048-1076 | the add loop with its exists, critical and warning branches |
| `ExitEngine.Engine.Activate` | internal/device/exitnode.go:1001-1088 | the whole new state of an activation, and whether it succeeded |
| `ExitEngine.Engine.Deactivate` | internal/device/exitnode.go:1135-1173 | the whole new state of a deactivation |
| `ExitEngine.Engine.ReconcileClient` | internal/device/exitnode.go:815-879 | the whole new state of a tick, with the back-off after a failed activation |
| `ExitEngine.Engine.UseExitNode` | internal/device/exitnode.go:666-685 | a new choice leaves the old exit and starts over; the same choice changes nothing |
| `ExitEngine.Engine.ClearExitNode` | internal/device/exitnode.go:716-738 | clearing deactivates and forgets the choice |
| `ExitEngine.Engine.HandleStatus` | internal/device/exitnode.go:610-625 | a status frame from a peer other than the server updates its offer, and the grant when it is the chosen one |
| `Routes.PlanClientRoutes` | internal/exitnode/routes.go:67-102 | the plan: pinned addresses ascending and cut at the limit, the split default, the IPv6 block |
| `Routes.CollectPinned` | internal/exitnode/routes.go:72-84 | exactly the unmapped, bypassable, off-overlay, off-link IPv4 addresses are pinned |
| `Routes.PlannedBypassMeans` | internal/exitnode/routes.go:85-88 | the planned addresses are all pinned ones when they fit, else the lowest, each once, ascending |
| `Routes.PinnedMeans` | internal/exitnode/routes.go:72-84 | the addresses to pin are exactly the IPv4 candidates, plain or mapped, that are no loopback, multicast, link-local, zero or broadcast address, not on a connected network and in no overlay block |
| `Routes.PlanBlocksIPv6` | internal/exitnode/routes.go:96-100 | a plan that blocks IPv6 has for every IPv6 address a reject route whose block holds it; one that does not has no reject route |
| `Routes.PlannedIff` | internal/exitnode/routes.go:85-88 | a pinned address is planned if and only if fewer than the limit are lower |
| `Routes.CrowdedOut` | internal/exitnode/routes.go:85-88 | sixty-four lower candidates push an address out of the plan |
| `Routes.DiffRoutes` | internal/exitnode/routes.go:118-138 | additions in plan order, removals last installed first |
| `Routes.MissingOrder` | internal/exitnode/routes.go:118-138 | additions come in the order of the plan |
| `Routes.StaleOrder` | internal/exitnode/routes.go:118-138 | removals come in the reverse of the order of installation |
| `Routes.DiffReachesDesired` | internal/exitnode/routes.go:118-138 | applying the difference gives exactly the desired set and touches nothing in both |
| `Routes.TrafficFollowsPlan` | internal/exitnode/routes.go:43-102 | by longest-prefix match (section 5.2.4.3 of RFC 1812) a planned bypass address goes to the gateway, routes of length 2 or more keep their traffic, and everything else goes into the tunnel |
| `Routes.BestIsUnique` | internal/exitnode/routes.go:43-46 | longest-prefix match has one answer on masked prefixes |
| `Nat.EnableIsAllOrNothing` | internal/exitnode/nat.go:325-345 | from a host without the plan's rules: each rule exactly once and nothing else changed, or the original host; disabling gives the original host |
| `Nat.EnableSucceeds` | internal/exitnode/nat.go:325-345 | success needs a valid plan and, for an exit, a forwarding flag that can be read and is on or can be switched on, and follows if every rule can be added |
| `Nat.EnableGoesAround` | internal/exitnode/nat.go:364-373 | FORWARD rules go before every earlier line of the chain, POSTROUTING rules after |
| `Nat.SourceRulesMean` | internal/exitnode/nat.go:129-143 | for every packet: what a source sends out of the uplink is masqueraded, it may pass from tunnel to uplink, and back only what belongs to it |
| `Nat.ClientRuleMeans` | internal/exitnode/nat.go:129-143 | for every packet: a client masquerades what leaves through the tunnel from any other address |
| `Nat.ExitRulesMean` | internal/exitnode/nat.go:129-143 | an exit has the rules of each of its sources and no other |
| `Nat.RollbackIsExact` | internal/exitnode/nat.go:325-345 | a failed activation restores the host if and only if it did not get to the rules or the host held none of them |
| `Nat.DisableIsExact` | internal/exitnode/nat.go:402-442 | disabling after a successful activation restores the host if and only if it held none of the rules before |
| `Nat.RollbackCanLoseRule` | internal/exitnode/nat.go:325-345 | with one rule there before and the next one refused, the rollback removes the first |
| `Nat.EnsureRestores` | internal/exitnode/nat.go:446-475 | after any external removal each rule is back exactly once and disabling has the same result as before |
| `Nat.WithdrawnStrips` | internal/exitnode/nat.go:402-442 | withdrawing up to a few copies of each rule removes exactly the plan's rules |
| `Nat.AppliedMeans` | internal/exitnode/nat.go:364-373 | applying adds each missing rule once and nothing else, in every prefix |
| `Nat.Firewall.ApplyRules` | internal/exitnode/nat.go:364-373 | the check-then-add loop, stopped by the first failure |
| `Nat.Firewall.DisableNAT` | internal/exitnode/nat.go:402-442 | the whole new rule lists and forwarding flag |
| `Nat.Firewall.EnableNAT` | internal/exitnode/nat.go:325-345 | the whole new host, with an invalid plan, an unreadable or unwritable forwarding flag, and rollback on failure |
| `Nat.Firewall.EnsureNAT` | internal/exitnode/nat.go:446-475 | the whole new host when some rule is missing, no change otherwise |
| `ReplayCache.ExecutedAtMostOnce` | internal/agent/usp.go:417-503 | with requests resolved inside their lifetime, in every interleaving two executions of one key never overlap, and in between the first is resolved and its entry released by abort, expiry, eviction or an oversized reply |
| `ReplayCache.HandlersApartIff` | internal/agent/usp.go:436-503 | over every run, with handlers that may outlive their tickets, two handlers of one key never overlap if and only if no request arrives while an earlier handler of its key runs, its entry is absent or past its expiry, it is no request for fragments of a read, and there is room or a finished entry to evict |
| `ReplayCache.RestartsIff` | internal/agent/usp.go:436-503 | a step starts a second handler if and only if it is the arrival of such a request |
| `ReplayCache.SlowHandlerOverlaps` | internal/agent/usp.go:709-719 | a run in which a handler overruns, its reply expires and a repetition starts a second handler beside it |
| `ReplayCache.ReplayIsLastReply` | internal/agent/usp.go:454-465 | the finished entry a repetition is answered from, at once or after waiting, holds the last reply of its key |
| `ReplayHistory.RepetitionIsMatched` | internal/agent/usp.go:442-465 | over every run, a repetition waits only on the last execution of its key and only if that carried the same fingerprint, and is refused as reused only if it carried another |
| `ReplayHistory.WaitsOnEntry` | internal/agent/usp.go:442-503 | when a begin misses, finds the cache full or executes |
| `ReplayHistory.ReplyStored` | internal/agent/usp.go:505-537 | a completed reply is kept 120 seconds, 30 if a read, unless it is a read of more than 512 KiB |
| `ReplayHistory.AnsweredForLifetime` | internal/agent/usp.go:436-465 | over every run, a stored reply answers every repetition with its fingerprint for that time unless it was evicted |
| `ReplayHistory.CapacityEvictsOldest` | internal/agent/usp.go:475-500 | at 256 entries one finished entry goes, of those that expire first |
| `ReplayHistory.TrimIsOldestFirst` | internal/agent/usp.go:539-560 | trimming takes the read replies that expire first |
| `ReplayHistory.TrimIsMinimal` | internal/agent/usp.go:539-560 | and no more than it has to |
| `ReplayCache.LifetimeIsExact` | internal/agent/usp.go:436-503 | while a request runs, a repetition can start a second execution if and only if it arrives after the deadline, is no request for fragments of a read, and there is room or a finished entry to evict |
| `ReplayCache.LateRepetitionOverlaps` | internal/agent/usp.go:436-503 | a run of two begins of one request, the second past the lifetime, with both running |
| `ReplayCache.CacheIsBounded` | internal/agent/usp.go:475-500 | in every reachable state at most 256 entries, finished read replies within 2 MiB, no ready channel closed twice |
| `ReplayCache.RunningNeverEvicted` | internal/agent/usp.go:436-494 | a running entry that a step does not itself end stays as it was if and only if the step is not a begin past its expiry |
| `ReplayCache.TrimShrinks` | internal/agent/usp.go:539-560 | trimming only removes finished read replies other than the one just stored |
| `ReplayCache.TrimFits` | internal/agent/usp.go:539-560 | where trimming stops, the finished read replies fit the budget |
| `ReplayCache.Separated` | internal/agent/usp.go:417-574 | between two starts of one key in an ordered history there is a resolution and then a release |
| `ReplayCache.CompleteEffect` | internal/agent/usp.go:505-537 | what completing does to each entry: stored, dropped as too large, evicted or untouched |
| `ReplayCache.SystemKeeps` | internal/agent/usp.go:656-772 | tickets, entries and history stay in step in every timely run |
| `ReplayCache.ControlReplay.DropExpired` | internal/agent/usp.go:436-441 | exactly the entries past their time go |
| `ReplayCache.ControlReplay.FindOldestFinished` | internal/agent/usp.go:475-494 | a finished entry of least expiry, if there is a finished one |
| `ReplayCache.ControlReplay.BeginControlReplay` | internal/agent/usp.go:417-503 | the begin relation: wait on an entry with the same fingerprint, refuse another fingerprint, a missing read or a full cache, else execute, with the eviction that made room |
| `ReplayCache.ControlReplay.Replay` | internal/agent/usp.go:454-465 | a woken waiter is answered exactly when its key has a finished entry, with the frames of that entry, and always when the entry it waited for is still there |
| `ReplayCache.ControlReplay.CompleteControlReplay` | internal/agent/usp.go:505-537 | the complete relation, with the replies trimmed |
| `ReplayCache.ControlReplay.ScanReads` | internal/agent/usp.go:539-560 | the total of finished read replies and the oldest one that may go |
| `ReplayCache.ControlReplay.TrimReadReplay` | internal/agent/usp.go:539-560 | the loop evicts oldest first while over budget, and ends because finished read replies get fewer |
| `ReplayCache.ControlReplay.AbortControlReplay` | internal/agent/usp.go:562-574 | the running entry of the ticket goes and its channel is closed once |
| `RefreshCache.OneSweepAtATime` | internal/agent/usp_cache.go:247-280 | in every interleaving at most one sweep owns the cache, exactly while refreshing is set, and no done channel is closed twice |
| `RefreshCache.NoWriteLeftBehind` | internal/agent/usp_cache.go:479-520 | with no sweep running and no refresh queued, a backend collection began after every registered write |
| `RefreshCache.QuietEndMeansCovered` | internal/agent/usp_cache.go:262-280 | a sweep about to end without a rerun began collecting after every registered write |
| `RefreshCache.RerunHasCause` | internal/agent/usp_cache.go:479-520 | the rerun flag is set only by a request during the running sweep |
| `RefreshCache.RefreshesAreConserved` | internal/agent/usp_cache.go:479-520 | over every run each request, settle timer, rerun and started refresh is accounted for |
| `RefreshCache.RunKeeps` | internal/agent/usp_cache.go:212-313 | the two invariants in every reachable state |
| `RefreshCache.Cache.BeginSweep` | internal/agent/usp_cache.go:247-258 | owner or joiner, and the channel to wait on |
| `RefreshCache.Cache.RequestRerun` | internal/agent/usp_cache.go:491-520 | a running sweep is marked for a rerun |
| `RefreshCache.Cache.FinishSweep` | internal/agent/usp_cache.go:262-280 | ownership ends, the channel is closed, the rerun flag is handed over |
| `Accounts.NoConfigurationIsLost` | internal/accounts/accounts.go:116-328 | no run of operations, each cut after any file write, and edits of the active file changes the configuration of an account none of them is about, and the store stays valid |
| `AccountFiles.PendingKeysAreKept` | internal/accounts/accounts.go:116-328 | no run of operations, each cut after any file write, loses or changes the key file of a pending account none of them is about |
| `AccountFiles.AddMeans` | internal/accounts/accounts.go:116-144 | a finished addition leaves one new pending entry with the key, its id and the cleaned or default name, and the key file byte for byte |
| `AccountFiles.RenameMeans` | internal/accounts/accounts.go:235-251 | a finished renaming changes that name to the cleaned one and nothing else |
| `AccountFiles.RemoveMeans` | internal/accounts/accounts.go:256-278 | a finished removal leaves no entry, configuration or key file of the account and every other entry |
| `AccountFiles.UseMeans` | internal/accounts/accounts.go:198-232 | a finished switch makes exactly the saved configuration active and saves the one it leaves |
| `AccountFiles.ListMeans` | internal/accounts/accounts.go:282-313 | synchronising gives the active configuration an entry and a saved copy if it has none |
| `Accounts.OperationIsSafe` | internal/accounts/accounts.go:116-278 | every operation cut anywhere keeps every other account's configuration byte for byte, each pending entry its key file and each claimed entry its configuration file |
| `Accounts.CompleteNeedsTheId` | internal/accounts/accounts.go:172-193 | completing leaves a valid store if and only if it is given the entry's id or an old file of that entry exists |
| `Accounts.CompleteSetsConfigIff` | internal/accounts/accounts.go:172-193 | an account that is not active gets the configuration it is completed with if and only if the argument is its id or its old file holds the same bytes |
| `Accounts.CompleteByNameLosesFile` | internal/accounts/accounts.go:172-193 | an account completed by its name is claimed and has no configuration file |
| `Accounts.SyncSafe` | internal/accounts/accounts.go:282-313 | synchronising the active configuration, cut anywhere, loses nothing |
| `Accounts.FindBounds` | internal/accounts/accounts.go:315-328 | the lookup returns the first entry with that id, else the first with that folded name, and nothing only when there is none |
| `Accounts.Store.Commit` | internal/accounts/accounts.go:423-446 | a write happens whole or not at all |
| `Accounts.Store.SyncActive` | internal/accounts/accounts.go:282-313 | the writes of a synchronisation, cut where the disk stops |
| `Accounts.Store.Add` | internal/accounts/accounts.go:116-144 | the writes of an addition, cut where the disk stops |
| `Accounts.Store.Complete` | internal/accounts/accounts.go:172-193 | the writes of a completion, cut where the disk stops, and the outcome |
| `Accounts.Store.Use` | internal/accounts/accounts.go:198-232 | the writes of a switch, cut where the disk stops |
| `Accounts.Store.Rename` | internal/accounts/accounts.go:235-251 | the writes of a renaming, cut where the disk stops, and the outcome in each case |
| `Accounts.Store.Remove` | internal/accounts/accounts.go:256-278 | the writes of a removal, cut where the disk stops, and the outcome in each case |
| `StaCalibration.CalibrationDecodesItself` | internal/iwinfo/vendor_parse.go:450-573 | after a successful calibration the same buffer decodes to a permutation of the listed MACs, and agrees within tolerance on every learned field the list knows and the decoder reports |
| `StaCalibration.DecodeReports` | internal/iwinfo/vendor_parse.go:535-573 | a record decodes exactly when it holds a valid MAC, and reports every learned field that fits it, the signal exactly for an RSSI from 1 to 127, with the stored values |
| `StaCalibration.SplitMeans` | internal/iwinfo/vendor_parse.go:430-444 | the records lie one after the other, each as long as it says and at least 16, up to the end or a zero length, and none come back exactly when a length does not fit |
| `StaCalibration.LearnedNeedsEvidence` | internal/iwinfo/vendor_parse.go:487-532 | an offset is learned only if some listed station gives evidence for the field |
| `StaCalibration.EvidenceMeans` | internal/iwinfo/vendor_parse.go:507-532 | what counts as evidence and within which tolerance |
| `StaCalibration.NumbersMean` | internal/iwinfo/vendor_parse.go:430-444 | numbers are read in the machine's byte order |
| `StaCalibration.CalibrateStaLayout` | internal/iwinfo/vendor_parse.go:450-532 | success exactly when the records align with the list and the signal and one rate were learned; each learned offset is the only one that fits |
| `StaCalibration.SplitStaRecords` | internal/iwinfo/vendor_parse.go:430-444 | the offset walk gives the length-prefixed records, or none when one is malformed |
| `StaCalibration.FindMacOffset` | internal/iwinfo/vendor_parse.go:464-485 | the first offset where every record holds a different listed MAC |
| `StaCalibration.TryMacOffset` | internal/iwinfo/vendor_parse.go:464-485 | whether an offset holds distinct listed MACs in every record, with the stations found |
| `StaCalibration.FindUnique` | internal/iwinfo/vendor_parse.go:487-513 | the only offset outside the MAC at which every record fits, or none when there are none or several |
| `StaCalibration.TryField` | internal/iwinfo/vendor_parse.go:487-513 | whether one offset fits every record |
| `StaCalibration.DecodeCalibratedStaInfo` | internal/iwinfo/vendor_parse.go:535-573 | all records decoded, or nothing when one has no valid MAC |
| `StaCalibration.Pigeonhole` | internal/iwinfo/vendor_parse.go:464-485 | distinct MACs out of a list of the same length are a permutation of it |
| `StaCalibration.FieldAgrees` | internal/iwinfo/vendor_parse.go:535-573 | a reported field that fitted at calibration decodes within its tolerance |
| `LocalAccess.ParseMeans` | internal/device/local_access.go:184-207 | parsed routes are exactly the masked inputs, once each, sorted, private and within the limit |
| `LocalAccess.PrivateMeans` | internal/device/local_access.go:179-182 | private means inside one of the three blocks of section 3 of RFC 1918 |
| `LocalAccess.BeforeMeans` | internal/device/local_access.go:184-207 | the order of printed routes is lexicographic |
| `LocalAccess.PrintedMeans` | internal/device/local_access.go:184-207 | a route is printed as four octets and a length |
| `LocalAccess.DecimalMeans` | internal/device/local_access.go:184-207 | numbers are printed in decimal without leading zeros |
| `LocalAccess.DecodeMeans` | internal/device/local_access.go:48-81 | a message decodes exactly when it is as long as its count of at most 16 says and every entry is a private network of length 8 to 32, and then to each masked route once |
| `LocalAccess.ParseRoutes` | internal/device/local_access.go:184-207 | the loop computes that parse, and refuses too many routes, text that is no prefix and masked routes that are not private |
| `LocalAccess.AdvertisementRoundTrip` | internal/device/local_access.go:36-81 | decoding an encoded advertisement gives the sorted, de-duplicated, masked input |
| `LocalAccess.UpdateRoundTrip` | internal/device/local_access.go:83-111 | an owner update gives back the owner, and the de-duplicated masked routes if and only if the masked routes are private |
| `LocalAccess.MaskedUpdateSurvives` | internal/device/local_access.go:83-111 | masked private routes meet that condition |
| `LocalAccess.UnmaskedUpdateCanFail` | internal/device/local_access.go:91-99 | 172.16.0.0/8 does not |
| `LocalAccess.Encode` | internal/device/local_access.go:36-45 | the loop fills the five bytes of each route |
| `LocalAccess.Decode` | internal/device/local_access.go:48-81 | the loop decodes exactly the well-formed private routes, or refuses |
| `LocalAccess.OverlapsAny` | internal/device/local_access.go:491-508 | true exactly when the route shares an address with a candidate |
| `LocalAccess.MaskedOverlap` | internal/device/local_access.go:491-508 | the test on masked prefixes is exact |
| `LocalAccess.Device.Sync` | internal/device/local_access.go:406-489 | the wanted list is exactly the advertised routes disjoint from every selected LAN, sorted; the new record and the installed set follow from it, the old record and the number of commands that succeed, on success and on failure |
| `LocalAccess.SyncedIffNoDrift` | internal/device/local_access.go:455-488 | over every run of synchronisations, after a success the installed routes are the recorded ones if and only if no route lost by failed attempts is wanted again and every route they added is wanted |
| `LocalAccess.DriftIsExact` | internal/device/local_access.go:455-488 | over every run, record and system differ by exactly the routes that failed attempts removed or added and no success has settled since |
| `LocalAccess.FailedSyncLosesRoute` | internal/device/local_access.go:455-488 | the two attempts of such a run, computed from the record, the wanted list and the number of commands |
| `LocalAccess.LoseRoute` | internal/device/local_access.go:455-488 | two calls of the synchronisation, the first failing after its removal, leave a route recorded and not installed |
| `LocalAccess.AttemptIsPossible` | internal/device/local_access.go:455-488 | every synchronisation is one of the attempts the runs are made of |
| `Cidr.OverlapIsExact` | internal/device/local_access.go:491-508 | two blocks (section 3.1 of RFC 4632) share an address exactly when one contains the other's network address |
| `EchoReply.ReplyIsSound` | internal/device/exitnode_userspace.go:398-426 | exactly the accepted requests are answered, both checksums verify without overflowing 32 bits (section 1 of RFC 1071), addresses are swapped, identifier, sequence and payload return |
| `EchoReply.RequestIsAnswered` | internal/device/exitnode_userspace.go:398-426 | every echo request is answered with its identifier, sequence number and payload and the addresses swapped |
| `EchoReply.OthersAreNotAnswered` | internal/device/exitnode_userspace.go:365-394 | no reply is itself answered, nor any fragment, other protocol, other ICMP type or packet too short for its lengths |
| `EchoReply.Checksum` | internal/device/exitnode_userspace.go:429-441 | the word loop and the fold loop compute the ones-complement sum |
| `EchoReply.FoldMeans` | internal/device/exitnode_userspace.go:429-441 | folding ends below 2^16, congruent modulo 65535, and zero only for zero |
| `EchoReply.SealedVerifies` | internal/device/exitnode_userspace.go:429-441 | a buffer with the complement of its sum stored sums to 0xffff |
| `EchoReply.WordSumBound` | internal/device/exitnode_userspace.go:429-441 | the sum of a packet stays below 2^32 |
| `EchoReply.BuildReply` | internal/device/exitnode_userspace.go:398-426 | filling the buffer in place gives that reply |
| `EditDistance.DistanceIsShortest` | cmd/wantasticd/main.go:108-126 | the table's entry is the length of a shortest insert, delete and substitute script |
| `EditDistance.NoShorterScript` | cmd/wantasticd/main.go:108-126 | no script is shorter |
| `EditDistance.ShortestScript` | cmd/wantasticd/main.go:108-126 | a script of that length exists |
| `EditDistance.EditDistance` | cmd/wantasticd/main.go:108-126 | the two rows compute the distance |
| `EditDistance.SuggestCommand` | cmd/wantasticd/main.go:98-106 | for any list of commands and the lower-cased name: the first command at the least distance if that is at most two, else nothing |
| `EditDistance.SuggestionIsClose` | cmd/wantasticd/main.go:98-106 | something is suggested exactly when some command is at most two edits away, it is such a command, and a command is suggested for its own name |

## Left out

- Transfer: termination of the download loop, since a failed wait after the context has ended resends and goes on (internal/agent/usp_stream.go:388-402).
- Transfer: the claims are for fewer than 2^32 chunks; the wrap-around of the numbers is in the model, but nothing is claimed after it.
- WUSP encoding, fragmentation, the WireGuard device, gVisor and peer discovery: other code, taken as abstract inputs; the IPv4 header encoder of the echo reply is modelled as a plain 20-byte header.
- Exit engine: the panic breaker (internal/device/exitnode.go:271-339), a crash between the route commands and the save, request pacing, how a path is punched, the status API, and the offering side.
- Exit engine: delete commands and allowed-IP removals are taken to succeed when their target is there, the tunnel name is fixed, the allowed IPs of a peer other than 0.0.0.0/0 are rewritten as they were and not modelled, and over runs the split and reject keys are never taken by others nor, where the route command overwrites, any planned key (`UndoneIffKeysFree` shows why, and drops both assumptions for one activation); nor do others change the NAT rules or hold a rule of the client plan (`FirewallUndoneIff` drops the latter).
- Exit engine: the text of the route commands on Linux, macOS and Windows; a command is a change of the route table that may be refused.
- NAT: the pf, nft, fw4 and user-space backends; deletes and checks are taken to work, and the plan's own validation is one flag.
- Replay cache: a waiter does not compare fingerprints again when it wakes, so nothing is claimed about the fingerprint of an entry replaced during the wait.
- Refresh cache: that a burst of writes costs at most two collections depends on scheduling; message merging, and the error seen by joiners.
- Accounts.Store.Commit: the temporary file and its rename are one atomic write, which is what a rename promises; a temporary file left behind by a crash is not modelled.
- Account store: claim and server URLs and time fields; best-effort deletes are taken to succeed unless the operation is cut there; key derivation, hashing, JSON and name folding are parameters, with distinct ids and no name equal to an id as explicit assumptions.
- Local access: snapshot and removal messages, the choice of LANs, and the IPC text.
- Echo reply: the rest of the user-space exit, which is gVisor plumbing.
- Suggestions: what lower-casing does to a character, and the list of commands; both are parameters.
- AT modem, nl80211, wlanapi, netsh, HTTP API, CLI, tray, OAuth, service, update and port-file code: device I/O and thin wrappers without state of their own.
