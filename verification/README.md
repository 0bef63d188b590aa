# circulusd: verified models of its stateful core

circulusd hosts agent sessions: it stores content-addressed artifacts, places sessions in
worker processes, encodes everything it hashes in one canonical byte form, keeps its
authentication state as an audited log, and lets external effects start at most once.
This project models the six components that carry these promises and proves them in Dafny.

* **Artifacts** (`internal/artifact`). `ArtifactRepository` is the repository as functions of
  its state, `BlobStore` the versioned object store with its history, `ArtifactProtocol` the
  creators and collectors of the service interleaved at every repository and store call, with
  puts and deletes that land late, twice or never. `ArtifactConservation`, `ArtifactCollection`,
  `ArtifactScans`, `ArtifactAbandonment`, `ArtifactGrace`, `ArtifactHistory` and `ArtifactSafety`
  prove what holds over every run; `ArtifactDecisions` says what every call answers and when, and
  `ArtifactProgress` what creators and collectors achieve when they are left alone, and
  `ProtocolDecisions` what each of their steps does.
  `SweepQueue`, `MemoryRepository` and `MemoryBlobStore` are the mutable objects: an in-place
  binary heap with stored indexes, and methods that refine the functions.
* **Canonical codec** (`internal/canonical`). `CanonicalForm` says what the byte form of a value
  is; `CanonicalParser`, `CanonicalReading` and `CanonicalAcceptance` show that strict parsing
  accepts exactly these forms; `CanonicalDecoder` and `CanonicalEncoder` are the recursive,
  bounded reader and writer; `Canonical` puts them together.
* **Placement manager and launcher** (`internal/agent`). `AgentManager` is the manager as a
  machine whose steps are its critical sections; `AgentOwnership`, `AgentSafety`,
  `AgentAdmission`, `AgentOccupancy`, `AgentIdentifiers` and `AgentTrust` prove its invariants over
  every run, `AgentDecisions` and `AgentShutdown` say what each section decides, and `AgentRelaunch`
  is one run in full; `PlacementManager` is the object with its maps, loops and retry epochs, each method one
  such step. `ShardLauncher`, `LauncherDecisions` and `WorkerdLauncher` do the same for the process
  launcher below it, `CgroupController`, `CgroupSafety`, `CgroupProgress` and `CgroupLeases` for the
  cgroup lease controller.
* **Authentication state** (`internal/authstate`, `internal/auth`). `AccountLog`,
  `AccountRuns`, `AccountLockout`, `AccountHistories` and `AccountChain`: accounts equal the
  replay of their log, when a lockout begins, what it is worth, two runs that show its limits,
  and what the hash chain fixes; `AccountDecisions`: what an attempt comes to, which transactions
  are accepted and what an accepted log says. `PatLog`, `PatChain` and `PatDecisions`: the same for
  access tokens.
  `AccountStore`, `PatStore`, `PatCodec` and `PatDatabase` are the stores that search, sort,
  check and rewrite slices, and the stored form of the tokens.
* **Effects** (`internal/broker`). `EffectBroker`: one effect under the atomic store contract,
  with competing coordinators and consumers that act on stale snapshots; `EffectDecisions`: when
  each of its steps takes effect, and that an outcome is only ever what the ledger said.
* **Commands** (`internal/celld`). `CommandHost`: idempotent commands behind a durability
  barrier with crashes; `CommandDecisions`: when a command is run, repeated and answered;
  `HostExecution` is the call itself.

A machine's run is a sequence of steps; a step that its guard forbids leaves the state as it is,
so a theorem about `Run(initial, steps)` speaks about every interleaving. Identifiers are
opaque numbers (`Name`), instants are integers. SHA-256, Unicode validity and NFC, and the
spelling of names and instants are parameters with the laws they need (`Hash`, `Unicode`,
`Spelling`), never axioms.

Three properties do not hold of the code as one might state them; each comes with a run that
breaks it and the exact condition under which it holds.

* A lockout binds the time a login is committed, not the time on the login.
  `AccountHistories.BackdatedLoginCommitted` is a run of the store whose last row is an
  authenticated login dated inside the lockout; `AccountLockout.BackdatingExcludedExactly` says
  when this cannot happen, and `LockoutHonoured` proves the property of the commit times.
* A lockout does not always last the policy's time from the commit that sets it.
  `AccountHistories.LateFailureLocksShort` is the run; `AccountRuns.LockOutlastsCommitExactly`:
  it does if and only if the time the failure counts for is the time of its commit.
* A launch can begin under the identifier of a shard that is still live, and the launcher
  below then asks that shard's process to stop. `AgentRelaunch.LaunchUnderLiveIdentifier` is
  the run and `LiveShardIsStopped` what the launcher makes of it;
  `AgentIdentifiers.LaunchTakesLiveIdentifier` says exactly which launches do so,
  `LiveRetryWasRevived` and `RevivalIsLive` which cancellations lead there.

Five branches are proved unreachable: the manager's check that a leaving session's
reservation is covered (`AgentAdmission.ReservationCovered`), its removal of a stop that has
already succeeded (`AgentDecisions.ReselectDecided`), the repository's "committed
without an artifact" (`ArtifactCollection.CommitDecided`), the launcher's stop of an older
published instance before it publishes (`ShardLauncher.NothingToReplace`), and the command host's
refusal of a stored receipt with too many claims (`CommandDecisions.ExecuteDecided`).

## Model

| member | source | states |
|---|---|---|
| ArtifactConservation.CallSound | internal/artifact/memory.go:108-645 | every repository call keeps the books: reserved and used bytes are the sums over inflight invocations and active artifacts, both reference counters are exact, used + reserved is within the quota, and a swept object has no reference |
| ArtifactConservation.RunSound | internal/artifact/memory.go:83-645 | the same over every sequence of calls |
| ArtifactConservation.ReferencedIsUnclaimed | internal/artifact/memory.go:546-554 | an object with an inflight invocation or an active artifact carries no sweep claim |
| ArtifactCollection.CommitDecided | internal/artifact/memory.go:184-229 | in every reachable state a commit stores its artifact if and only if the invocation is live at this generation and the artifact repeats the reservation; replays return the stored artifact, and the corruption branch is never taken |
| ArtifactCollection.AdmissionWithinQuota | internal/artifact/memory.go:122-125 | the free quota the admission subtracts is between zero and the quota, so it cannot wrap around |
| ArtifactCollection.SupersededLeaseIsInert | internal/artifact/memory.go:293-645 | once a newer lease token has been issued, no call under an older token changes anything, however the run continues |
| ArtifactCollection.PageAdvances | internal/artifact/memory.go:482-511 | a page that passes a waiting claim over takes a full page of claims from ahead of it |
| ArtifactCollection.NobodyOvertakes | internal/artifact/memory.go:482-565 | no call puts another claim ahead of a waiting one |
| ArtifactCollection.OfferedWithinRank | internal/artifact/memory.go:482-511 | pages that pass a claim over, times the limit, never exceed its rank, whatever arrives meanwhile |
| ArtifactCollection.OfferedWithinCalls | internal/artifact/memory.go:482-511 | a claim of rank r is passed over by at most r / limit pages, so page r / limit + 1 offers it |
| ArtifactScans.CycleComplete | internal/artifact/memory.go:293-326 | a finished expiry cycle visited every place once and in order, with other calls in between, and every artifact that had expired is retired |
| ArtifactAbandonment.CycleComplete | internal/artifact/memory.go:355-412 | a finished abandonment cycle visited every place once and in order, and no reservation it found is still inflight with a lapsed heartbeat |
| ArtifactAbandonment.RunWears | internal/artifact/memory.go:108-229 | over every run heartbeats only move forward, reservations keep their place, and none becomes inflight again |
| ArtifactScans.RunAges | internal/artifact/memory.go:184-326 | over every run artifacts keep their place and expiry, and none becomes active again |
| ArtifactRepository.PageBounds | internal/artifact/memory.go:388-412 | a readable cursor gives a stretch inside the order |
| ArtifactGrace.RunGraces | internal/artifact/memory.go:328-332 | over every run the time kept per object is no earlier than any tombstone on it |
| ArtifactGrace.ClaimedAfterGrace | internal/artifact/memory.go:537-565 | in every reachable state an object is claimed only when nothing refers to it and every tombstone on it is at least as old as the cutoff |
| ArtifactHistory.RunAging | internal/artifact/memory.go:355-386 | over every run an invocation is at generation 1 until it is abandoned and at 2 from then on |
| ArtifactHistory.InvocationOrigin | internal/artifact/memory.go:108-149 | every invocation on record was begun by an earlier call of this run, with exactly the fields of that call's request |
| ArtifactHistory.BegunOnce | internal/artifact/memory.go:108-149 | no two calls of a run begin the same invocation |
| ArtifactHistory.ReplayedFromTheFirst | internal/artifact/memory.go:111-117 | a replayed begin answers with what the first call of that identifier reserved, whatever the later request says |
| ArtifactHistory.ArtifactOrigin | internal/artifact/memory.go:184-229 | every artifact on record was stored by a commit of this run, with the fields of that commit |
| ArtifactDecisions.BeginDecided | internal/artifact/memory.go:108-149 | in every reachable state each of the six answers of a begin is given if and only if its condition holds: conflict for another tenant or digest, the stored record for the same request, a sweep, the quota, a taken artifact identifier, or a new reservation that repeats the request |
| ArtifactDecisions.BeginLeaves | internal/artifact/memory.go:126-149 | a new reservation adds exactly itself and its bytes; any other answer changes nothing |
| ArtifactDecisions.HeartbeatDecided | internal/artifact/memory.go:151-182 | in every reachable state a heartbeat answers and moves the record exactly as its state and generation allow, and never backwards |
| ArtifactDecisions.CommitAnswered | internal/artifact/memory.go:184-229 | in every reachable state each answer of a commit and its effect, by what is on record |
| ArtifactDecisions.TombstoneDecided | internal/artifact/memory.go:244-268 | in every reachable state a deletion finds nothing, another tenant, an artifact already retired, or retires this one |
| ArtifactDecisions.ExpireDecided | internal/artifact/memory.go:293-326 | an expiry page retires exactly the overdue artifacts on it and counts them; it is refused exactly without the lease, a size or a readable cursor |
| ArtifactDecisions.AbandonDecided | internal/artifact/memory.go:355-386 | an abandonment page drops exactly the silent reservations on it and counts them |
| ArtifactDecisions.AcquireDecided | internal/artifact/memory.go:414-434 | the lease is granted if and only if nobody holds an unexpired one, under a token nobody has had |
| ArtifactDecisions.RenewDecided | internal/artifact/memory.go:436-451 | only the holder of an unexpired lease renews it, and only its end moves |
| ArtifactDecisions.ReleaseDecided | internal/artifact/memory.go:453-466 | only the holder gives the lease back, and the checkpoint is kept |
| ArtifactDecisions.PendingDecided | internal/artifact/memory.go:482-511 | a page offers the claims that have waited longest, handed to the lease and sent to the back; the rest keep their place |
| ArtifactDecisions.ClaimDecided | internal/artifact/memory.go:537-565 | an object is claimed if and only if nothing inflight or active names it, it is not claimed, and no tombstone on it is younger than the cutoff; the claim goes to the back of the queue |
| ArtifactDecisions.RetireDecided | internal/artifact/memory.go:597-612 | a claim is given up exactly by the lease that holds it |
| ArtifactDecisions.FinishDecided | internal/artifact/memory.go:614-645 | a finished sweep purges exactly the tombstoned artifacts of the object, counts them and gives the claim up |
| ArtifactGrace.CheckpointSurvives | internal/artifact/memory.go:414-466 | the next lease carries the checkpoint of the last effective release, whatever happens in between |
| BlobStore.PutSound | internal/artifact/memory.go:717-751 | a put keeps history, objects and versions consistent; versions are never given twice |
| BlobStore.DeleteSound | internal/artifact/memory.go:877-899 | a conditional delete keeps them consistent and removes the object only at the named version |
| BlobStore.ListingIsSnapshot | internal/artifact/memory.go:800-855 | pages of any sizes, with puts and deletes in between, list exactly the objects stored at the epoch, each once, in creation order |
| BlobStore.ListingEnds | internal/artifact/memory.go:800-855 | as many pages of permitted sizes as the epoch has lines end the listing, whatever happens in between |
| BlobStore.PageDecided | internal/artifact/memory.go:800-855 | a page is refused exactly for a size that is not permitted, an epoch of the future or a place outside it; otherwise it lists exactly what the epoch sees of its stretch and says where to go on |
| BlobStore.PutDecided | internal/artifact/memory.go:717-751 | in every reachable state a put of a new key stores it under a version nobody has had, and a put of a stored key is accepted if and only if the content is the same |
| BlobStore.DeleteDecided | internal/artifact/memory.go:877-899 | in every reachable state a delete removes the object if and only if it is stored at this very version; one line of the history then says when |
| ArtifactSafety.DeleteSafe | internal/artifact/service.go:622-691 | a delete whose version is claimed or gone removes no referenced object, and afterwards that version is not current |
| ArtifactSafety.GoneForGood | internal/artifact/memory.go:717-751 | a version that was issued and is not current never becomes current again, whatever steps follow |
| ArtifactSafety.StrayDeleteIsHarmless | internal/artifact/service.go:622-691 | in every run a delete in flight that no claim covers removes nothing, whenever it lands, not even an object stored under the same key since |
| ArtifactSafety.StepSafe | internal/artifact/service.go:280-691 | every step of a creator, a collector, the network or a user keeps the protocol invariant |
| ArtifactSafety.RunSafe | internal/artifact/service.go:105-691 | the invariant holds over every interleaving |
| ArtifactSafety.NoActiveArtifactLosesItsObject | internal/artifact/service.go:513-691 | over every interleaving each active artifact's object is stored with its digest, and each issued delete is covered by a claim or names a version that was issued and is not current |
| ArtifactProgress.RepositoryReachable | internal/artifact/service.go:105-691 | in every interleaving the repository is in a state its own calls can reach, so every law of the repository holds there |
| ArtifactProgress.CreateCompletes | internal/artifact/service.go:105-439 | from every reachable world a creator with a request nobody has made, that fits, stores the object and commits the artifact when it is left alone |
| ArtifactProgress.ResumeCompletes | internal/artifact/service.go:194-439 | so does one that finds the reservation of an interrupted execution and its object |
| ArtifactProgress.OrphanIsClaimed | internal/artifact/service.go:513-640 | a collector that starts, reads a page with an object nothing refers to and asks for it, holds its claim |
| ArtifactProgress.SweepCompletes | internal/artifact/service.go:645-691 | a collector that finds the claimed version stored removes it and no other object, purges its artifacts and gives the claim up |
| ArtifactProgress.AbsentIsFinished | internal/artifact/service.go:645-691 | one that finds no object finishes at once |
| ArtifactProgress.ReplacedIsRetired | internal/artifact/service.go:645-691 | one that finds another version gives the claim up and touches nothing |
| ArtifactProgress.OrphanIsSwept | internal/artifact/service.go:513-691 | from every reachable world an object nothing refers to is removed by a collector that is left alone |
| ArtifactProgress.ClaimsAreTakenOver | internal/artifact/service.go:516-600 | a collector that starts after another one stopped, and asks for all claims, holds each of them |
| ArtifactProgress.CreatorsKeepToTheirRequests | internal/artifact/service.go:194-439 | over every run whoever puts an object or commits an artifact holds the inflight record of its own tenant and request |
| ProtocolDecisions.StartDecided | internal/artifact/service.go:105-193 | an execution is started once, and first looks its invocation up |
| ProtocolDecisions.LookDecided | internal/artifact/service.go:194-247 | a look finds nothing and goes on to reserve, finds its own inflight record and resumes it, or is over |
| ProtocolDecisions.ReserveDecided | internal/artifact/service.go:330-364 | in every reachable world a creator goes on to store its object exactly if it made the reservation or found an inflight one of its own request for the same object; any other answer ends it |
| ProtocolDecisions.BeatDecided | internal/artifact/service.go:248-418 | a heartbeat that is refused ends the creator, one that is taken lets it check, put or commit, and the put is for the object it holds |
| ProtocolDecisions.CheckDecided | internal/artifact/service.go:280-292 | a check finds the object with its content, finds none, or finds another one and is over |
| ProtocolDecisions.CollectStartDecided | internal/artifact/service.go:513-530 | a collector starts once, and only when no other holds an unexpired lease; then it holds one |
| ProtocolDecisions.CollectorCallsOut | internal/artifact/service.go:513-600 | scans, renewals and releases are exactly the repository calls under the collector's own lease |
| ProtocolDecisions.HeadDecided | internal/artifact/service.go:645-664 | a collector looks once, and sees the claimed version, none or another |
| ProtocolDecisions.DeleteAnswered | internal/artifact/service.go:666-682 | after the answer to a delete the claimed version is gone, and another version stored meanwhile is seen as such |
| ProtocolDecisions.PutLandsLate | internal/artifact/memory.go:717-751 | in every reachable world exactly the puts that were sent can land, at any time, and fill only a free key |
| ProtocolDecisions.DeleteLandsLate | internal/artifact/memory.go:877-899 | exactly the deletes that were sent can land, at any time, and remove only the version they name |
| ProtocolDecisions.UserDeletesOwn | internal/artifact/service.go:485-511 | in every reachable world a user retires exactly an active artifact of its own tenant |
| ProtocolDecisions.HeartbeatTicksOn | internal/artifact/service.go:266-279 | in every reachable world a background heartbeat moves exactly the inflight record of its request, and only forward |
| SweepQueue.RootComesFirst | internal/artifact/memory.go:25-30 | in a heap-ordered queue the root was offered no later than any entry |
| SweepQueue.SweepHeap.Swap | internal/artifact/memory.go:32-36 | exchanges two entries and their stored indexes |
| SweepQueue.SweepHeap.Up | internal/artifact/memory.go:21-52 | restores heap order upwards in place, indexes and members kept |
| SweepQueue.SweepHeap.LeastChild | internal/artifact/memory.go:25-30 | finds a child that no sibling precedes |
| SweepQueue.SweepHeap.Down | internal/artifact/memory.go:21-52 | restores heap order downwards in place, or reports that nothing moved |
| SweepQueue.SweepHeap.Restore | internal/artifact/memory.go:21-52 | repairs the order around one replaced entry |
| SweepQueue.SweepHeap.Push | internal/artifact/memory.go:38-42 | the queue gains exactly this claim, ordered and indexed |
| SweepQueue.SweepHeap.Pop | internal/artifact/memory.go:44-52 | takes the least recently offered claim |
| SweepQueue.SweepHeap.TakeAt | internal/artifact/memory.go:647-650 | removes the entry at a stored position and nothing else |
| SweepQueue.SweepHeap.Insert | internal/artifact/memory.go:560-563 | map and heap gain the same claim |
| SweepQueue.SweepHeap.Requeue | internal/artifact/memory.go:504-507 | a popped claim is filed again at its new order |
| SweepQueue.SweepHeap.Remove | internal/artifact/memory.go:647-650 | map and heap lose the same claim |
| MemoryRepository.Repository.constructor | internal/artifact/memory.go:83-96 | starts empty with the given quotas |
| MemoryRepository.Repository.BeginCreate | internal/artifact/memory.go:108-149 | refines the reservation step and its reply: a conflict if and only if the identifier stands for another tenant or digest, the stored record if and only if it stands for this request, and a change exactly with a new reservation; `ArtifactDecisions.BeginDecided` gives every refusal its condition |
| MemoryRepository.Repository.HeartbeatCreate | internal/artifact/memory.go:151-182 | refines the heartbeat step and its reply |
| MemoryRepository.Repository.CommitCreate | internal/artifact/memory.go:184-229 | refines the commit step and its reply |
| MemoryRepository.Repository.TombstoneArtifact | internal/artifact/memory.go:244-268 | refines deletion by a user and its reply |
| MemoryRepository.Repository.Expire | internal/artifact/memory.go:310-324 | the expiry loop is the fold over the listed artifacts, and counts them |
| MemoryRepository.Repository.TombstoneExpiredPage | internal/artifact/memory.go:293-326 | refines one page of the expiry scan |
| MemoryRepository.Repository.Lapse | internal/artifact/memory.go:373-385 | the abandonment loop is the fold over the listed reservations, and counts them |
| MemoryRepository.Repository.AbandonInflightPage | internal/artifact/memory.go:355-386 | refines one page of the abandonment scan |
| MemoryRepository.Repository.AcquireGC | internal/artifact/memory.go:414-434 | refines taking the collector lease |
| MemoryRepository.Repository.RenewGC | internal/artifact/memory.go:436-451 | refines renewing it |
| MemoryRepository.Repository.ReleaseGC | internal/artifact/memory.go:453-466 | refines releasing it with its checkpoint |
| MemoryRepository.Repository.TakeOldest | internal/artifact/memory.go:494-501 | pops exactly the least recently offered claims, in order |
| MemoryRepository.Repository.Reoffer | internal/artifact/memory.go:503-509 | hands one claim to the lease and files it behind every other |
| MemoryRepository.Repository.GiveBack | internal/artifact/memory.go:502-510 | all taken claims are back, behind every other, under the caller's lease |
| MemoryRepository.Repository.PendingSweepsPage | internal/artifact/memory.go:482-511 | the heap-backed page is the page of the least recently offered claims |
| MemoryRepository.Repository.ClaimSweepLeased | internal/artifact/memory.go:537-565 | refines claiming an object for deletion |
| MemoryRepository.Repository.RetireSweepLeased | internal/artifact/memory.go:597-612 | refines giving a claim up |
| MemoryRepository.Repository.FinishSweepLeased | internal/artifact/memory.go:614-645 | refines finishing a claim |
| MemoryRepository.Repository.Purge | internal/artifact/memory.go:631-642 | the purge loop is the fold over the object's artifacts, and counts them |
| MemoryBlobStore.Store.PutIfAbsent | internal/artifact/memory.go:717-751 | refines the put and its reply |
| MemoryBlobStore.Store.DeleteIfVersion | internal/artifact/memory.go:877-899 | refines the conditional delete and its reply |
| MemoryBlobStore.Select | internal/artifact/memory.go:842-848 | the copying loop lists exactly what the snapshot sees |
| MemoryBlobStore.Store.ListPage | internal/artifact/memory.go:800-855 | refines one page of the listing |
| CanonicalForm.BigEndianOfNumeral | internal/canonical/cbor.go:440-459 | a head's argument bytes and its number determine each other |
| CanonicalForm.KeyBytesInjective | internal/canonical/cbor.go:235-240 | different text keys have different encodings |
| CanonicalForm.SortedUnique | internal/canonical/cbor.go:235-240 | a set of keys has one strictly ascending order |
| CanonicalForm.NormalIsCanonical | internal/canonical/cbor.go:131-260 | normalising an encodable value gives a canonical one |
| CanonicalForm.CanonicalIsNormal | internal/canonical/cbor.go:131-260 | a canonical value is encodable and its own normal form |
| CanonicalParser.ArgumentSound | internal/canonical/cbor.go:300-329 | a head that is read is the shortest head of its argument |
| CanonicalParser.ArgumentComplete | internal/canonical/cbor.go:300-329 | the shortest head of every argument is read |
| CanonicalReading.ParseSound | internal/canonical/cbor.go:270-435 | what strict parsing accepts is canonical, within the limits, and its byte form is what was read |
| CanonicalAcceptance.ParseComplete | internal/canonical/cbor.go:270-435 | the byte form of every canonical value within the limits is accepted and read as that value |
| CanonicalDecoder.Decoder.ReadArgument | internal/canonical/cbor.go:300-329 | the offset moves over exactly one head, which is the shortest |
| CanonicalDecoder.Decoder.ReadValue | internal/canonical/cbor.go:270-435 | the recursive reader computes the parse, with offset and item count |
| CanonicalDecoder.Decoder.ReadItems | internal/canonical/cbor.go:363-387 | the array loop computes the parse of its items |
| CanonicalDecoder.Decoder.ReadEntries | internal/canonical/cbor.go:388-434 | the map loop computes the parse of its entries and refuses keys that do not ascend |
| CanonicalEncoder.SortEntries | internal/canonical/cbor.go:235-240 | the sorted entries are strictly ascending and are the given ones |
| CanonicalEncoder.Writer.AppendBytes | internal/canonical/cbor.go:461-467 | appends all bytes or, past the limit, refuses |
| CanonicalEncoder.Writer.AppendHead | internal/canonical/cbor.go:440-459 | appends the shortest head |
| CanonicalEncoder.Writer.Encode | internal/canonical/cbor.go:131-260 | appends the byte form of the normalised value exactly if it is encodable and within depth, items and bytes |
| CanonicalEncoder.Writer.EncodeList | internal/canonical/cbor.go:195-207 | the same for arrays |
| CanonicalEncoder.Writer.EncodeDict | internal/canonical/cbor.go:208-256 | the same for maps, with normalised keys, duplicates refused, in ascending order |
| Canonical.Encode | internal/canonical/cbor.go:62-73 | succeeds if and only if the value is encodable and its normal form is within the limits, and returns that form |
| Canonical.Decode | internal/canonical/cbor.go:75-91 | succeeds if and only if the bytes are the byte form of some value within the limits, and returns it |
| Canonical.EncodeThenDecode | internal/canonical/cbor.go:62-91 | under the same limits decoding an encoding gives the normalised value |
| Canonical.DecodeThenEncode | internal/canonical/cbor.go:62-91 | encoding what was decoded gives back exactly the bytes |
| Canonical.EncodesOnce | internal/canonical/cbor.go:62-91 | bytes are the encoding of at most one value |
| Canonical.PrefixFree | internal/canonical/cbor.go:131-260 | no byte form is a proper prefix of another |
| Canonical.StructuredInjective | internal/canonical/cbor.go:93-109 | equal digest inputs have equal domain, version and normalised payload |
| Canonical.HeadOrder | internal/canonical/cbor.go:440-459 | heads of longer texts come later bytewise, across every head width |
| Canonical.KeyOrdersCoincide | internal/canonical/cbor.go:419-427 | on text keys the length-first order of section 4.2.3 of RFC 8949 is the bytewise order of section 4.2.1 |
| AgentSafety.NextSound | internal/agent/manager.go:211-1012 | every critical section keeps ownership of processes, launch barriers, tickets and stop epochs consistent |
| AgentSafety.RunSound | internal/agent/manager.go:211-1012 | the same over every run |
| AgentSafety.NoProcessLeaks | internal/agent/manager.go:482-720 | every process ever started is held by exactly one of its launch record, a live shard or the stop ledger, or its stop returned nil |
| AgentSafety.LedgerExit | internal/agent/manager.go:966-1012 | a process leaves the ledger only by a stop that returned nil |
| AgentSafety.StopsAreSerial | internal/agent/manager.go:966-1012 | of two stop epochs of one process the earlier has ended with a retryable error before the later exists, so stops never overlap and none follows a terminal failure |
| AgentSafety.ShutdownStopsEverything | internal/agent/manager.go:846-945 | when Shutdown can return nil every process ever started has stopped |
| AgentSafety.WaitersNeverShort | internal/agent/manager.go:510-514 | a waiting caller always finds a positive waiter count |
| AgentSafety.LaunchFindsScopeClear | internal/agent/manager.go:330-471 | when a launch begins, every earlier process of its scope is in a live shard or gone |
| AgentAdmission.RunBooked | internal/agent/manager.go:211-844 | over every run each shard's reservation is the sum over its sessions and within watermark and session limit, sessions sit where their placement says, at their latest and unreleased generation and in their own scope |
| AgentAdmission.AdmissionBounds | internal/agent/manager.go:365-409 | reservation, session count and, unless draining, resident size of every live shard are within bounds |
| AgentAdmission.NoUnderflow | internal/agent/manager.go:365-375 | the unsigned subtractions of the candidate test are exact |
| AgentAdmission.ReservationCovered | internal/agent/manager.go:293-322 | what a leaving session gives back was reserved, so its check never fires and the subtraction cannot wrap |
| AgentAdmission.PlacementFenced | internal/agent/manager.go:573-612 | a placed session is in exactly one live shard, at its latest and unreleased generation |
| AgentAdmission.ScopesIsolated | internal/agent/manager.go:229-235 | two sessions share a shard only with equal scope keys, and a session-scoped shard holds one session |
| AgentOccupancy.RunOccupied | internal/agent/manager.go:297-317 | over every run no live shard is draining without sessions, and each session-scoped one holds its session |
| AgentOccupancy.OwnProcessServes | internal/agent/manager.go:229-235 | in every reachable state a session-scoped process holds exactly the session it was started for |
| AgentOccupancy.ReleaseDecided | internal/agent/manager.go:755-789 | over every run a release of the latest generation takes the session out of its process: a session-scoped or emptied draining process leaves the live shards for the ledger, any other keeps its other sessions and gives back exactly the reservation; the stop this starts is the one a repeated release waits for |
| AgentOccupancy.SupersedeDecided | internal/agent/manager.go:293-322 | the same for a newer generation, which also moves the session's fences |
| AgentDecisions.AdmissionDecided | internal/agent/manager.go:141-180 | a request is admissible if and only if it is complete, its profile is permitted for its trust class and it can ever fit |
| AgentDecisions.CandidateIsOpen | internal/agent/manager.go:365-376 | the unsigned arithmetic of the candidate test says what it means: the process lives on, serves the scope, has a seat and room for the request |
| AgentDecisions.ScanDone | internal/agent/manager.go:350-364 | the scan drains exactly the processes past their life, sends exactly the idle ones of them to the ledger and touches nothing else |
| AgentDecisions.SettleDecided | internal/agent/manager.go:350-471 | past the fences a pass waits for an idle process past its life, takes a seat in the emptiest open process, shares the launch of its scope, reports exhaustion, or begins a launch, each exactly under its condition |
| AgentDecisions.AcquireDecided | internal/agent/manager.go:211-471 | in every reachable state a pass refuses without a trace, shares the session's launch, or proceeds, each exactly under its condition |
| AgentDecisions.LaunchReturnsDecided | internal/agent/manager.go:643-706 | a start that gave no process undoes the launch; a process that is wanted and the right one stays with it; any other is stopped first |
| AgentDecisions.LaunchEndsDecided | internal/agent/manager.go:700-720 | a rejected process undoes its launch once its stop is resolved, and not before |
| AgentDecisions.LeavesDecided | internal/agent/manager.go:482-612 | in every reachable state a caller leaves exactly when it is cancelled or its launch is over, and what becomes of the launch depends only on who is left and how it ended |
| AgentDecisions.ObserveDecided | internal/agent/manager.go:793-844 | a sample counts exactly if it is of this process and newer than the last; pressure drains the process, and an empty draining process goes to the ledger |
| AgentDecisions.ReselectDecided | internal/agent/manager.go:966-995 | a stop that is running or has failed for good is joined; after a retryable failure a new epoch takes its place |
| AgentDecisions.StopReturnsDecided | internal/agent/manager.go:997-1012 | a started, unresolved stop takes its outcome, and one without an error takes its process out of the ledger |
| AgentShutdown.CloseDecided | internal/agent/manager.go:860-884 | in every reachable state closing fences admission, sends the process of every finished launch to the ledger and leaves exactly the unfinished ones to wait for; it is cleared exactly when there is none |
| AgentShutdown.DrainDecided | internal/agent/manager.go:886-930 | in every reachable state draining leaves no live process and no placement, has every one of them in the ledger with a stop that can still succeed or has failed for good, and makes Shutdown wait for all of these |
| AgentShutdown.StopCompletes | internal/agent/manager.go:997-1012 | from every reachable state a stop that is open, is started and returns without an error takes its process out of the ledger, and nothing else |
| AgentTrust.NextPlaces | internal/agent/manager.go:211-720 | a session is newly placed only by a step that acts for its request, as that request asked and with a profile its trust class allows |
| AgentTrust.UnreviewedIsAlone | internal/agent/manager.go:141-235 | over every run, from the step that places an unreviewed request on, the shard it sits in is a Firecracker process that holds no other session |
| AgentIdentifiers.RunTidy | internal/agent/manager.go:435-720 | over every run an identifier belongs to one scope; as long as no cancellation revives one, neither a launch under way nor an identifier to be tried again has that of a live shard |
| AgentIdentifiers.LaunchTakesLiveIdentifier | internal/agent/manager.go:445-449 | a launch takes the identifier of a live shard if and only if the identifier kept for its scope is one |
| AgentIdentifiers.LiveRetryWasRevived | internal/agent/manager.go:515-517 | such an identifier is kept only after the last caller of a failed launch was cancelled while a live shard had the launch's identifier |
| AgentIdentifiers.RevivalIsLive | internal/agent/manager.go:515-517 | every such cancellation puts one there |
| AgentRelaunch.LaunchUnderLiveIdentifier | internal/agent/manager.go:435-531 | a run that ends with a launch under the identifier of a live shard holding another session |
| AgentRelaunch.LiveShardIsStopped | internal/agent/workerd_launcher_linux.go:605-701 | the launcher, having served that run, answers the launch by asking the live shard's published process to stop and retiring its generation, before anything starts |
| PlacementManager.Manager.constructor | internal/agent/manager.go:111-139 | starts empty and valid |
| PlacementManager.Manager.SelectStopEpoch | internal/agent/manager.go:966-995 | joins unresolved work, replays a terminal result, drops a successful one, or installs one new epoch |
| PlacementManager.Manager.TrackStop | internal/agent/manager.go:957-960 | moves a process that is not in the ledger into it |
| PlacementManager.Manager.StartStop | internal/agent/manager.go:997-1000 | marks an epoch started and keeps the invariants |
| PlacementManager.Manager.StopReturned | internal/agent/manager.go:1000-1011 | resolves an epoch and keeps the invariants |
| PlacementManager.Manager.ForgetSessions | internal/agent/manager.go:624-628 | the loop removes exactly the sessions that wait for this launch |
| PlacementManager.Manager.RemovePending | internal/agent/manager.go:620-629 | releases only the launch barrier |
| PlacementManager.Manager.Transfer | internal/agent/manager.go:633-641 | moves one unadopted process into the ledger, once |
| PlacementManager.Manager.LaunchReturned | internal/agent/manager.go:643-706 | keeps the process, rejects it or fails the launch, and keeps the invariants |
| PlacementManager.Manager.LaunchEnded | internal/agent/manager.go:708-720 | ends a launch whose rejected process has been dealt with |
| PlacementManager.Manager.GiveUp | internal/agent/manager.go:515-545 | the last cancelled caller abandons the launch or sends its process to the ledger |
| PlacementManager.Manager.Conclude | internal/agent/manager.go:546-612 | adopts the process, passes it on or stops it; `adopted` means this caller now has its placement |
| PlacementManager.Manager.WaitForLaunch | internal/agent/manager.go:482-612 | one caller leaves the wait; the invariants hold and an adopted claim is placed at its generation |
| PlacementManager.Manager.Rehouse | internal/agent/manager.go:763-782 | an emptied draining shard goes to the ledger, any other stays |
| PlacementManager.Manager.Leave | internal/agent/manager.go:297-318 | a session leaves its shard |
| PlacementManager.Manager.Release | internal/agent/manager.go:722-789 | each answer if and only if its condition holds, and success exactly at the latest generation, after which the session has no placement and the generation is released; a stop it began is found again by a repeated release; refusals change nothing |
| PlacementManager.Manager.Observe | internal/agent/manager.go:793-844 | each answer if and only if its condition holds, and an effect exactly for a fresh sample of the live generation: it is on record and pressure drains the shard, or the emptied shard is in the ledger; refusals change nothing |
| PlacementManager.Manager.Supersede | internal/agent/manager.go:293-322 | a newer generation displaces the session's placement; the coverage check is proved never to fire |
| PlacementManager.Manager.FindPrior | internal/agent/manager.go:330-340 | finds the first unresolved stop of the scope if there is one |
| PlacementManager.Manager.Scan | internal/agent/manager.go:350-376 | drains and retires expired shards and collects exactly the shards that can take the request |
| PlacementManager.Manager.Least | internal/agent/manager.go:390-397 | picks the least loaded candidate, ties by identifier |
| PlacementManager.Manager.BeginLaunch | internal/agent/manager.go:435-471 | spends a generation and a sequence number unless an identifier is retried, and sets both barriers |
| PlacementManager.Manager.Settle | internal/agent/manager.go:350-471 | waits for idle processes past their life, places the request exactly when there is a candidate, and otherwise shares a launch of its scope or begins one |
| PlacementManager.Manager.Acquire | internal/agent/manager.go:211-480 | each outcome of a pass exactly under its condition: every refusal, the repeated placement, the shared or begun launch, the wait for a stop, and a new placement if and only if a process is open to the request; a placement it reports is the session's at the requested generation, a ticket is for this request, and refusals change nothing |
| PlacementManager.Manager.CloseLaunches | internal/agent/manager.go:860-884 | sends every finished launch to the ledger and reports exactly when no launch is left to wait for |
| PlacementManager.Manager.RetireShards | internal/agent/manager.go:886-906 | sends every live shard to the ledger |
| PlacementManager.Manager.SelectStops | internal/agent/manager.go:907-930 | takes hold of every earlier stop |
| PlacementManager.Manager.TakeStops | internal/agent/manager.go:886-930 | the epochs it takes hold of are exactly those in the ledger afterwards |
| PlacementManager.Manager.DrainShards | internal/agent/manager.go:886-945 | after it Shutdown waits for exactly the epochs in the ledger |
| ShardLauncher.NextSound | internal/agent/workerd_launcher_linux.go:531-1219 | every step of the launcher keeps its invariant |
| ShardLauncher.RunSound | internal/agent/workerd_launcher_linux.go:531-1219 | the same over every run |
| ShardLauncher.OneProcessPerShard | internal/agent/workerd_launcher_linux.go:653-722 | in every reachable state a shard has at most one process that is not known to be gone |
| ShardLauncher.ClearMeansDead | internal/agent/workerd_launcher_linux.go:653-700 | without a launch and without an unresolved instance a shard has no live process |
| ShardLauncher.StartsAreCurrent | internal/agent/workerd_launcher_linux.go:592-604 | a start is of the latest generation, and of one that is not retired |
| ShardLauncher.PastNeverStarts | internal/agent/workerd_launcher_linux.go:592-604 | once a generation is retired or superseded no later step of any run starts it |
| ShardLauncher.StartsInOrder | internal/agent/workerd_launcher_linux.go:592-722 | a shard's starts are in the order of their generations |
| ShardLauncher.EnsureStopsTheOlder | internal/agent/workerd_launcher_linux.go:660-701 | in every reachable state a later generation of a shard with an unresolved instance and no launch asks that instance to stop and retires its generation |
| ShardLauncher.NothingToReplace | internal/agent/workerd_launcher_linux.go:995-1023 | over every run a launch that comes to publish finds no other instance published for its shard |
| LauncherDecisions.RunOffered | internal/agent/workerd_launcher_linux.go:1025-1055 | over every run exactly the published processes that are not gone can be found by their shard |
| LauncherDecisions.EnsureDecided | internal/agent/workerd_launcher_linux.go:531-722 | in every reachable state a pass refuses a generation that may not be asked for, joins its launch, leaves a serving process or another launch of the shard alone, asks the one process in the way to stop and retires its generation, finds too many launches, or begins its own, each exactly under its condition |
| LauncherDecisions.LaunchCompletes | internal/agent/workerd_launcher_linux.go:531-1055 | from every reachable state the first caller of a vacant shard starts one process, which then serves its generation, and leaves no other trace |
| LauncherDecisions.StopCompletes | internal/agent/workerd_launcher_linux.go:1097-1232 | a published process that is stopped, exits and leaves no group behind frees its shard and bars its own generation |
| LauncherDecisions.FailureCleansUp | internal/agent/workerd_launcher_linux.go:750-1020 | a launch that gives up on its process and sees it go leaves nothing of its shard behind |
| LauncherDecisions.RunWaited | internal/agent/workerd_launcher_linux.go:727-737 | over every run a launch is abandoned exactly when nobody waits for it any more |
| LauncherDecisions.GiveUpDecided | internal/agent/workerd_launcher_linux.go:727-737 | in every reachable state a caller that gives up is one waiter less, and the last one abandons the launch |
| LauncherDecisions.PublishDecided | internal/agent/workerd_launcher_linux.go:995-1055 | in every reachable state a registered process is published exactly if somebody still waits for it, the launcher is open and it has not exited; nothing else can be in the way |
| LauncherDecisions.FailDecided | internal/agent/workerd_launcher_linux.go:900-1020 | a launch gives up on its process exactly between its registration and its publication |
| LauncherDecisions.EndDecided | internal/agent/workerd_launcher_linux.go:750-766 | a launch ends exactly when it has started no process, has given up on it, or has published it |
| LauncherDecisions.GoneDecided | internal/agent/workerd_launcher_linux.go:1097-1232 | a process group is taken for gone only after somebody began to stop the process or it exited, and then no process of its shard is published |
| LauncherDecisions.StopDecided | internal/agent/workerd_launcher_linux.go:1429-1473 | callers stop exactly the published process that is not gone, and its generation is barred at once |
| LauncherDecisions.ClosedWindsDown | internal/agent/workerd_launcher_linux.go:1251-1330 | however a run goes on after a close, no launch begins and no process is published |
| WorkerdLauncher.Launcher.FindPending | internal/agent/workerd_launcher_linux.go:653-668 | finds a launch of the shard if there is one |
| WorkerdLauncher.Launcher.RetireInstances | internal/agent/workerd_launcher_linux.go:670-684 | returns exactly the unresolved instances of the shard, each asked to stop and its generation retired |
| WorkerdLauncher.Launcher.Ensure | internal/agent/workerd_launcher_linux.go:531-722 | one pass keeps the invariant; a handed-out instance is alive and of this generation, a caller shares only a launch that is not abandoned, waits only for a launch of its shard or for exactly the unresolved instances it has asked to stop, a launch begins only over a shard without launch and live process, refusals change nothing |
| WorkerdLauncher.Launcher.Abandon | internal/agent/workerd_launcher_linux.go:727-737 | a waiter gives up; the last one abandons the launch |
| WorkerdLauncher.Launcher.Start | internal/agent/workerd_launcher_linux.go:853-866 | the started process is the only live one of its shard |
| WorkerdLauncher.Launcher.Register | internal/agent/workerd_launcher_linux.go:879-895 | the process is tracked |
| WorkerdLauncher.Launcher.Publish | internal/agent/workerd_launcher_linux.go:1025-1055 | publishes only a wanted, current, live process that nobody has asked to stop, which is then the one callers are handed; otherwise the launch stops it |
| WorkerdLauncher.Launcher.End | internal/agent/workerd_launcher_linux.go:750-766 | a finished launch leaves the pending map |
| WorkerdLauncher.Launcher.Exit | internal/agent/workerd_launcher_linux.go:896-913 | an exit retires the generation of a published instance |
| WorkerdLauncher.Launcher.GroupGone | internal/agent/workerd_launcher_linux.go:1210-1219 | an absent process group frees its shard |
| WorkerdLauncher.Launcher.Stop | internal/agent/workerd_launcher_linux.go:1429-1473 | a handle stops its own instance and retires its generation |
| CgroupSafety.NextSound | internal/agent/workerd_cgroup_linux.go:410-1164 | every step keeps writers, borrows, leases and capacity consistent |
| CgroupSafety.RunSound | internal/agent/workerd_cgroup_linux.go:410-1164 | the same over every run |
| CgroupSafety.WritersExcludeBorrowers | internal/agent/workerd_cgroup_linux.go:415-447 | at most one writer holds the authority, never together with a borrow |
| CgroupSafety.DescriptorSafe | internal/agent/workerd_cgroup_linux.go:915-1112 | a lease descriptor is open while lent, closed at most once, and closed once destroyed |
| CgroupSafety.CapacityExact | internal/agent/workerd_cgroup_linux.go:449-532 | the reserved count is the number of reservations and undestroyed leases, and the root is closed only at zero and at most once |
| CgroupProgress.PrepareCompletes | internal/agent/workerd_cgroup_linux.go:449-491 | from every reachable state a healthy controller with room left hands out a lease with an open descriptor |
| CgroupProgress.PrepareRefused | internal/agent/workerd_cgroup_linux.go:456-469 | without room, poisoned or closed, it reserves nothing |
| CgroupProgress.UnreserveReturns | internal/agent/workerd_cgroup_linux.go:471-487 | a reservation whose directory cannot be made or opened goes back, and only the latter poisons the controller |
| CgroupProgress.AttachDecided | internal/agent/workerd_cgroup_linux.go:625-638 | in every reachable state a prepared lease is handed out exactly while nothing has poisoned the controller |
| CgroupProgress.AdmitDecided | internal/agent/workerd_cgroup_linux.go:919-940 | in every reachable state a borrower gets in exactly while the controller is healthy and no writer is in or waits |
| CgroupProgress.RollbackCompletes | internal/agent/workerd_cgroup_linux.go:492-533 | a rollback that is left alone returns the reservation, closes the descriptor and frees the authority; only a replaced directory poisons the controller |
| CgroupProgress.RollbackKept | internal/agent/workerd_cgroup_linux.go:499-524 | a rollback that cannot decide leaves its caller a lease that owes its reservation, cannot be used and can be destroyed |
| CgroupProgress.BorrowCompletes | internal/agent/workerd_cgroup_linux.go:915-969 | while nobody writes, a caller of a usable lease holds its open descriptor, and afterwards all is as before |
| CgroupProgress.BorrowTurnedAway | internal/agent/workerd_cgroup_linux.go:940-954 | a caller of a lease that is not usable is not lent its descriptor and only has to leave |
| CgroupProgress.DestroyCompletes | internal/agent/workerd_cgroup_linux.go:971-1112 | a destroy that is left alone returns the reservation, closes the descriptor once and frees the authority |
| CgroupProgress.DestroyFails | internal/agent/workerd_cgroup_linux.go:1001-1062 | a destroy that cannot drain its lease leaves the reservation owed and can be tried again |
| CgroupProgress.CloseCompletes | internal/agent/workerd_cgroup_linux.go:1124-1164 | once every reservation is back, a close that is left alone closes the root, once |
| CgroupProgress.PoisonIsFinal | internal/agent/workerd_cgroup_linux.go:449-491 | however a run goes on, once poisoned or closed nothing is reserved any more and only reservations in flight become leases |
| CgroupProgress.DestroyedIsFinal | internal/agent/workerd_cgroup_linux.go:971-1112 | however a run goes on, a lease whose directory is gone is never touched again |
| CgroupLeases.Controller.TryBeginWrite | internal/agent/workerd_cgroup_linux.go:415-438 | a writer that gets in is alone and finds no borrow |
| CgroupLeases.Controller.Reserve | internal/agent/workerd_cgroup_linux.go:456-469 | reserves exactly when neither poisoned nor closed nor full |
| CgroupLeases.Controller.Unreserve | internal/agent/workerd_cgroup_linux.go:471-487 | gives a reservation back, poisoning after a failed open |
| CgroupLeases.Controller.Open | internal/agent/workerd_cgroup_linux.go:479-491 | a reservation becomes a lease with an open descriptor that nobody may attach to yet |
| CgroupLeases.Controller.Conclude | internal/agent/workerd_cgroup_linux.go:625-638 | hands the lease out or begins the rollback |
| CgroupLeases.Controller.EndRollback | internal/agent/workerd_cgroup_linux.go:497-533 | afterwards the reservation is back, the descriptor closed and the authority free |
| CgroupLeases.Controller.Keep | internal/agent/workerd_cgroup_linux.go:499-524 | a rollback that cannot decide leaves the lease to its caller |
| CgroupLeases.Controller.Release | internal/agent/workerd_cgroup_linux.go:1064-1091 | the reservation goes back exactly once |
| CgroupLeases.Controller.CloseDescriptor | internal/agent/workerd_cgroup_linux.go:1069-1090 | a descriptor is closed for the first time and in nobody's hands |
| CgroupLeases.Controller.TryBorrow | internal/agent/workerd_cgroup_linux.go:919-940 | a borrower gets in only without a writer, and is refused exactly when poisoned or closed |
| CgroupLeases.Controller.Hold | internal/agent/workerd_cgroup_linux.go:940-954 | a lent descriptor is open |
| CgroupLeases.Controller.Return | internal/agent/workerd_cgroup_linux.go:955-967 | the borrower gives the descriptor back |
| CgroupLeases.Controller.BeginDestroy | internal/agent/workerd_cgroup_linux.go:971-999 | begins an operation exactly when none runs and none has succeeded |
| CgroupLeases.Controller.Drained | internal/agent/workerd_cgroup_linux.go:1001-1064 | after the borrowers are gone the operation queues for the authority, or ends with an error |
| CgroupLeases.Controller.Decide | internal/agent/workerd_cgroup_linux.go:1064-1065 | the operation decides alone: no other writer and no borrow |
| CgroupLeases.Controller.EndDestroy | internal/agent/workerd_cgroup_linux.go:1091 | afterwards the authority is free, and the descriptor is closed if the reservation went back |
| CgroupLeases.Controller.FinishDestroy | internal/agent/workerd_cgroup_linux.go:1093-1104 | the lease is destroyed once its reservation went back, otherwise destroy can be tried again |
| CgroupLeases.Controller.Close | internal/agent/workerd_cgroup_linux.go:1124-1148 | closes exactly once and only when every lease has given its reservation back |
| CgroupLeases.Controller.CloseRoot | internal/agent/workerd_cgroup_linux.go:1149-1155 | the root is closed for the first time, with no borrow |
| EffectBroker.RunSound | internal/broker/coordinator.go:267-857 | the store's progress, claims and starts stay consistent over every run, also where a new retry replaces a reservation whose deadline has passed |
| EffectBroker.StaleIsInert | internal/broker/types.go:511-533 | over every run a client changes the effect only if nothing has happened to it since the version the client saw, except the reservation of the very retry it dispatches |
| EffectBroker.AtMostOneStart | internal/broker/dispatch_consumer.go:88-126 | over every run of admissions, replays, recoveries and competing consumers the provider is started at most once, in the last attempt |
| EffectBroker.NeverIsNotRetried | internal/broker/coordinator.go:511-857 | an effect that must not be replayed gets one attempt |
| EffectBroker.ConfirmNeedsTheUser | internal/broker/coordinator.go:511-857 | each attempt after the first of a confirm effect answers a user-confirmed request |
| EffectBroker.InterruptedWasNotStarted | internal/broker/coordinator.go:511-857 | an effect settled as interrupted, or blocked, was never started and nobody can still start it |
| EffectDecisions.AdmitDecided | internal/broker/coordinator.go:267-327 | a prepared effect goes out exactly for the holder of its preparation, in time, with a route and not aborted |
| EffectDecisions.ClaimDecided | internal/broker/coordinator.go:329-396 | a start is recorded exactly for the holder of the current permit, in time, while nobody has started the attempt or reserved another and the turn is not aborted |
| EffectDecisions.StartDecided | internal/broker/dispatch_consumer.go:88-126 | a claim that was delivered starts the provider, once |
| EffectDecisions.ConfirmDecided | internal/broker/coordinator.go:398-459 | an external commit is recorded exactly when the ledger has it and the attempt is out or blocked |
| EffectDecisions.SettleDecided | internal/broker/coordinator.go:461-509 | an effect is completed exactly after its external commit |
| EffectDecisions.RetryDecided | internal/broker/coordinator.go:511-857 | a reserved retry goes out exactly for the holder of the reservation |
| EffectDecisions.AbortDecided | internal/broker/coordinator.go:511-857 | a turn is aborted for good unless the effect is settled, and what was reserved is void |
| EffectDecisions.RecoverDecided | internal/broker/coordinator.go:511-857 | in every reachable state recovery has exactly one outcome for each state of the effect, answer of the ledger and replay policy, from an up-to-date view, and none from any other |
| EffectDecisions.SettledByTheLedger | internal/broker/coordinator.go:461-760 | over every run an effect is committed or completed only after the ledger said committed, and failed only after it said failed |
| EffectDecisions.InflightWaits | internal/broker/coordinator.go:732-735 | while the provider's call is in flight recovery leaves a dispatched effect alone |
| EffectDecisions.ConfirmedAttempts | internal/broker/coordinator.go:511-857 | an effect that needs confirmation has at most one attempt more than confirmed recoveries |
| AccountLog.VerdictFromStatus | internal/authstate/accounts.go:179-185 | recomputing with "the status says authenticated" as the verdict gives the same transition |
| AccountLog.CreateKeepsValid | internal/authstate/accounts.go:75-102 | creating an account keeps accounts equal to the replay of the log |
| AccountLog.CommitKeepsValid | internal/authstate/accounts.go:128-192 | so does committing a login, known or unknown |
| AccountLog.RunValid | internal/authstate/accounts_codec.go:125-197 | so does every sequence of transactions |
| AccountLog.ReplayFrame | internal/authstate/accounts_codec.go:125-197 | a log replays alike over accounts that only gained names or moved on |
| AccountDecisions.LoginDecided | internal/auth/account.go:42-97 | each outcome of an attempt arises under exactly one condition: authenticated if and only if the account is neither disabled nor locked and the password is right, disabled if and only if the account is, locked while a lock runs or when the last chance fails |
| AccountDecisions.LoginLeaves | internal/auth/account.go:56-97 | an attempt that is not judged by its password leaves the account as it was; a judged one moves the version by one and only the failure count, the lock and the last success |
| AccountDecisions.DisabledStaysOut | internal/auth/account.go:61-63 | over every run each login row of a disabled account says so, and the account is as it was created |
| AccountDecisions.DisabledNeverAuthenticated | internal/auth/account.go:61-63 | over every run no row authenticates a disabled account |
| AccountDecisions.LoginAccepted | internal/authstate/accounts.go:128-192 | in every reachable state a login is committed if and only if it is the honest outcome of an attempt on the current account, or a failure under an unknown name; then exactly that is stored, with one row |
| AccountDecisions.CreationAccepted | internal/authstate/accounts.go:75-102 | in every reachable state exactly the unused, named accounts of the tenant with a free name and user are created, each with its row |
| AccountDecisions.RowsAccounted | internal/authstate/accounts_codec.go:141-188 | every row of an accepted log is sealed to the one before, in time order, and is a stranger's failure, the one creation of a stored account, or a login dated after it |
| AccountDecisions.RunBounded | internal/authstate/accounts_codec.go:125-136 | over every run the store keeps to its limits, no user has two accounts, and no account exceeds the failures the policy allows |
| AccountRuns.ReplayTallies | internal/auth/account.go:42-97 | counting a user's failures in the log rows alone agrees with the replayed account |
| AccountRuns.LockedExactlyByTheRun | internal/auth/account.go:87-96 | a login sets a lock if and only if it completes a run of MaximumFailures failures, and the lock lasts at least the policy's time from the time on the login |
| AccountRuns.LockOutlastsCommitExactly | internal/auth/account.go:42-97 | from the commit that sets it the lock lasts the policy's time if and only if the time the failure counts for is the commit time |
| AccountLockout.LockoutHonoured | internal/auth/account.go:42-97 | in a replayed log no authenticated login is committed before the end of the latest lockout |
| AccountLockout.ReachableLockoutHonoured | internal/authstate/accounts.go:128-192 | the same in every state the store can reach |
| AccountLockout.BackdatingExcludedExactly | internal/auth/account.go:42-97 | every acceptable login is dated past the latest lockout if and only if the lock is still on record |
| AccountHistories.BackdatedLoginCommitted | internal/authstate/accounts.go:128-192 | a run of the store whose last row is an authenticated login dated inside the latest lockout |
| AccountHistories.LateFailureLocksShort | internal/authstate/accounts.go:128-192 | a run of the store in which a login is authenticated one unit after a lockout of ten was committed |
| AccountChain.HeadFixesLog | internal/authstate/accounts_codec.go:141-188 | two logs that replay and end with the same digest are equal, or two of their rows differ with one digest |
| AccountChain.HeadFixesState | internal/authstate/accounts_codec.go:125-197 | two valid states whose logs end with the same digest are equal, or rows or created accounts of theirs differ with one digest |
| AccountStore.Find | internal/authstate/accounts.go:148-154 | finds the slot of a name, or reports that there is none |
| AccountStore.CheckEntry | internal/authstate/accounts_codec.go:141-188 | one row of the loop is one step of the replay |
| AccountStore.ReplayRows | internal/authstate/accounts_codec.go:141-188 | the loop is the replay |
| AccountStore.CheckAccounts | internal/authstate/accounts_codec.go:129-136 | accepts exactly strictly ascending, valid accounts with distinct users |
| AccountStore.ValidateState | internal/authstate/accounts_codec.go:125-197 | accepts exactly the states whose accounts equal the replay |
| AccountStore.PlaceFor | internal/authstate/accounts.go:87-95 | the sorted place of a new account, unless its name or user is taken |
| AccountStore.Store.CommitLogin | internal/authstate/accounts.go:128-192 | replaces the slot and appends the row exactly when the commit is allowed (for an unknown name: a failure that proposes no account), and stays valid; which commits are allowed is `AccountDecisions.LoginAccepted` |
| AccountStore.Store.CreateAccount | internal/authstate/accounts.go:75-102 | inserts the account and appends the row exactly when it can be created, and stays valid |
| PatLog.CreateKeepsValid | internal/authstate/store.go:89-120 | issuing a token keeps records equal to the fold of the log |
| PatLog.CommitKeepsValid | internal/authstate/store.go:157-188 | so does a use or a revocation |
| PatLog.RunValid | internal/authstate/codec.go:153-225 | so does every sequence of transactions |
| PatLog.SeenCounts | internal/authstate/codec.go:165-216 | what the fold remembers of a token is counted from the log |
| PatLog.VersionCounts | internal/authstate/codec.go:350-383 | a record's version is one for its issue, one for each use, one for its revocation |
| PatLog.NothingAfterRevocation | internal/authstate/codec.go:195-214 | nothing follows a token's revocation in the log |
| PatDecisions.IssueDecided | internal/authstate/store.go:89-120 | exactly the unused tokens of the tenant, named after their digest, with sorted scopes, a permitted life that has not ended and a digest nobody has are issued, each with its row |
| PatDecisions.CommitDecided | internal/authstate/store.go:157-188 | in every reachable state a use is committed if and only if the token is live, within its life, has the scope and the use is computed from the current version and not dated back; a revocation likewise; each changes its own record and adds one row |
| PatDecisions.RowsAccounted | internal/authstate/codec.go:165-216 | every row of an accepted log is sealed to the one before and numbered by its token's rows: its issue comes first and once, uses are in order, within its life and scopes, and nothing follows a revocation |
| PatDecisions.RunBounded | internal/authstate/codec.go:153-165 | over every run the store keeps to its limits and no two tokens share a digest |
| PatChain.HeadFixesLog | internal/authstate/codec.go:165-216 | two token logs that replay and end with the same digest are equal, or two of their rows differ with one digest |
| PatChain.HeadFixesTokens | internal/authstate/codec.go:153-225 | two valid states whose logs end with the same digest hold the same tokens with the same uses, last use, version and revocation, unless two of their rows differ with one digest |
| PatStore.CheckRecords | internal/authstate/codec.go:157-165 | accepts exactly strictly ascending, valid records with distinct digests |
| PatStore.CheckEntry | internal/authstate/codec.go:173-216 | one row of the loop is one step of the fold |
| PatStore.ReplayRows | internal/authstate/codec.go:170-216 | the loop is the fold |
| PatStore.CheckAgreement | internal/authstate/codec.go:217-223 | accepts exactly when every record is what the log says |
| PatStore.ValidateState | internal/authstate/codec.go:153-225 | accepts exactly the valid states |
| PatStore.SortById | internal/authstate/codec.go:80-80 | a sorted permutation of the records |
| PatCodec.ReadPrinted | internal/authstate/codec.go:227-295 | reading a printed record gives it back |
| PatCodec.PrintRead | internal/authstate/codec.go:227-295 | a canonical value read as a record is that record's printed form |
| PatCodec.EntryPrinted | internal/authstate/codec.go:297-348 | reading a printed audit row gives it back |
| PatCodec.EntryReadBack | internal/authstate/codec.go:297-348 | a canonical value read as a row is that row's printed form |
| PatCodec.StatePrinted | internal/authstate/codec.go:79-147 | a printed state is canonical and is read back as it was |
| PatCodec.StateReadBack | internal/authstate/codec.go:79-147 | a canonical value read as a state is that state's printed form |
| PatCodec.ObjectOfFields | internal/authstate/codec.go:456-467 | a value with exactly these field names is the object of its fields |
| PatDatabase.EncodeState | internal/authstate/codec.go:79-98 | stores the sorted state exactly when it is valid and fits |
| PatDatabase.DecodeState | internal/authstate/codec.go:100-147 | loads exactly the stored forms of valid states |
| PatDatabase.StoredOnce | internal/authstate/codec.go:79-147 | stored bytes stand for one state |
| PatDatabase.SaveThenLoad | internal/authstate/codec.go:79-147 | loading what was saved restores the state up to the order of its records |
| PatDatabase.LoadThenSave | internal/authstate/codec.go:79-147 | saving what was loaded gives back exactly the bytes |
| PatDatabase.Store.Save | internal/authstate/store.go:279-287 | writes the new state, or leaves the bytes alone when it does not fit |
| PatDatabase.Store.CreatePAT | internal/authstate/store.go:89-120 | decodes, checks, appends and re-encodes: the stored state is the one after the issue, or unchanged |
| PatDatabase.Store.CommitPAT | internal/authstate/store.go:157-188 | the stored state is the one after the use or revocation, or unchanged |
| CommandHost.RunSound | internal/celld/host.go:72-253 | log, receipts, durable prefix and open calls stay consistent over every run with crashes |
| CommandHost.AppliedOnce | internal/celld/host.go:94-200 | in the surviving history every command was applied at most once |
| CommandHost.AnswersSurvive | internal/celld/host.go:205-253 | an answer that was released survives every crash |
| CommandHost.AnswersAgree | internal/celld/host.go:94-253 | every answer to one command is the same, permits included |
| CommandHost.SealPermits | internal/celld/host.go:224-240 | the sealing loop binds each claim to object, command, request digest and position |
| CommandDecisions.RunModest | internal/celld/host.go:121-200 | over every run each stored receipt has at most as many claims as may be sealed |
| CommandDecisions.ExecuteDecided | internal/celld/host.go:94-200 | in every reachable state a command is repeated from its receipt if and only if it is allowed and its identifier stands for it, applied if and only if it is allowed, new and accepted, and otherwise leaves no trace |
| CommandDecisions.BarrierDecided | internal/celld/host.go:205-217 | the barrier seals a call exactly while its revision is in the log; the durable part never shrinks and covers it |
| CommandDecisions.ReleaseDecided | internal/celld/host.go:218-253 | an answer is released exactly for a sealed call, once, and is its receipt |
| CommandDecisions.CrashDecided | internal/celld/host.go:205-217 | a crash keeps exactly the durable revisions and every answer |
| CommandDecisions.CommandCompletes | internal/celld/host.go:72-253 | from every reachable state a command that is allowed, and known or accepted, is answered once its revision is durable, and applied if and only if it was not known |
| CommandDecisions.AnsweredIsRepeated | internal/celld/host.go:121-150 | a command that was answered is ever after repeated with the same receipt and not applied, whatever calls and crashes came between |
| HostExecution.Host.Transaction | internal/celld/host.go:94-200 | runs if and only if the command is allowed and known or accepted: replays the stored receipt, or applies and writes exactly what was applied; a refusal writes nothing |
| HostExecution.Host.DurabilityBarrier | internal/celld/host.go:215-217 | reaches the barrier exactly when the revision is still recorded, whichever it is, and then its receipt is in the durable prefix |
| HostExecution.Host.Execute | internal/celld/host.go:72-253 | an answer is given if and only if the call is not lost and the command is allowed and known or accepted; a known command is answered with its stored receipt and changes nothing, a new one with what was applied; the receipt is durable, the permits are sealed and the revision is the recorded one |

## Left out

- Command-line programs, deployment, scripts, the front end and the protocol descriptors: wiring around the modelled parts.
- System calls (cgroup file system, memfd, exec, pidfd, process signals): steps that may fail or be delayed; the waits and polling loops around them become separate steps.
- SHA-256, HMAC, Ed25519, Argon2id, base64, UTF-8 and NFC: parameters with the laws that are used, or not part of the model.
- internal/authority, internal/auditcheckpoint, internal/authstate/authorization.go, internal/auth/password.go: mostly single comparisons around signatures.
- The unleased and unversioned hooks of internal/artifact/memory.go (ClaimSweep, FinishSweep, Delete, Corrupt, AbandonInflight): not used by the service.
- The service's own validation of paths, metadata and digests (internal/artifact/service.go:710-830) and the content of objects: an object is its digest.
- Heartbeat and lease tickers, timeouts and context cancellation: steps that may happen at any time; no claim about real time.
- internal/broker/coordinator.go:30-265 (engine steps) and the replay of receipts: receipt replays do not change the store, and the long field comparisons are one record equality.
- EffectBroker.RunSound: coordinators and consumers are steps on values, as the coordinator holds no mutable state of its own.
- NormalizeStringSet (internal/canonical/cbor.go:111-129): would only add easy members.
- The stored form of accounts (internal/authstate/accounts_codec.go:56-123): it repeats the shape that is proved for tokens.
- AccountStore.Store.CommitLogin: reports refusals as one boolean, because their kinds only restate the failed check.
- MemoryRepository.Repository.BeginCreate: the repository's maps are fields of one state record that the methods replace, next to the heap object they change in place.
- AccountStore.Store.CreateAccount: the source appends the account and sorts when it encodes; the model inserts it at its sorted place.
- PlacementManager.Manager.Least: the source sorts the candidates and takes the first; the model picks the least directly.
- PlacementManager.Manager.RetireShards: the placements are emptied at once at the end of the section instead of one by one inside it.
- The launcher's path for a cgroup allocation that was lost between start and registration (internal/agent/workerd_launcher_linux.go:880-890), its observers and its residual cgroup cleanup.
- Worker identities and the text of scope keys and shard identifiers (internal/agent/manager.go:182-209): opaque names; scope keys are records.
- HostExecution.Host.Execute: runs without interruption; interleaved and crashed calls are the runs of CommandHost.
