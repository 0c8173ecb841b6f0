# FlowOps control-plane protocols, verified

FlowOps lets agents pay: it decides which payment may be made, has it signed, and follows it on the
chain. Any process on that way may stop at any point, and any message may come twice. This project
models the protocols that have to survive this in Dafny and proves what they promise, over every input,
every run and every interleaving.

Each SQL transaction or mutex section is one function on values that returns the state after commit,
or the unchanged state after rollback. Where the source updates something in place there is also a
class or a method whose contract ties the new state to that function. Theorems about runs are stated
over sequences of such steps. A crash is a step that never comes; a failed ledger write adds nothing
or one whole event.

| files | part of the system |
|---|---|
| `SignerLedger`, `SignerRuns`, `SignerStore` | the isolated signer: its state, its hash-chained log, reopening from the log |
| `ActivationTables`, `ActivationInvariants`, `ActivationStore` | the control-plane tables of two-phase activation |
| `BearerProtocol`, `BearerSafety`, `BearerWitness`, `Coordinator` | signer, tables and write-once mirror advanced together, with failed ledger writes and signer restarts |
| `ActionLocks` | the refcounted keyed mutex around signing |
| `RelayKernel`, `RelayJobs`, `RelayStore`, `RelayRuns`, `RelaySafety`, `RelayService` | the governance relay: decisions, job store, many workers, one worker's cycles |
| `Utf`, `CanonicalJson`, `JsonWriter`, `EventChain`, `EventStore` | canonical JSON and the event chain |
| `Checkpoints`, `CheckpointSafety`, `Publisher` | external checkpoints and recovery |
| `Budget`, `Authorizer` | budget admission and what later moves do to it |
| `AssetHealth`, `HealthStore` | asset health with block and recover accounting |
| `ImportGraph` | import-graph search |
| `EvidenceQuorum` | agreeing evidence and finality |
| `Intake`, `IntakeStore` | idempotent intake, the nonce index, snapshot and restore |
| `Text`, `Ordering`, `Sums` | identifier shapes, joining and splitting, decimal text, sorting, totals over maps |

Outside answers are parameters. Hashes, the cipher, signatures, MACs, JSON decoding of stored payloads
and time formatting are function-valued fields of an environment; the few laws they need are named
predicates (`CipherLaw`, `TimeLaw`, `SafeLaw`, `EnvLaw`, `SettingLaw`). Where a result would need
collision resistance it names the alternative: the two hashed texts at hand, of two events, two
checkpoints or two owner lists, are different and have the same digest.
Random IDs and lease tokens are fresh, clocks never run backwards.

## Findings

- A PREPARED record can be written after a "no record" expiry proof, because `Prepare` reads its clock
  before it takes the lock: it is written exactly when that reading is inside the window and an unused ID
  and the cipher answer (`BearerSafety.PreparedAfterNoRecordProof`). Every request that may be signed has
  such a run (`BearerWitness.RecordAfterProof`). With leases the record is harmless: once an expiry proof is
  out, its request is never active and none of its handles is ever ACTIVE, RELEASED or TERMINAL
  (`BearerSafety.ExpiryProofIsFinal`).
- The signing engine can be asked to sign an action whose record is already in the ledger file: exactly when
  that record's write was reported as failed after it reached the file and the ledger has not been reopened
  since (`ActionLocks.SignsTwiceExactly`, a run in `ActionLocks.SignsTwiceWitness`). The second signature is
  never written (`ActionLocks.OneRecordPerKey`).
- The relay's memory store lets a reapproval through from every state, terminal ones included
  (`RelaySafety.StoreAloneReapprovesAnything`); terminal states absorb only because of the lease
  discipline of the service (`RelaySafety.TerminalStatesAbsorb`).
- Canonical printing is prefix-free except for numbers: a printed nonzero number followed by a digit is
  not read back (`CanonicalJson.NumbersAreNotPrefixFree`, exact in `CanonicalJson.RoundTripExactly`).
- Recovery refuses the state between advancing the remote head and saving its checkpoint, and such states
  are reached from every state with events beyond the remote head
  (`CheckpointSafety.AdvancedButUnsavedIsRefused`, `CheckpointSafety.CrashBeforeSaveIsRefused`). It accepts
  exactly the settled states (`CheckpointSafety.RecoveryAccepts`), and one publish settles any state
  (`CheckpointSafety.OnePublishConverges`).
- Reorganizing the lock or the refund of a refunded payment counts its reservation again without asking
  whether there is room. Over every run, limits are kept if and only if each such reorganization finds room
  (`Budget.BudgetIsConserved`); a run that overcommits is in `Budget.RefundReorgWitness`.
- A retry of an appended event is refused as a conflict when its entity refs are a nil map, which prints as
  `null` while the stored refs print as `{}`; it returns the stored event if and only if they are not nil
  (`EventChain.RetryReturnsStored`).
- A lock that is finalized while the asset recovers has no block, and none is made before a relapse, so no proof
  completes recovery until then or until the lock is settled (`AssetHealth.RecoveryCompletesExactly`, a run in
  `AssetHealth.RecoveryWaitsForRelapse`).
- `buildPath` uses the empty string as its end mark, so a path through a package named by the empty
  string is cut (`ImportGraph.EmptyNameCutsPath`, exact in `ImportGraph.ClimbIsThePath`). Go source cannot
  import such a package.
- The intake memory store does not check that a grant ID is new: issued again for another intent, a consumed
  grant can be consumed a second time. A consumed grant stays as it is if and only if its ID is not reissued
  (`Intake.GrantsAreConsumedOnce`, a run in `Intake.ReissuedGrantWitness`).
- A snapshot of the intake store restores exactly when no identifier contains NUL and no key or hash is
  empty (`Intake.RestoreIsExact`, `Intake.PortableMeaning`).

## Model

| member | source | states |
|---|---|---|
| `SignerRuns.LogRefinement` | internal/ascpbearer/ledger_file.go:191-314 | after any run, replaying the file from empty gives exactly the in-memory maps; after a failed write, those maps or those maps and one more accepted transition |
| `SignerRuns.NothingAcknowledgedIsLost` | internal/ascpbearer/ledger_file.go:233-283 | over any run with restarts and failed writes, a record once served keeps its identity, ciphertext and proof, and only moves forward |
| `SignerRuns.PlansAreAccepted` | internal/ascpbearer/ledger_file.go:285-314 | no operation of the store ever asks the ledger for a transition that validateTransition refuses |
| `SignerRuns.RestartAccepts` | internal/ascpbearer/ledger_file.go:63-120 | reopening accepts whatever earlier processes wrote, a last line whose write was reported as failed included, while the clock has not run backwards |
| `SignerRuns.AADInjective` | internal/ascpbearer/handle.go:411-419 | two encryption contexts are equal exactly when handle ID and every bound field are |
| `SignerRuns.ReleasedBytes` | internal/ascpbearer/handle.go:249-276 | over every run with reopens, released bytes are the signature one earlier Prepare stored for this binding, after an exact verified activation, to the bound keeper, inside the window |
| `SignerRuns.OneSignaturePerAction` | internal/ascpbearer/handle.go:132-195 | every granted Prepare and every Release of an action speaks of the same bytes |
| `SignerRuns.OneActivationProof` | internal/ascpbearer/handle.go:219-247 | every granted Activate of a handle carried the same proof |
| `SignerRuns.CommitKeepsIndex` | internal/ascpbearer/handle.go:364-372 | committing an accepted record keeps byID and byAction one index: one record per action, each under its own ID |
| `SignerStore.SignerJournal.ReplayFile` | internal/ascpbearer/ledger_file.go:191-231 | the loop accepts the file exactly when the log replays, and rebuilds sequence, last hash and records |
| `SignerStore.SignerJournal.AppendRecord` | internal/ascpbearer/ledger_file.go:233-283 | a refused transition writes nothing; a failed write faults the journal and leaves memory unchanged |
| `SignerStore.SignerStore.Prepare` | internal/ascpbearer/handle.go:132-195 | the store, log and answer after Prepare, retries of the ID source included |
| `SignerStore.SignerStore.Activate` | internal/ascpbearer/handle.go:219-247 | exact proof once, exact replay afterwards, anything else refused without a write |
| `SignerStore.SignerStore.Release` | internal/ascpbearer/handle.go:249-276 | bytes only for an activated handle, to its keeper, inside its window, after the release is durable |
| `SignerStore.SignerStore.Expire` | internal/ascpbearer/handle.go:278-296 | only a PREPARED handle past its window expires |
| `SignerStore.SignerStore.ProveAndExpire` | internal/ascpbearer/handle.go:302-344 | a proof for an absent or never activated record, with the expiry durable before the proof leaves |
| `SignerStore.SignerStore.Finalize` | internal/ascpbearer/handle.go:348-362 | a RELEASED handle becomes terminal with its outcome, and nothing else does |
| `SignerStore.OpenFileSignerStore` | internal/ascpbearer/ledger_file.go:63-120 | opens exactly the logs that replay and whose records validate again, with the index the log determines |
| `ActivationInvariants.CreateKeeps` | internal/ascpbearer/activation.go:143-234 | a new request keeps every table consistent and moves no existing row |
| `ActivationInvariants.RecordPreparedKeeps` | internal/ascpbearer/activation.go:289-330 | recording a handle keeps outbox, reservation and derived rows a function of progress |
| `ActivationInvariants.ActivateKeeps` | internal/ascpbearer/activation.go:332-421 | activation moves the reservation and creates registry, handle, payment and outbox rows together or not at all |
| `ActivationInvariants.MarkPrimaryMirroredKeeps` | internal/ascpbearer/activation.go:479-539 | the digest written back never changes what the mirror object says |
| `ActivationInvariants.MarkAcknowledgedKeeps` | internal/ascpbearer/activation.go:541-582 | acknowledgment keeps the tables consistent and only moves forward |
| `ActivationInvariants.RefuseKeeps` | internal/ascpbearer/runtime_postgres.go:109-167 | refusal releases a RESERVED budget only and leaves nothing pending |
| `ActivationInvariants.ExpireUnactivatedKeeps` | internal/ascpbearer/runtime_postgres.go:169-228 | expiry releases a RESERVED budget only, keeps a known handle and cancels what is pending |
| `ActivationInvariants.ClaimKeeps` | internal/ascpbearer/runtime_postgres.go:38-78 | claiming changes nothing but the lease |
| `ActivationStores.ActivationStore.Request` | internal/ascpbearer/activation.go:117-234 | the one request of an authorization is replayed when its input is the same, refused when it is not, created when there is none |
| `ActivationStores.ActivationStore.RecordPrepared` | internal/ascpbearer/activation.go:289-330 | row and outbox change in order and roll back together |
| `ActivationStores.ActivationStore.Activate` | internal/ascpbearer/activation.go:332-421 | seven statements in order commit the one atomic step, or roll back at any of them |
| `ActivationStores.ActivationStore.MarkPrimaryMirrored` | internal/ascpbearer/activation.go:479-539 | registry, request and three outbox rows commit or roll back together |
| `ActivationStores.ActivationStore.MarkAcknowledged` | internal/ascpbearer/activation.go:541-582 | acknowledged only from ACTIVE_MIRRORED with the same handle, with its outbox row |
| `ActivationStores.ActivationStore.Refuse` | internal/ascpbearer/runtime_postgres.go:109-167 | released reservation, refused request and cancelled message, or none of them |
| `ActivationStores.ActivationStore.ExpireUnactivated` | internal/ascpbearer/runtime_postgres.go:169-228 | released reservation, expired request and cancelled messages, or none of them |
| `ActivationStores.ActivationStore.Claim` | internal/ascpbearer/runtime_postgres.go:38-78 | only a claimable row gets the new lease |
| `ActivationStores.ActivationStore.ReturnLease` | internal/ascpbearer/runtime_postgres.go:88-104 | only the holder's exact token gives the lease back |
| `BearerSafety.ActivationSafety` | internal/ascpbearer/coordinator.go:145-194 | in every interleaving of advance, crash, retry, refusal, expiry, failed or ambiguous signer writes and signer restarts, an ACTIVE, RELEASED or TERMINAL handle has a mirrored or acknowledged request, a live reservation and its entry in the mirror under the digest the signer saw |
| `BearerSafety.ReleasedReservationStaysUnsigned` | internal/ascpbearer/runtime_postgres.go:109-228 | once a reservation is RELEASED it stays so, and from then on no handle bound to it is activated or handed out |
| `BearerSafety.AcknowledgedMeansActive` | internal/ascpbearer/coordinator.go:176-189 | ACTIVATION_ACKNOWLEDGED implies the signer activated this very handle |
| `BearerSafety.ExpiredExcludesActive` | internal/ascpbearer/runtime.go:109-172 | with leases, a request whose handle the signer expired is not active and no worker that still holds a lease can activate it |
| `BearerSafety.AdvanceIsIdempotent` | internal/ascpbearer/coordinator.go:145-194 | however often steps repeat, a request has one handle, the signer's one for its action, one registry content and one mirror object with the same bytes and digest |
| `BearerSafety.OutboxFollowsProgress` | internal/ascpbearer/activation.go:738-769 | in every reachable state each outbox message is pending in exactly one stage, derived rows exist exactly for activated requests, and the reservation follows the state |
| `BearerSafety.PreparedAfterNoRecordProof` | internal/ascpbearer/handle.go:133-144 | after a "no record" proof a Prepare persists exactly when its own clock reading is inside the window and an unused ID and the cipher answer, whenever the proof was given |
| `BearerWitness.RecordAfterProof` | internal/ascpbearer/handle.go:133-144 | for every request that may be signed there is a run from an initial state in which its "no record" proof is out and its PREPARED record is written afterwards |
| `BearerWitness.RaceExists` | internal/ascpbearer/handle.go:133-144 | such a request exists, under a cipher that obeys its law and with leases |
| `BearerSafety.ExpiryProofIsFinal` | internal/ascpbearer/runtime.go:109-172 | with leases, after an expiry proof its request is never active, none of its handles is ever ACTIVE, RELEASED or TERMINAL, and no worker that can still write to it can activate it |
| `BearerSafety.NextKeeps` | internal/ascpbearer/coordinator.go:145-194 | each of twenty step kinds keeps the joint invariant of tables, signer, mirror and everything workers remember |
| `BearerSafety.DoKeeps` | internal/ascpbearer/ledger_file.go:233-283 | so do failed and ambiguous signer writes and a signer restart, with the file holding at most one justified record more than memory |
| `Coordinators.Coordinator.Advance` | internal/ascpbearer/coordinator.go:145-194 | every call is a run of at most four protocol steps, whatever the engine, the signer's disk and the mirror do; success moves the request exactly one state on, failure changes no table; in every state a run can be in it succeeds exactly when the lease is held at the write and the state's own needs are met: a prepared artifact, the window and an unexpired reservation, the mirror's answer, the signer's acknowledgment |
| `Coordinators.Coordinator.PrepareArtifact` | internal/ascpbearer/coordinator.go:49-86 | a handle is returned exactly when an earlier record answers, or there is none, the engine signs and the write is acknowledged; without one only the ledger file can have changed |
| `ActionLocks.MutualExclusion` | internal/ascpbearer/coordinator.go:88-108 | for any number of threads and crashes, at most one is inside the critical section of a key |
| `ActionLocks.LockIsNeverDropped` | internal/ascpbearer/coordinator.go:88-108 | while a thread awaits, holds or returns a lock it is in the table under that thread's key, and refs counts exactly these threads |
| `ActionLocks.NoLeakedLock` | internal/ascpbearer/coordinator.go:103-105 | a lock stays in the table only while somebody uses it |
| `ActionLocks.SignsTwiceExactly` | internal/ascpbearer/coordinator.go:49-86 | the engine is asked to sign an action whose record is in the ledger file exactly when that record's write was reported as failed after reaching the file and the ledger was not reopened since |
| `ActionLocks.SignsTwiceWitness` | internal/ascpbearer/ledger_file.go:262-283 | a run with two engine calls for one key, the second with the record on disk |
| `ActionLocks.OneRecordPerKey` | internal/ascpbearer/ledger_file.go:233-283 | no write of any run puts a key into the file that is already there |
| `ActionLocks.NeverSignsTwice` | internal/ascpbearer/coordinator.go:49-86 | in runs without such a write the engine never signs an action that has a durable record |
| `ActionLocks.LockTable.EnterSection` | internal/ascpbearer/coordinator.go:89-97 | the key's own lock, created only when absent, with one more reference |
| `ActionLocks.LockTable.LeaveSection` | internal/ascpbearer/coordinator.go:101-106 | one reference less, and the entry gone exactly with the last one |
| `ActionLocks.EnterFollows` | internal/ascpbearer/coordinator.go:89-97 | the per-key thread counts of the interleaved machine change as the first section changes the table |
| `ActionLocks.LeaveFollows` | internal/ascpbearer/coordinator.go:101-106 | they change as the second section changes it, and its identity test always succeeds |
| `RelayKernel.RelayGate` | internal/ascpgovernancerelay/kernel.go:234-254 | the gate opens exactly when the live Safe has the signed nonce, payload, owners and threshold, or the two owner lists collide under the hash |
| `RelayKernel.PreparedVerifies` | internal/ascpgovernancerelay/kernel.go:136-229 | VerifyPrepared accepts whatever Prepare built for the command |
| `RelayKernel.OwnerSetTextInjective` | internal/ascpgovernancerelay/kernel.go:364-371 | the hashed text determines owners and threshold |
| `RelayKernel.OwnerSetBytes` | internal/ascpgovernancerelay/kernel.go:364-371 | the appending loop builds the NUL-joined text |
| `RelayKernel.ObserverQuorum` | internal/ascpgovernancerelay/kernel.go:350-362 | accepted exactly when there are enough well-named observers and no name twice; the result is them in ascending order |
| `RelayStore.MemoryStore.ConsumeCommand` | internal/ascpgovernancerelay/memory.go:65-87 | the first unconsumed command becomes its job once; an existing job is never reset |
| `RelayStore.MemoryStore.Authorize` | internal/ascpgovernancerelay/memory.go:122-149 | one authorization per scope, replayed exactly, only from AWAITING_SIGNATURES |
| `RelayStore.MemoryStore.Claim` | internal/ascpgovernancerelay/memory.go:159-191 | leases the least eligible workflow ID, or nothing changes and none is eligible |
| `RelayStore.MemoryStore.RecordOuterPrepared` | internal/ascpgovernancerelay/memory.go:193-204 | a write under the current, unexpired token only; exact replay or a valid outer transaction from READY or RETRYABLE_EXACT |
| `RelayStore.MemoryStore.RecordSubmitted` | internal/ascpgovernancerelay/memory.go:206-217 | counts an attempt once per recorded outer transaction |
| `RelayStore.MemoryStore.ApplyDecision` | internal/ascpgovernancerelay/memory.go:219-243 | the state each decision leads to, from the states it is accepted in |
| `RelayStore.MemoryStore.ReleaseLease` | internal/ascpgovernancerelay/memory.go:245-259 | only the current token releases |
| `RelaySafety.ReplacementNeedsProof` | internal/ascpgovernancerelay/service.go:265-354 | over all multi-worker runs, a second outer transaction is recorded only within a minute of accepting fresh quorum evidence that the previous hash is dropped or reorged and not canonical, nonce and payload unchanged |
| `RelaySafety.OneSafeTransaction` | internal/ascpgovernancerelay/service.go:492-496 | every outer transaction of a workflow carries the one Safe transaction hash and calldata hash fixed at authorization, recorded within a minute of checking the live Safe and the sealed calldata |
| `RelaySafety.OutcomesAreProven` | internal/ascpgovernancerelay/service.go:443-484 | RETRYABLE_EXACT, PENDING and FINALIZED_OBSERVED always rest on kept evidence about the job's own outer transaction that decides exactly this |
| `RelaySafety.AttemptsAreBounded` | internal/ascpgovernancerelay/service.go:301-316 | BROADCASTING implies fewer than ten attempts; attempts and outer transactions never exceed ten and differ only by the one in flight |
| `RelaySafety.LeaseFencing` | internal/ascpgovernancerelay/memory.go:261-277 | a token-bearing write succeeds only while nobody re-claimed the job, and then the stored job equals the snapshot the worker decided on |
| `RelaySafety.RecordedBeforeBroadcast` | internal/ascpgovernancerelay/service.go:346-354 | nothing is broadcast that was not durably recorded for its workflow, and only after the live Safe passed the gate in the same operation |
| `RelaySafety.TerminalStatesAbsorb` | internal/ascpgovernancerelay/service.go:265-484 | over service runs REAPPROVAL_REQUIRED and FINALIZED_OBSERVED are final, the authorized artifact never changes, outer transactions only accumulate |
| `RelaySafety.StoreAloneReapprovesAnything` | internal/ascpgovernancerelay/memory.go:220-225 | the store itself accepts a reapproval from every state, and refuses every other decision in a terminal one |
| `RelayService.Service.RelayOnce` | internal/ascpgovernancerelay/service.go:265-354 | a cycle is a run of the multi-worker protocol that touches one job and gives the lease back; it ends in SUBMITTED exactly when the checks pass and the broadcast is delivered, or recovery finds the transaction pending; it hands over at most one transaction, exactly when told, and never a replacement for a recorded one; a reapproval always has a cause |
| `RelayService.Service.RecoverBroadcasting` | internal/ascpgovernancerelay/service.go:356-420 | a recorded transaction is sent again exactly when the evidence proves it gone, attempts remain and the live Safe still fits; otherwise its submission is written before any decision |
| `RelayService.Service.RefreshRetry` | internal/ascpgovernancerelay/service.go:274-311 | the job is resumed exactly on fresh retry evidence below the attempt limit and inside the lease; waiting changes nothing |
| `RelayService.Service.BroadcastPrepared` | internal/ascpgovernancerelay/service.go:422-431 | one more broadcast of exactly the recorded hash, and an attempt counted exactly when it is confirmed and written in time |
| `RelayService.Service.ObserveOnce` | internal/ascpgovernancerelay/service.go:443-470 | the stored state becomes what the evidence decides, or nothing changes but the lease; nothing is broadcast |
| `Utf.DecodeSound` | internal/ascpevents/event.go:299-303 | a string accepted as valid UTF-8 encodes exactly the runes it decodes to |
| `Utf.DecodeComplete` | internal/ascpevents/event.go:299-303 | every encoded list of runes is accepted and decodes to itself |
| `Utf.Utf16LessIsTotal` | internal/ascpevents/event.go:379-387 | the UTF-16 key order is a strict total order on valid strings |
| `Utf.CompareUnits` | internal/ascpevents/event.go:379-387 | the loop decides lexicographic order of code units |
| `CanonicalJson.RoundTrip` | internal/ascpevents/event.go:290-346 | the reader gives a printed value and the remaining text back, for every value of the profile |
| `CanonicalJson.RoundTripExactly` | internal/ascpevents/event.go:304-309 | it does so exactly when the rest does not continue a nonzero number with a digit |
| `CanonicalJson.NumbersAreNotPrefixFree` | internal/ascpevents/event.go:304-309 | 1 prints as a prefix of 10 and is not read back from it |
| `CanonicalJson.PrintInjective` | internal/ascpevents/event.go:290-346 | two values that print alike are equal |
| `CanonicalJson.PrefixFree` | internal/ascpevents/event.go:290-346 | no printed value is a proper prefix of another unless it is a nonzero number before a digit |
| `CanonicalJson.KeysForgetIteration` | internal/ascpevents/event.go:321-329 | the sorted keys do not depend on the order in which the map was iterated |
| `CanonicalJson.StringRoundTrip` | internal/ascpevents/event.go:348-377 | unescaping undoes the byte-wise escaping of any string |
| `CanonicalJson.NumberMeaning` | internal/ascpevents/event.go:304-309 | the accepted literals are exactly the decimal forms of 0 to 2^53-1 |
| `CanonicalJson.RawIsCanonical` | internal/ascpevents/event.go:244-266 | under any decoder that reads canonical text back, a raw message is accepted exactly when it is some value's canonical text |
| `JsonWriter.Buffer.WriteCanonical` | internal/ascpevents/event.go:290-346 | the buffer receives exactly the printed value, and the writer fails exactly when there is none |
| `JsonWriter.Buffer.WriteObject` | internal/ascpevents/event.go:320-341 | keys visited in any order are written in UTF-16 order |
| `JsonWriter.Buffer.WriteString` | internal/ascpevents/event.go:348-377 | the loop writes the quoted escaped text |
| `EventChain.HeadDeterminesHistory` | internal/ascpevents/postgres.go:118-141 | two chains that verify under the same keys with the same head have the same length and are equal at every position, payloads as JSON values; or at some position, after which they are equal, the hash inputs of their two events are a SHA-256 collision |
| `EventChain.SameHashSameContent` | internal/ascpevents/event.go:137-150 | two events with equal hashes have equal fields and equal payload values, or their own hash inputs collide |
| `EventChain.AppendKeepsChain` | internal/ascpevents/postgres.go:47-100 | appends by registered writers keep the chain verifiable, event IDs unique and history untouched; a success matches its input |
| `EventChain.VerifyPrefix` | internal/ascpevents/postgres.go:118-141 | every prefix of a verified chain verifies with the head it ends in |
| `EventStores.EventStore.Verify` | internal/ascpevents/postgres.go:118-141 | the loop returns the head exactly when every event verifies in its place |
| `EventStores.EventStore.Append` | internal/ascpevents/postgres.go:47-100 | an event already stored under the ID is returned when the input matches it and refused when it does not, refs compared by canonical text; a new one extends the table by one |
| `EventChain.RetryReturnsStored` | internal/ascpevents/event.go:164-174 | a retry of an appended input, at any later time, returns the stored event if and only if its refs are not a nil map, and is otherwise refused as a conflict; nothing changes |
| `EventChain.MatchesExactly` | internal/ascpevents/event.go:164-174 | an input matches an event exactly when the event says what it says and its refs are not nil |
| `EventStores.CheckEvent` | internal/ascpevents/event.go:117-135 | accepted exactly with the right place, shape, hash, registered key and MAC |
| `EventStores.BuildEvent` | internal/ascpevents/event.go:96-115 | the event an input becomes at a place of the chain, or refusal |
| `CheckpointSafety.SavedIsBacked` | internal/ascpevents/checkpoint.go:156-203 | under crashes and interleaved publishers and appends, every saved checkpoint has its exact bytes stored and a remote head at or beyond it, and the remote head is an event of the chain |
| `CheckpointSafety.RecoveryAccepts` | internal/ascpevents/checkpoint.go:224-283 | in every reachable state recovery accepts exactly when the remote head is the latest checkpoint's, and reports exactly the events since |
| `CheckpointSafety.AdvancedButUnsavedIsRefused` | internal/ascpevents/checkpoint.go:224-283 | in every reachable state, advancing the remote head to a stored, unsaved checkpoint beyond it makes recovery refuse |
| `CheckpointSafety.CrashBeforeSaveIsRefused` | internal/ascpevents/checkpoint.go:185-203 | from every reachable state with events beyond the remote head, sign, put and advance without save ends in a refused state |
| `CheckpointSafety.RecoveryDetectsRewrites` | internal/ascpevents/checkpoint.go:224-283 | whatever was done to the tables and objects, recovery accepts only tables at least as long as the remote head that hold, event for event, the history up to it, and whose latest checkpoint verifies, is stored and is the remote head; or a tampered event and the real one at its position have colliding hash inputs |
| `CheckpointSafety.OnePublishConverges` | internal/ascpevents/checkpoint.go:156-203 | from any reachable state one uninterrupted publish makes recovery accept, and after k appends it reports k; unless the head is new and the ID text of its checkpoint collides with that of one signed before |
| `CheckpointSafety.GenuineVerifies` | internal/ascpevents/checkpoint.go:285-311 | verifyCheckpoint accepts whatever signCheckpoint made |
| `CheckpointSafety.SameIDSameCheckpoint` | internal/ascpevents/checkpoint.go:205-222 | two checkpoints with one ID have one blob and one sequence, or their own ID texts collide |
| `Publishers.Publisher.Publish` | internal/ascpevents/checkpoint.go:156-203 | put, advance and save in order are exactly the steps of an uninterrupted publish; it returns a checkpoint exactly when the head ends up saved and remote, and then that one |
| `Publishers.Publisher.LatestCheckpoint` | internal/ascpevents/postgres.go:177-179 | the saved checkpoint with the largest sequence |
| `Publishers.Publisher.SaveCheckpoint` | internal/ascpevents/postgres.go:143-175 | inserts once per ID and sequence and only for the canonical event; succeeds exactly when it inserted or holds the same checkpoint already |
| `Budget.BudgetIsConserved` | internal/ascpsettlement/postgres.go:348-372 | with fixed limits, over every interleaving of reserve, activate, refuse, expire, settle and reorganize, no dimension ever counts more than its limit if and only if every reorganization of a refunded reservation, by its lock or its refund, finds room in each dimension the refund freed |
| `Budget.StepConserves` | internal/ascpexecauth/postgres.go:233-305 | one step from within the limits stays within them exactly under that condition |
| `Budget.UndisturbedRefundsConserve` | internal/ascpexecauth/postgres.go:233-305 | so runs that reorganize no refunded reservation keep every limit |
| `Budget.AdmissionCounts` | internal/ascpexecauth/postgres.go:283-304 | an admitted request counts in full in each of its dimensions and nowhere else |
| `Budget.MoveWithin` | internal/ascpexecauth/postgres.go:264-276 | a move keeps a total within its limit exactly when it does not count a reservation anew or there is room |
| `Budget.ReorgCountsAgain` | internal/ascpsettlement/postgres.go:348-372 | either reorganization out of RESTORED adds the whole amount to every refundable dimension |
| `Budget.RefundReorgWitness` | internal/ascpsettlement/postgres.go:348-372 | a run of evaluations, lock, refund and a reorganization of either kind after which 12 count against a limit of 10 |
| `Budget.ValidatedIffReserved` | internal/ascpexecauth/postgres.go:85-192 | over every run an intent is VALIDATED_AND_RESERVED exactly when its reservation row exists |
| `Budget.VerdictsAreFinal` | internal/ascpexecauth/postgres.go:101-105 | each intent is evaluated once; its authorization never changes |
| `Budget.FailureLeavesNoTrace` | internal/ascpexecauth/postgres.go:172-174 | faults, conflicts and capacity refusals leave no trace; without capacity nothing is reserved |
| `Authorizers.Authorizer.ReserveBudget` | internal/ascpexecauth/postgres.go:233-305 | the nested loops refuse exactly when some dimension lacks room, and then insert nothing |
| `Authorizers.Authorizer.LockRows` | internal/ascpexecauth/postgres.go:242-267 | the locked rows sum to what counts in each requested dimension |
| `Authorizers.Remaining` | internal/ascpexecauth/postgres.go:270-277 | the limit less every counting row of the dimension |
| `Authorizers.Authorizer.ValidateAndReserve` | internal/ascpexecauth/postgres.go:85-192 | verdict, reservation and authorization commit together or not at all |
| `AssetHealth.BlockedFundsAreAccounted` | internal/ascpassethealth/postgres.go:99-117 | over every run blocked minus recovered amounts equals the open blocks, at most one per operation, none when NORMAL |
| `AssetHealth.EveryLockIsBlocked` | internal/ascpassethealth/postgres.go:99-117 | new unhealthy evidence leaves no lock without an open block, each new one at the lock's own amount |
| `AssetHealth.StepEpochs` | internal/ascpassethealth/postgres.go:67-124 | the epoch rises exactly with the state, the anchor stands still within an epoch, NORMAL is entered only through an accepted proof |
| `AssetHealth.StaleProofIsRefused` | internal/ascpassethealth/recovery.go:129-139 | a proof made before a relapse is never accepted after it |
| `AssetHealth.ProofIsValidExactly` | internal/ascpassethealth/recovery.go:44-72 | over every run, a proof made of a recovering record is valid while fresh if and only if the record is still the same |
| `AssetHealth.RecoveryCompletesExactly` | internal/ascpassethealth/recovery.go:74-127 | while the recovering record stands, over any run, a fresh proof completes recovery if and only if nothing is pending and every finalized lock already had an open block when the record was made |
| `AssetHealth.RecoveryWaitsForRelapse` | internal/ascpassethealth/postgres.go:99-117 | a run in which a lock finalized during recovery keeps every proof from completing it, until a relapse blocks the lock |
| `AssetHealth.RecoveryReversesEveryLock` | internal/ascpassethealth/postgres.go:139-192 | completing recovery reverses the block of every finalized lock at its amount |
| `HealthStores.Evaluate` | internal/ascpassethealth/health.go:149-199 | a decision exists exactly when enough fresh distinct observers state the same facts; it dates from the earliest |
| `HealthStores.EvaluationForgetsOrder` | internal/ascpassethealth/health.go:149-199 | the order of the observations changes neither verdict nor digest |
| `HealthStores.HealthStore.Transition` | internal/ascpassethealth/postgres.go:36-124 | repeated evidence changes nothing, a clean poll never moves the anchor, a block is added per lock without one |
| `HealthStores.HealthStore.CompleteRecovery` | internal/ascpassethealth/postgres.go:139-192 | NORMAL, new epoch and reversed blocks exactly when the proof and the counts hold |
| `ImportGraph.FirstForbiddenPath` | internal/architecturedeps/isolation.go:174-192 | nil exactly when no forbidden package but the root is reachable, otherwise the part of a shortest path after its last inner empty-named package, the whole path when there is none |
| `ImportGraph.Reachable` | internal/architecturedeps/isolation.go:194-211 | agrees with graph reachability |
| `ImportGraph.BuildPath` | internal/architecturedeps/isolation.go:213-223 | the climb along the parents, turned around in place |
| `ImportGraph.ClimbIsThePath` | internal/architecturedeps/isolation.go:213-223 | the climb is the search path exactly when no package before the last has the empty name |
| `ImportGraph.EmptyNameCutsPath` | internal/architecturedeps/isolation.go:213-223 | a graph in which the reported path lacks its beginning |
| `ImportGraph.PathsAreCovered` | internal/architecturedeps/isolation.go:174-192 | along any path a package is discovered within its distance or a queued one comes before it |
| `ImportGraph.UniqueSorted` | internal/architecturedeps/isolation.go:238-247 | compaction in place leaves the sorted duplicate-free set of the values |
| `EvidenceQuorum.AgreeingQuorum` | internal/ascpgovernanceobserver/observer.go:250-276 | succeeds exactly when one and only one claim has a quorum, and returns all its evidence |
| `EvidenceQuorum.SelectionForgetsOrder` | internal/ascpgovernanceobserver/observer.go:250-276 | input order never changes which claim is selected |
| `EvidenceQuorum.CheckFinality` | internal/ascpgovernanceobserver/observer.go:132-155 | the uint64 test on the minimum heads is the true test for every agreeing provider |
| `Intake.RunKeepsInverse` | internal/ascpintake/intake.go:331-362 | over every run the nonce index is the exact inverse of the idempotency map |
| `Intake.OneOperationPerNonce` | internal/ascpintake/intake.go:344-346 | a nonce belongs to one operation |
| `Intake.RetryReturnsFirst` | internal/ascpintake/intake.go:338-343 | a retry at any later time returns the first operation, a changed one conflicts, nothing changes |
| `Intake.GrantsAreConsumedOnce` | internal/ascpintake/intake.go:347-383 | a consumed grant stays as it is through the rest of a run if and only if no later step issues a grant for a new intent under its ID |
| `Intake.ReissuedGrantWitness` | internal/ascpintake/intake.go:364-384 | a run in which one grant ID is consumed by two operations |
| `Intake.RestoreIsExact` | internal/ascpintake/intake.go:300-329 | in any iteration order, restoring a snapshot of a reachable store rebuilds both maps exactly when every entry is portable |
| `Intake.PortableMeaning` | internal/ascpintake/intake.go:320-329 | portable means identifiers without NUL and a nonempty key and hash |
| `IntakeStore.MemoryStore.Create` | internal/ascpintake/intake.go:331-362 | both maps and the grant change together, keeping the index an inverse |
| `IntakeStore.MemoryStore.Issue` | internal/ascpintake/intake.go:364-384 | one grant per original intent, replayed exactly or refused; a new intent takes its grant ID whoever had it |
| `IntakeStore.MemoryStore.SnapshotTombstones` | internal/ascpintake/intake.go:320-329 | one tombstone per entry, each entry once |
| `IntakeStore.FromTombstones` | internal/ascpintake/intake.go:300-318 | the restored store, or the first error in order |

## Left out

- Processes, environment parsing, HTTP and Unix-socket boundaries, the dashboard: wiring without protocol state.
- Torn writes smaller than one ledger line, file permissions and locks: a failed append adds nothing or one whole event.
- Cryptography: hashes, AES-GCM, Ed25519, HMAC and Safe transaction encoding are function-valued parameters with named laws.
- `RuntimeWorker.RunOnce` and its counters, retry delays and timeouts: only safety and the convergence of an uninterrupted publish are claimed.
- The filters of `claimRuntime` on key, epoch, keeper and organization: a claim here may take any claimable row, so every filtered run is covered.
- `SignerStore.Expire` inside the joint protocol: it has no production caller; its own contract is proved in `SignerStore`.
- BearerSafety.ExpiryProofIsFinal: with runtime leases; without them nothing bounds how late a worker may commit an activation it decided on in time.
- What settlement later does to a live reservation and to its registry entry, inside the joint bearer protocol: there a live reservation stays live; the moves themselves are in `Budget`.
- `insertPaymentOperation` and `lockSignerBinding` beyond their verdict, which is a parameter.
- The order that `EnqueueCommand` sorts commands into: it decides only which job is created first.
- The relay's PostgreSQL store; its narrower list of source states for a reapproval is not needed for the absorbing result.
- RelayService.Service.RelayOnce: which job is claimed is a parameter, chosen by `RelayStore.MemoryStore.Claim`, and no other worker steps inside one cycle; interleaved cycles are the subject of `RelaySafety`.
- RelayService.Service.ObserveOnce: the same two limits.
- The workflow recorder's own state: a recorder failure is an operation that stops.
- EventChain.HeadDeterminesHistory: decodes stored payloads with a parameter, the JSON decoder of the Go library; `EnvLaw` asks of it only that it reads canonical text back, which `CanonicalJson.ParseReadsBack` proves of the reader in `CanonicalJson`.
- CheckpointSafety.OnePublishConverges: all publishers of a run share one signing key and one trial balance per head, and the head must be one that can be signed (nonzero hash, sequence within safe integers).
- Publishing under the leadership fence: the fence only decides who may call.
- Budget.BudgetIsConserved: a settlement step looks at the reservation row only; payment attempts, the operation row and the ledger postings, which can only refuse such a step, are not modelled, so the condition ranges over at least the runs of the code.
- Amounts are compared as integers; the text of stored amounts is checked once, when it is admitted.
- The refund-due flag of reclassification rows, copied and never read here.
- `ascpassethealth.MemoryStore`: a simpler copy of the transitions proved for the tables.
- The SQL behind pending operations and stale canonical checks in `readRecoveryCounts`: one Boolean per step; unclassified locks are modelled.
- `Validate`, the policy tables and the file walk around the import graph.
- Receipt discovery and authority proofs in `ObserveWorkflowCompletion`: only grouping and finality are modelled.
- The contents of an adaptation grant: `ValidateRecord` and the verdict on its use are parameters.
- `local_revalidator.go`, approvals and capacity: verdicts are parameters.
