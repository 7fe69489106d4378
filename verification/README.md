# RoboLake registry: a verified model

RoboLake stores datasets as immutable Versions of content-addressed Blobs. A
Blob larger than 5 GB is uploaded in parts under a frozen, checksum-complete
plan, by a client that holds an admission lease, and assembled and verified by a
worker that holds a completion lease. This project models that registry and
proves what it promises.

The centre is the store. `Rows` holds its tables as one value, `Guards` the
PL/pgSQL triggers, check constraints, indexes and deferred publication check as
predicates over old and new rows, `Flush` the row writes they guard. `Multipart`
and `Registry` give each of the store's transactions as one function from the
database it begins with to the one it commits or the error it raises, in the
order in which the code checks and writes. `Store` is the store object itself: a
class whose methods update those tables in place, statement by statement and
part by part, each proved equal to its transaction function, to roll back when
it raises, and so to keep the invariant.

`Invariant` states what holds after every transaction, `History` what may never
be undone. The `…Safety` modules prove, transaction by transaction, that the
invariant is kept and that the database refuses a write the store issues in
exactly the listed situations, by the listed kind of guard, and in no others;
`Runs` lifts this to every interleaved run at increasing clock readings, from
any registry that holds Datasets only (`ReachableIsSound`). `Coverage`,
`Fencing`, `RunFencing`, `Capacity`, `Reconciliation`, `Receipts`,
`Publication` and `Restarts` derive the promises from the invariant, hence for
every reachable state; `Guarantees` states the main ones in that form.

The `…Effects` modules say of each transaction, in the tables' own terms and
without the functions it is written with, exactly when it commits, every column
it then writes, what it answers, and which error it raises otherwise; so does
`StatusCounts` of the status, counted over sets, with the sums of `Weights`.
`Immutability` asks what the triggers alone protect: it takes any row writes
whatever, not only the store's.

Around it stand the deterministic part plan with its two validators and its
codec (`PartRanges`, `SqlPlan`, `PlanCodec`, over a JSON printer and reader in
`Json`), the canonical manifest and its collision scan (`Manifest`,
`ManifestLoops`, `ManifestProofs`, `ManifestText`, `Collisions`), the download cursor and the
walk it drives (`Cursor`, `Downloads`), pull and push (`AtomicTree`, `Pull`,
`Push`, `PushService`), and the provider's part listing (`Listing`).

Fenced transactions read the database clock at three instants, `now`, `flush`
and `commit`, in that order and after the previous commit. Creation times, and
every time the single-PUT and publication methods store, come from the
application's own clock instead, `wall`, of which nothing at all is assumed; the
one decision that hangs on it is which session of a Blob is the latest. Fresh
identifiers come from a counter. Transactions are serial: fenced writes update,
and takeovers lock, the session row, and capacity is decided under an advisory
lock. Lease renewal is the exception, one UPDATE that takes neither lock; what
the capacity bound loses by it is `Capacity.OverlapOvershoots`.

`Scenes`, `Journeys` and `Inhabited` put runs together step by step, so that the
theorems about reachable states are seen to speak of something.

Where the code and its documentation differ the model follows the code:

- `docs/M2_FAILURE_AND_RECONCILIATION_MATRIX.md:49-50` expects a fresh receipt
  after a part is reset. The store takes one only if it repeats the first ETag
  (`Receipts.RecordPartCommitsExactly`, `Receipts.FreshReceiptAfterReset`), and
  keeps the first receipt for ever (`Receipts.FirstReceiptForever`);
  `Inhabited.ResetIsReached` gives a run to such a part.
- `robolake/domain/multipart.py:529-555` admits the phase edges
  PENDING→FINAL_PRESENT and ASSEMBLING→PENDING; the trigger wants another
  completion reason or an attempt time, which no store method writes, so the
  database always refuses them (`CompletionSafety.SetPhaseSafe`).
- Creating a session does not look at the Blob's state; only the deferred check
  refuses it on an AVAILABLE Blob (`CreateSafety.CreateOrResolveSafe`).
- The collision scan compares neighbours only and can overlook an ancestor
  (`Collisions.BuildDecides`); a manifest with `a`, `a-b` and `a/b` is accepted,
  and no pull of it can succeed (`Collisions.AncestorOverlooked`).
- A restart begins a new attempt only under a key that is not bound
  (`Restarts.RestartBeginsExactly`); under the original key it replays the
  failed session and leaves the Version and the Blob FAILED
  (`Restarts.RestartReplaysFailure`).
- A failed pull aborts the download it finds active, even one it did not begin
  (`Pull.Run`).

## Model

| member | source | states |
|---|---|---|
| Runs.OutcomeSound | robolake/infrastructure/store.py:142-1537 | Refinement of the database guards: from any database that satisfies the invariant, each of the 21 transactions either commits a database that satisfies it again and only moves history forward, or raises; triggers, check constraints, unique indexes and the two deferred checks refuse one of its writes if and only if `Refusal` holds, and then the one that refuses is `Refuser`: the deferred publication check (a new session on an AVAILABLE Blob; single-PUT publication over multipart history), a row guard (PENDING→FINAL_PRESENT and ASSEMBLING→PENDING; a completion lease that lapses between check and flush), or the active-session index (preparation against an INITIATING session; restart of a FAILED Blob against an unfinished one) |
| Runs.StepSound | robolake/infrastructure/store.py:142-1537 | Every step of a run, committed or rolled back, keeps the invariant |
| Runs.RunSound | robolake/infrastructure/store.py:142-1537 | Every run, of any length and any interleaving of transactions at increasing clock readings, keeps the invariant and advances history |
| Runs.ReachableIsSound | robolake/infrastructure/store.py:142-1537 | Whatever a run reaches from a registry holding Datasets only satisfies the invariant |
| Invariant.FreshSatisfiesInv | robolake/infrastructure/store.py:103-141 | A registry holding Datasets only satisfies the invariant |
| Frame.InvAfterTouch | robolake/infrastructure/store.py:816-1537 | Sound new rows for one session, its parts, leases and Blob leave the whole database sound: sibling sessions, generations, Versions and bindings included |
| Frame.InvPassesCommit | migrations/versions/20260714_0003_m2_multipart.py:722-793 | Any database that satisfies the invariant passes the deferred publication check for every Blob |
| History.AdvancesTransitive | robolake/infrastructure/store.py:816-1537 | Fences, frozen plans, receipts, published content and bindings that persist over each step persist over runs |
| Guarantees.AlwaysCovered | robolake/infrastructure/store.py:1042-1229 | In every reachable state a COMPLETING or COMPLETED session has every planned part verified, and listed sizes add up to the Blob |
| Guarantees.NeverTwoOwners | robolake/infrastructure/store.py:816-1537 | In no reachable state are an admission and a completion lease of one session both unexpired, at any instant |
| Guarantees.AlwaysConsistent | migrations/versions/20260714_0003_m2_multipart.py:722-834 | In every reachable state every Blob passes the publication check, and one with multipart history is AVAILABLE iff exactly one session completed it |
| Guarantees.AlwaysHonest | robolake/infrastructure/store.py:263-330 | In every reachable state status succeeds for every Version, and a READY Version is complete |
| Inhabited.PublicationIsReached | robolake/infrastructure/store.py:142-1537 | For every file of the protocol's range some run leads from Datasets only to a COMPLETED session and a READY Version |
| Inhabited.CreationRefused | robolake/infrastructure/store.py:753-806 | Some run ends in a creation on an AVAILABLE Blob that the deferred check refuses |
| Inhabited.PendingToPresentRefused | robolake/infrastructure/store.py:1327-1371 | Some run ends in a move PENDING→FINAL_PRESENT that the session guard refuses |
| Inhabited.AssemblingToPendingRefused | robolake/infrastructure/store.py:1327-1371 | Some run ends in a move ASSEMBLING→PENDING that the session guard refuses |
| Inhabited.RenewalRefused | robolake/infrastructure/store.py:1289-1325 | Some run ends in a renewal that the lease guard refuses |
| Inhabited.RecoveryRefused | robolake/infrastructure/store.py:1411-1429 | Some run ends in a recovery that the lease guard refuses |
| Inhabited.VerificationRefused | robolake/infrastructure/store.py:1481-1537 | Some run ends in a final publication that the lease guard refuses |
| Inhabited.PreparationRefused | robolake/infrastructure/store.py:402-420 | Some run ends in a preparation that the active-session index refuses |
| Inhabited.SingleVerificationRefused | robolake/infrastructure/store.py:485-518 | Some run ends in a single-PUT verification that the deferred check refuses |
| Inhabited.RestartIsRefused | robolake/infrastructure/store.py:608-634 | Some run ends in a restart that the active-session index refuses, creation times having run backwards |
| Inhabited.ResetIsReached | robolake/infrastructure/store.py:1085-1096 | Some run leads to a PENDING part that still holds a receipt |
| CreateSafety.CreateOrResolveSafe | robolake/infrastructure/store.py:691-806 | Creating or resolving keeps the invariant; the database refuses it, by the deferred check, iff it would start a session on an AVAILABLE Blob |
| LeaseSafety.AcquireSafe | robolake/infrastructure/store.py:816-913 | Granting, extending or taking over admission keeps the invariant and is never refused by the lease guard; when each happens is `LeaseEffects.AcquireDecides` |
| LeaseSafety.ReleaseSafe | robolake/infrastructure/store.py:915-928 | Releasing admission keeps the invariant and is never refused |
| UploadSafety.BeginInitiationSafe | robolake/infrastructure/store.py:930-946 | Entering INITIATING seals the frozen plan under the trigger and is never refused |
| UploadSafety.RecordProviderSafe | robolake/infrastructure/store.py:948-983 | Recording the provider id keeps the invariant and is never refused; what is recorded is `UploadEffects.ProviderDecides` |
| UploadSafety.RecordPartSafe | robolake/infrastructure/store.py:985-1040 | Recording a receipt keeps the invariant and is never refused by the part guard |
| UploadSafety.ReconcileSafe | robolake/infrastructure/store.py:1042-1108 | Both flushes of a reconciliation pass the part guard for every part, and the invariant holds |
| LeaseSafety.MarkAmbiguousSafe | robolake/infrastructure/store.py:1110-1143 | Terminalizing an ambiguous initiation keeps the invariant and is never refused |
| LeaseSafety.AcceptSafe | robolake/infrastructure/store.py:1145-1222 | Accepting completion keeps the invariant and is never refused |
| CompletionSafety.ClaimWorkSafe | robolake/infrastructure/store.py:1224-1287 | Claiming completion work keeps the invariant and is never refused; what is claimed is `LeaseEffects.ClaimDecides` |
| CompletionSafety.RenewSafe | robolake/infrastructure/store.py:1289-1325 | Renewal is refused by the lease guard iff the lease lapses between the check and the flush |
| CompletionSafety.SetPhaseSafe | robolake/infrastructure/store.py:1327-1371 | A phase move is refused by the session guard iff it is PENDING→FINAL_PRESENT or ASSEMBLING→PENDING, which the application's own table admits |
| RecoverySafety.RecoverSafe | robolake/infrastructure/store.py:1373-1479 | Recovery keeps the invariant and is refused, by the lease guard, iff it gives up a lapsed lease |
| RecoverySafety.RecordVerifiedSafe | robolake/infrastructure/store.py:1481-1537 | Final publication keeps the invariant and is refused by a row guard iff the lease lapses, so never by the deferred check |
| RegisterSafety.RegisterSafe | robolake/infrastructure/store.py:142-233 | Sealing a Version keeps the invariant and is never refused: neither by the check and key constraints of its entries, Blobs and Version row, nor by the trigger's recount, nor by the deferred check that a Version is sealed |
| PublishSafety.PrepareSafe | robolake/infrastructure/store.py:356-442 | Preparation is refused by the active-session index iff an INITIATING multipart session holds the slot of a PENDING Blob |
| SingleSafety.MarkInProgressSafe | robolake/infrastructure/store.py:453-483 | Starting a single-PUT attempt keeps the invariant and is never refused |
| PublishSafety.MarkVerifiedSafe | robolake/infrastructure/store.py:485-518 | Single-PUT verification is refused at commit iff the Blob has multipart history |
| PublishSafety.MarkFailedSafe | robolake/infrastructure/store.py:520-566 | Recording a mismatch keeps the invariant and is never refused |
| PublishSafety.RestartSafe | robolake/infrastructure/store.py:568-645 | A restart keeps the invariant and is refused, by the active-session index, iff an unfinished session holds the slot of the FAILED Blob though a single-PUT one has the latest creation time |
| PublishSafety.FinalizeSafe | robolake/infrastructure/store.py:647-689 | Publication keeps the invariant, is never refused, and never finds the stored totals wrong |
| CreationEffects.CreateDecides | robolake/infrastructure/store.py:715-806 | A new request begins a session iff the plan is canonical and sized for a Blob the Version references, no session of that Blob is unfinished and it is not AVAILABLE; the session row, its parts, the binding and the context answered are given column by column, with one more than the Blob's highest generation. It joins an unfinished session iff that one was frozen from the same plan. Each refusal has its error |
| CreationEffects.CreateRepeats | robolake/infrastructure/store.py:698-713 | The request id again: the same payload answers with its session as it now stands, another one is an idempotency conflict |
| CreationEffects.AcquireRepeats | robolake/infrastructure/store.py:826-841 | The request id again: the same payload answers with the lease first given and leaves the lease row alone, another one is a conflict |
| CreationEffects.AcceptRepeats | robolake/infrastructure/store.py:1152-1175 | The request id again: the same payload answers with the session whatever has become of it, another one is a conflict |
| LeaseEffects.AcquireDecides | robolake/infrastructure/store.py:846-913 | A new request gets the lease iff ttl and capacity are positive, the session is a multipart one in upload, and either this invocation's lease runs or none runs and fewer than capacity do, so an expired lease of another invocation is taken over; an extension keeps owner, epoch and acquiredAt, a grant has an owner never used and the next epoch (1 if none), both run from now for ttl. Each refusal has its error |
| LeaseEffects.ReleaseDecides | robolake/infrastructure/store.py:915-928 | Releases iff the token is the running lease's, ending it at the flush and keeping the rest of its row; else LeaseLost |
| LeaseEffects.ClaimDecides | robolake/infrastructure/store.py:1224-1287 | With a free place a claim takes, of the COMPLETING sessions without a running lease, however many workers they had, the one least by (completionRequestedAt, id); it takes none iff none waits or no place is free; the lease has the given owner and the next epoch (1 if none) and runs from now for ttl, and the answer carries the stored phase |
| LeaseEffects.RenewDecides | robolake/infrastructure/store.py:1289-1325 | Renews iff ttl is positive and the token is the running lease's at the flush, from then for ttl, and keeps owner, epoch and acquiredAt; with each error |
| UploadEffects.BeginDecides | robolake/infrastructure/store.py:930-946 | Moves to INITIATING iff the session is CREATED under the presented running lease; only state and two instants change; else LeaseLost |
| UploadEffects.ProviderDecides | robolake/infrastructure/store.py:948-983 | Records iff the id is nonempty, the session INITIATING under the presented running lease, and its Blob PENDING or UPLOADING; then the session's provider is the very id presented, its state IN_PROGRESS, its activity the flush, and the Blob UPLOADING; nothing else changes. Each refusal has its error |
| UploadEffects.ProviderStands | robolake/infrastructure/store.py:954-969 | After any run the session still has the provider id it once stored |
| UploadEffects.PartDecides | robolake/infrastructure/store.py:985-1040 | Records iff the ETag is nonempty, the session IN_PROGRESS under the presented running lease, and the receipt is of a planned part with the planned checksum and no other ETag stored; that part alone becomes UPLOADED with the receipt and the instant, or stays as it is if it has the receipt already. Each refusal has its error |
| UploadEffects.ReconcileDecides | robolake/infrastructure/store.py:1042-1108 | Commits iff the observations are readable, of distinct planned parts, and the session is uploading under the presented lease; every part row is then given column by column: VERIFIED or PENDING, what the provider listed, the instant, and the diagnosis; the answer counts the parts newly VERIFIED and sums their sizes. Each refusal has its error |
| UploadEffects.AmbiguousDecides | robolake/infrastructure/store.py:1110-1143 | Fails the session for good iff it is INITIATING under the presented running lease, which ends; else LeaseLost |
| CompletionEffects.AcceptDecides | robolake/infrastructure/store.py:1186-1222 | A new request moves the session to COMPLETING, phase PENDING, iff it is IN_PROGRESS under the presented running lease with every part VERIFIED; the lease ends with it. Each refusal has its error |
| CompletionEffects.PhaseDecides | robolake/infrastructure/store.py:1327-1371 | The stored phase becomes the target iff the session is COMPLETING under the presented running lease and the move is none, PENDING→ASSEMBLING→FINAL_PRESENT→FINAL_VERIFICATION, or back to FINAL_PRESENT after a transient read failure. Each refusal has its error |
| CompletionEffects.RecoverDecides | robolake/infrastructure/store.py:1373-1479 | Recovery commits iff its evidence is well formed and presentable for its reason, the claim runs, and the reason fits: all parts confirmed, not all, or a void attempt, the last two under a lease still running at the flush; whatever it leaves holds finalAbsenceAt, reconciledAt and the presented or implied result; session, parts, lease, action and context are given column by column for each outcome, and each error |
| CompletionEffects.VerifiedDecides | robolake/infrastructure/store.py:1481-1537 | Publishes iff the session is COMPLETING in FINAL_VERIFICATION under a lease running at the flush and the evidence is the Blob's digest and size, read in full; then the session is COMPLETED with the evidence, the Blob AVAILABLE since its completion time, the lease ended, and nothing else changed. Each refusal has its error |
| RegistrationEffects.RegisterDecides | robolake/infrastructure/store.py:142-233 | A new request seals a Version iff the manifest is canonical, the Dataset exists and no stored Blob of one of its digests has another size: the next number, the manifest's totals, one entry a line in order, and exactly the Blobs that were missing, PENDING; a manifest the Dataset has already is answered by its Version. Each refusal has its error |
| RegistrationEffects.RegisterRepeats | robolake/infrastructure/store.py:159-174 | The request id again: the same fingerprint answers with its Version, another one is a conflict |
| SessionEffects.PrepareDecides | robolake/infrastructure/store.py:356-442 | A new request on the Blob of a digest: nothing to do once it is AVAILABLE; else it joins the single-PUT session underway; else it begins a first one for a PENDING Blob, unless the index refuses; else it joins the latest; a multipart session is an illegal transition |
| SessionEffects.PrepareNeedsBlob | robolake/infrastructure/store.py:368-381 | Without a Version or a referenced Blob of the digest the answer is NotFound |
| SessionEffects.PrepareRepeats | robolake/infrastructure/store.py:382-400 | The request id again: the same fingerprint answers with its session, another one is a conflict |
| SessionEffects.RestartDecides | robolake/infrastructure/store.py:568-645 | A new request restarts iff Version and the Blob it references are FAILED, the last session created is a single-PUT one and none is unfinished; both are then UPLOADING without failure, under a new CREATED session, column by column. Each refusal has its error |
| SessionEffects.RestartRepeats | robolake/infrastructure/store.py:594-607 | The request id again, the one of the failed upload included: answers with its session and reopens nothing |
| PublishEffects.StartDecides | robolake/infrastructure/store.py:453-483 | A CREATED session starts, a PENDING Blob becomes UPLOADING and a DRAFT or FAILED Version UPLOADING without failure; a started one is left alone; else the error |
| PublishEffects.VerifiedDecides | robolake/infrastructure/store.py:485-518 | A session in progress completes with its ETag and makes its Blob AVAILABLE, unless a multipart session of the Blob ever existed; a completed one is left alone; else the error |
| PublishEffects.FailedDecides | robolake/infrastructure/store.py:520-566 | A mismatch fails session, Blob and UPLOADING Version together, with the code; a failed one is left alone; else the error |
| PublishEffects.FinalizeDecides | robolake/infrastructure/store.py:647-689 | A DRAFT or UPLOADING Version becomes READY iff every file's Blob is AVAILABLE; a READY one is answered as it stands; else the error |
| Immutability.AnyWritesStand | migrations/versions/20260714_0003_m2_multipart.py:330-720 | Under any row writes whatever, accepted or refused by the triggers: session identity, frozen plans, provider ids, finished sessions, planned part columns, Blob content, AVAILABLE Blobs, sealed content and entries, and READY Versions never change; lease epochs never fall and one epoch keeps one owner |
| Immutability.AnyWritesKeep | migrations/versions/20260714_0003_m2_multipart.py:259-580 | And they keep true that a COMPLETED multipart session has read back all of an AVAILABLE Blob, that stored checksums are the planned ones, and that a session past CREATED has the plan whose ranges and hash the trigger recomputed |
| Immutability.TakeoverWaits | migrations/versions/20260714_0003_m2_multipart.py:587-673 | No accepted write takes a lease from a holder whose lease runs at the flush |
| Coverage.CompletingIsCovered | robolake/infrastructure/store.py:1085-1108 | Whenever a session is COMPLETING or COMPLETED every planned part is VERIFIED, its receipt equals the listed ETag and checksum, the checksum decodes to the expected digest, listed sizes are the planned ones and sum to the Blob |
| Coverage.EveryByteCoveredOnce | robolake/domain/multipart.py:245-262 | Then every byte offset of the Blob lies in exactly one part, and that part is VERIFIED |
| Coverage.AvailableExactlyWhenCompleted | migrations/versions/20260714_0003_m2_multipart.py:722-793 | A Blob with multipart history is AVAILABLE iff exactly one of its sessions is COMPLETED, with evidence equal to its digest and size, and no other is unfinished |
| Coverage.GenerationsAreConsecutive | robolake/infrastructure/store.py:753-792 | The generations of a Blob are exactly 1 to k |
| Coverage.OnlyTheLastGenerationRuns | migrations/versions/20260714_0003_m2_multipart.py:116-124 | No two sessions of a Blob share a generation and all but the last are terminal |
| Fencing.OwnersExclude | robolake/infrastructure/store.py:846-853 | At any instant an unexpired admission lease means CREATED, INITIATING or IN_PROGRESS, an unexpired completion lease means COMPLETING, and never both |
| Fencing.DeadStaysDead | robolake/infrastructure/store.py:833-928 | An expired or superseded token stays so in every later state and passes no fence at any later instant |
| Fencing.FailedFenceIsDead | robolake/infrastructure/store.py:1289-1325 | A token that fails its fence by expiry or supersession is dead from that instant |
| Fencing.OneOwnerPerEpoch | migrations/versions/20260714_0003_m2_multipart.py:587-660 | Epochs never decrease and one epoch keeps one owner |
| Fencing.ReplayedLeaseIsFenced | robolake/infrastructure/store.py:1741-1759 | The lease a replayed acquisition returns passes the fence iff it still is the running one |
| Fencing.ReceiptPersists | robolake/infrastructure/store.py:1016-1040 | A stored receipt is never replaced, whatever happens to the part |
| Receipts.RecordPartCommitsExactly | robolake/infrastructure/store.py:985-1040 | A receipt is recorded iff it is well formed, its owner passes the fence on an IN_PROGRESS session, its part is planned and its checksum the expected one, and the part has no receipt or one with the same ETag |
| Receipts.ResetKeepsReceipt | robolake/infrastructure/store.py:1085-1096 | A part the provider no longer lists goes back to PENDING and keeps its receipt |
| Receipts.FreshReceiptAfterReset | robolake/infrastructure/store.py:1016-1030 | After such a reset a receipt is taken iff it repeats the old ETag, whoever presents it |
| Receipts.FirstReceiptForever | robolake/infrastructure/store.py:1016-1030 | After any run a stored receipt stands and one with another ETag is refused |
| RunFencing.FencedForever | robolake/infrastructure/store.py:930-1537 | After any run, a transaction presenting a token that was once dead writes nothing |
| RunFencing.BoundKeyWritesNothing | robolake/infrastructure/store.py:1707-1786 | A request whose key is bound writes nothing, whatever its payload |
| RunFencing.ReplayedForever | robolake/infrastructure/store.py:833-840 | After any run a bound key keeps its record and writes nothing |
| RunFencing.AcquireAnswersAlike | robolake/infrastructure/store.py:1741-1759 | A repeated acquisition returns the very first answer after any run |
| Capacity.CapacityHolds | robolake/infrastructure/store.py:855-892 | With fixed capacities in all calls, along every run and at every instant, unexpired admission leases number at most the one capacity and completion leases at most the other |
| Capacity.StepStaysBounded | robolake/infrastructure/store.py:1230-1287 | Each transaction, release, renewal and takeover included, keeps both bounds |
| Capacity.OverlapOvershoots | robolake/infrastructure/store.py:1289-1325 | The bound is one of serial transactions: a renewal takes no lock, and a claim that reads the tables before an overlapping renewal commits leaves two live completion leases where one is allowed |
| Reconciliation.ReconcileIsProjection | robolake/infrastructure/store.py:1085-1108 | After reconciliation each part is VERIFIED iff receipt, expected digest, planned size and observation agree, else PENDING, whatever it was before |
| Reconciliation.ReconcileAgain | robolake/infrastructure/store.py:1042-1108 | Repeating it with the same observations changes no state and reports zero parts and bytes |
| Reconciliation.ReconcileBalances | robolake/infrastructure/store.py:1085-1108 | Verified bytes after = verified bytes before + resolved bytes − bytes of parts reset |
| Reconciliation.RecoveryDichotomy | robolake/infrastructure/store.py:1431-1479 | Under a live claim, of PARTS_READY and PARTS_PARTIAL for the same evidence exactly one commits, by whether all parts agree, with the stated outcome; the other raises |
| Reconciliation.InvalidationFails | robolake/infrastructure/store.py:1411-1429 | Both invalidation reasons end in FAILED with the completion lease ended |
| PartSafety.AgreesExactly | robolake/infrastructure/store.py:1814-1859 | The diagnostic chain accepts an observation iff size, expected checksum, stored ETag and stored checksum all agree |
| PartLoops.ApplyObservations | robolake/infrastructure/store.py:1085-1096 | The loop over part rows computes the observed rows and the newly resolved ones |
| PartLoops.VerifyResolved | robolake/infrastructure/store.py:1097-1108 | The second loop verifies exactly the newly resolved parts and counts their bytes |
| PartLoops.VerifyAgreeing | robolake/infrastructure/store.py:1435-1450 | The recheck loop verifies exactly the agreeing parts |
| Publication.ReadyIsHonest | robolake/infrastructure/store.py:647-689 | Every Blob a READY Version references is AVAILABLE with the digest and size of its manifest line |
| Publication.PublishedIsFinal | migrations/versions/20260711_0002_m1_registry.py:100-245 | READY Versions, their entries and AVAILABLE Blobs never change again |
| Publication.StoredTotalsAreRecounts | robolake/infrastructure/store.py:175-216 | Stored totals equal a recount over entries and distinct Blobs, and the manifest's totals |
| Publication.StatusIsExact | robolake/infrastructure/store.py:263-330 | Status never violates its bounds, and progress equals the totals iff every referenced Blob is AVAILABLE; what it counts is `StatusCounts.StatusIsCount` |
| StatusCounts.StatusIsCount | robolake/infrastructure/store.py:275-303 | For every stored Version, finished or not: the ready file count is the number of ordinals whose Blob is AVAILABLE and the ready bytes the sum of their sizes; the Blob count is the number of distinct AVAILABLE Blobs used and the Blob bytes the sum of theirs |
| StatusCounts.StatusNamesFailure | robolake/infrastructure/store.py:303-330 | Status names a blocking failure iff some Blob of the Version has one, and then one of theirs |
| Publication.ReadyIsComplete | robolake/infrastructure/store.py:263-330 | Status of a READY Version reports equality |
| Publication.NumbersAreConsecutive | robolake/infrastructure/store.py:175-185 | Version numbers of a Dataset are exactly 1 to n |
| Publication.VersionsAreDistinct | robolake/infrastructure/store.py:169-185 | No two Versions of a Dataset share a number or a manifest |
| Publication.DownloadEntryIsLine | robolake/infrastructure/store.py:332-354 | The download entry of ordinal k is manifest line k, and there is none beyond the last |
| Restarts.RestartBeginsExactly | robolake/infrastructure/store.py:568-645 | A restart begins an attempt iff the Version is FAILED and references the FAILED Blob, the key is not bound, the Blob's latest session is single-PUT and none is unfinished; then both are UPLOADING again with a CREATED session |
| Restarts.OriginalKeyNeverRestarts | robolake/infrastructure/store.py:594-607 | The key an upload was prepared under answers every restart, after any run, with that very session and writes nothing |
| Restarts.RestartReplaysFailure | robolake/infrastructure/store.py:594-607 | The failing input: prepare under a key, start, fail, restart under the same key; the answer is the FAILED session, and Blob and Version stay FAILED |
| Restarts.LatestIsLatest | robolake/infrastructure/store.py:608-616 | The session a restart looks at has the latest creation time of the Blob |
| RegisterSafety.TotalsAgree | migrations/versions/20260711_0002_m1_registry.py:100-180 | The trigger's recount over rows equals the application's manifest totals |
| Store.SqlAlchemyStore.CreateOrResolveMultipart | robolake/infrastructure/store.py:691-806 | Commits or raises, and changes rows, exactly as its specification; rolls back on error; on sound tables keeps the invariant, advances history, and is refused by the database exactly when its specification is |
| Store.SqlAlchemyStore.AcquireMultipartLease | robolake/infrastructure/store.py:816-913 | Commits or raises, and changes rows, exactly as its specification; rolls back on error; on sound tables keeps the invariant, advances history, and is refused by the database exactly when its specification is |
| Store.SqlAlchemyStore.ReleaseMultipartLease | robolake/infrastructure/store.py:915-928 | Commits or raises, and changes rows, exactly as its specification; rolls back on error; on sound tables keeps the invariant, advances history, and is refused by the database exactly when its specification is |
| Store.SqlAlchemyStore.BeginProviderInitiation | robolake/infrastructure/store.py:930-946 | Commits or raises, and changes rows, exactly as its specification; rolls back on error; on sound tables keeps the invariant, advances history, and is refused by the database exactly when its specification is |
| Store.SqlAlchemyStore.RecordProviderUpload | robolake/infrastructure/store.py:948-983 | Commits or raises, and changes rows, exactly as its specification; rolls back on error; on sound tables keeps the invariant, advances history, and is refused by the database exactly when its specification is |
| Store.SqlAlchemyStore.RecordUploadedPart | robolake/infrastructure/store.py:985-1040 | Commits or raises, and changes rows, exactly as its specification; rolls back on error; on sound tables keeps the invariant, advances history, and is refused by the database exactly when its specification is |
| Store.SqlAlchemyStore.ReconcileParts | robolake/infrastructure/store.py:1042-1108 | The same, through the part loops |
| Store.SqlAlchemyStore.MarkMultipartInitiationAmbiguous | robolake/infrastructure/store.py:1110-1143 | Commits or raises, and changes rows, exactly as its specification; rolls back on error; on sound tables keeps the invariant, advances history, and is refused by the database exactly when its specification is |
| Store.SqlAlchemyStore.AcceptCompletion | robolake/infrastructure/store.py:1145-1222 | Commits or raises, and changes rows, exactly as its specification; rolls back on error; on sound tables keeps the invariant, advances history, and is refused by the database exactly when its specification is |
| Store.SqlAlchemyStore.ClaimCompletion | robolake/infrastructure/store.py:1224-1287 | Commits or raises, and changes rows, exactly as its specification; rolls back on error; on sound tables keeps the invariant, advances history, and is refused by the database exactly when its specification is |
| Store.SqlAlchemyStore.RenewCompletionLease | robolake/infrastructure/store.py:1289-1325 | Commits or raises, and changes rows, exactly as its specification; rolls back on error; on sound tables keeps the invariant, advances history, and is refused by the database exactly when its specification is |
| Store.SqlAlchemyStore.SetCompletionPhase | robolake/infrastructure/store.py:1327-1371 | Commits or raises, and changes rows, exactly as its specification; rolls back on error; on sound tables keeps the invariant, advances history, and is refused by the database exactly when its specification is |
| Store.SqlAlchemyStore.RecoverPartialCompletion | robolake/infrastructure/store.py:1373-1479 | The same, through the part loops |
| Store.SqlAlchemyStore.RecordVerifiedCompletion | robolake/infrastructure/store.py:1481-1537 | Commits or raises, and changes rows, exactly as its specification; rolls back on error; on sound tables keeps the invariant, advances history, and is refused by the database exactly when its specification is |
| Store.SqlAlchemyStore.RegisterVersion | robolake/infrastructure/store.py:142-233 | The same, inserting entries and Blobs in a loop |
| Store.SqlAlchemyStore.PrepareUpload | robolake/infrastructure/store.py:356-442 | Commits or raises, and changes rows, exactly as its specification; rolls back on error; on sound tables keeps the invariant, advances history, and is refused by the database exactly when its specification is |
| Store.SqlAlchemyStore.MarkUploadInProgress | robolake/infrastructure/store.py:453-483 | Commits or raises, and changes rows, exactly as its specification; rolls back on error; on sound tables keeps the invariant, advances history, and is refused by the database exactly when its specification is |
| Store.SqlAlchemyStore.MarkUploadVerified | robolake/infrastructure/store.py:485-518 | Commits or raises, and changes rows, exactly as its specification; rolls back on error; on sound tables keeps the invariant, advances history, and is refused by the database exactly when its specification is |
| Store.SqlAlchemyStore.MarkUploadFailed | robolake/infrastructure/store.py:520-566 | Commits or raises, and changes rows, exactly as its specification; rolls back on error; on sound tables keeps the invariant, advances history, and is refused by the database exactly when its specification is |
| Store.SqlAlchemyStore.RestartFailedUpload | robolake/infrastructure/store.py:568-645 | Commits or raises, and changes rows, exactly as its specification; rolls back on error; on sound tables keeps the invariant, advances history, and is refused by the database exactly when its specification is |
| Store.SqlAlchemyStore.FinalizeVersion | robolake/infrastructure/store.py:647-689 | Commits or raises, and changes rows, exactly as its specification; rolls back on error; on sound tables keeps the invariant, advances history, and is refused by the database exactly when its specification is |
| PartRanges.SelectPartSize | robolake/domain/multipart.py:134-150 | The doubling loop returns the least 64 MiB·2^k giving at most 10,000 parts, or errs iff none up to 5 GiB does; never in the protocol's range |
| PartRanges.SqlExpectedPartSize | migrations/versions/20260714_0003_m2_multipart.py:236-253 | The database loop agrees with it on every size it admits |
| PartRanges.ValidateRanges | robolake/domain/multipart.py:245-262 | The cursor loop accepts exactly the consecutive, full, summing ranges |
| PartRanges.PartSizeIsLeast | robolake/domain/multipart.py:134-150 | The selected size is the least that fits and lies between 64 MiB and 5 GiB |
| PartRanges.ValidatorIsGenerator | robolake/domain/multipart.py:157-262 | Ranges validate iff they are the generated boundaries |
| PartRanges.ByteInExactlyOneRange | robolake/domain/multipart.py:157-171 | Every byte lies in exactly one generated range |
| SqlPlan.AggregateIsGenerator | migrations/versions/20260714_0003_m2_multipart.py:272-302 | The trigger's aggregate test accepts uniquely numbered rows iff, in order, they are the generated boundaries |
| SqlPlan.AggregateIsSequential | migrations/versions/20260714_0003_m2_multipart.py:272-302 | Hence it accepts exactly what the sequential validator accepts |
| PlanCodec.RejectDuplicateKeys | robolake/domain/multipart.py:290-296 | The duplicate-key hook builds the dictionary iff keys are distinct |
| PlanCodec.ParseCanonicalPartPlan | robolake/domain/multipart.py:299-354 | The parser with its loop returns what its specification says |
| PlanCodec.PlanRoundTrip | robolake/domain/multipart.py:265-354 | Parsing the canonical text of a valid plan returns the plan |
| PlanCodec.PlanCanonicity | robolake/domain/multipart.py:299-354 | A text is accepted iff it is the canonical text of the valid plan returned |
| PlanCodec.CanonicalTextInjective | robolake/domain/multipart.py:265-282 | Different valid plans have different texts |
| PlanCodec.BuildOrderFree | robolake/domain/multipart.py:216-227 | Building does not depend on the supplied part order |
| PlanCodec.SqlTextAgrees | migrations/versions/20260714_0003_m2_multipart.py:304-320 | The text the trigger concatenates is the application's canonical text |
| Sealing.FrozenPlanSeals | migrations/versions/20260714_0003_m2_multipart.py:259-326 | The stored rows of a frozen plan always pass the sealing trigger, hash included |
| Sealing.ContextLoads | robolake/infrastructure/store.py:1565-1617 | Reading the context of a sound session never fails and rebuilds the plan that was frozen |
| Json.LoadsDumps | robolake/domain/multipart.py:265-354 | The reader inverts the compact printer on every value without fractions (sections 4 to 7 of RFC 8259) |
| Json.DumpsInjective | robolake/domain/multipart.py:265-282 | Compact texts of different values differ |
| Digest.ChecksumBijection | robolake/domain/multipart.py:357-372 | The checksum codec is a bijection between digests and accepted texts |
| ManifestLoops.BuildManifest | robolake/domain/manifest.py:59-98 | The builder's passes compute the specified manifest or error |
| ManifestLoops.CheckSizes | robolake/domain/manifest.py:68-72 | The dictionary pass accepts iff every digest has one size |
| ManifestLoops.CheckCollisions | robolake/domain/manifest.py:73-78 | The neighbour scan finds a collision iff two neighbours collide |
| ManifestProofs.BuildOrderFree | robolake/domain/manifest.py:59-98 | Every permutation of the entries gives the same bytes or the same error kind |
| ManifestProofs.ManifestCanonicity | robolake/domain/manifest.py:100-135 | A text is accepted iff it is the canonical text of the built manifest returned |
| ManifestProofs.AcceptsExactlyBuilt | robolake/domain/manifest.py:100-135 | The reader accepts exactly the texts the builder can produce |
| ManifestProofs.ScanExactly | robolake/domain/manifest.py:73-78 | The scan passes iff keys are distinct and every key with something below it has a shield: another key extending it by a character below the separator |
| ManifestProofs.AncestorFree | robolake/domain/manifest.py:73-78 | Without characters below the separator the scan passes iff keys are distinct and none is an ancestor of another |
| Collisions.BuildDecides | robolake/domain/manifest.py:59-98 | For entries in any order: the builder's answer, with its errors in their order; it reports a collision iff two keys are equal or one has another below it without a shield |
| Collisions.AncestorOverlooked | robolake/domain/manifest.py:73-78 | So a, a-b and a/b together are accepted in every order, and no pull of that manifest can succeed |
| ManifestProofs.PathsDistinct | robolake/domain/manifest.py:73-78 | An accepted manifest has pairwise distinct paths |
| ManifestText.BuiltAscends | robolake/domain/manifest.py:65-67 | A built manifest holds the supplied entries, strictly ascending by path, character by character |
| ManifestText.CanonicalTextIs | robolake/domain/manifest.py:79-97 | The canonical text, spelled out: schema version 1, then the entries in order, each with path, size and digest under their keys in that order, without blanks |
| ManifestProofs.OnlyQuotesEscape | robolake/domain/identifiers.py:80-109 | In a safe path the quote is the only character printed escaped |
| ManifestProofs.BuiltIsSound | robolake/domain/manifest.py:59-98 | A built manifest is what registration demands |
| ManifestProofs.FirstUsesCountDigests | robolake/domain/manifest.py:50-52 | The unique Blob count is the number of distinct digests |
| Cursor.CursorBijection | robolake/application/transfers.py:220-255 | A cursor decodes to an ordinal iff it is that ordinal's encoding for this Version and the ordinal is below the file count |
| Cursor.CursorAlphabet | robolake/application/transfers.py:235-248 | No accepted cursor uses + or / or padding (sections 3.2 and 5 of RFC 4648) |
| Cursor.CursorInjective | robolake/application/transfers.py:220-232 | Different ordinals have different cursors |
| Downloads.PlanAt | robolake/application/transfers.py:181-217 | From the cursor of ordinal k the plan names line k, and is complete exactly at the last line |
| Downloads.WalkIsManifest | robolake/application/transfers.py:181-217 | Following the returned cursors from none visits the manifest once, in order, and ends after file_count calls |
| ObjectCheck.VerifyObject | robolake/application/transfers.py:111-126 | The streaming check accepts iff sizes agree and so does the reported checksum or, without one, the content's hash, however it is chunked |
| AtomicTree.AtomicTreeDownloader.Begin | robolake/infrastructure/atomic_tree.py:52-77 | Begins iff idle, canonical, under a safe parent and with a free output |
| AtomicTree.AtomicTreeDownloader.MakeParents | robolake/infrastructure/atomic_tree.py:177-188 | Creates the missing directories of a path, and fails as unsafe iff a staged file stands in the place of one |
| AtomicTree.AtomicTreeDownloader.Prepare | robolake/infrastructure/atomic_tree.py:79-94 | Opens a part file iff active, the entry is in the manifest and no directory it needs is a staged file; with each error |
| AtomicTree.AtomicTreeDownloader.Write | robolake/infrastructure/atomic_tree.py:96-118 | Places one entry iff the handle is live, the item is the prepared one, the bytes arrive and no directory has its name; with each error, and the handle spent once a transfer was tried |
| AtomicTree.AtomicTreeDownloader.Commit | robolake/infrastructure/atomic_tree.py:120-132 | Publishes the staged tree iff every manifest path, and nothing else, was written and nothing stands at the output; a failure changes nothing, and has its error |
| AtomicTree.AtomicTreeDownloader.Abort | robolake/infrastructure/atomic_tree.py:134-157 | Discards staging and leaves the output alone |
| AtomicTree.StagedIsTree | robolake/infrastructure/atomic_tree.py:120-132 | A staging tree with exactly the manifest's paths is the manifest's tree |
| Pull.Run | robolake/application/pull.py:21-70 | Against any control plane: publishes iff everything goes right and no path of the manifest lies below another, and then the whole manifest, each entry once and in order; otherwise nothing, with the error of the first check that fails, and a failure after the record was checked aborts whatever download is active |
| Pull.Fetch | robolake/application/pull.py:38-58 | One round writes entry k iff the k-th reply names it, its completion marker and cursor are right, and its path clashes with no earlier one; with each error |
| Pull.Materialize | robolake/application/pull.py:34-59 | The loop publishes iff every round succeeds, on any manifest that begin accepts as canonical; else the error is that of the first round that fails |
| Pull.ServedAcceptably | robolake/application/transfers.py:181-217 | The registry's own download service is acceptable at every ordinal of a READY Version |
| Push.Sources | robolake/application/push.py:71-73 | The dictionary of sources holds the first file of each distinct digest, in order |
| Push.SourcesAreFirst | robolake/application/push.py:71-73 | A file is a source iff no file before it has its content |
| Push.ResolveOne | robolake/application/push.py:76-127 | One content resolves iff its answers are those of this manifest and size and it is available or its upload completes; with what is reported, and the error of the first answer that is wrong |
| Push.ResolveAll | robolake/application/push.py:75-128 | Succeeds iff every content resolves; then created counts and bytes are the number and sizes of the contents that were not available and whose PUT created them, reused ones those of all others, and the progress reported is given event by event; else it stops at the first that does not resolve, with its error |
| Push.Run | robolake/application/push.py:39-202 | With true sizes and totals a push succeeds iff the Version is READY, and then everything is reused, or every content resolves and publication does, and then created and reused are accounted as in ResolveAll; the events reported and the errors are given exactly, progress stays within the unique totals and the final totals check never fails |
| PushService.ServedTruly | robolake/infrastructure/store.py:356-689 | The registry's own answers, in whatever states it gives them, have true sizes and totals |
| PushService.PreparationRepeats | robolake/infrastructure/store.py:382-400 | Asked again under the same key, after any run, the registry answers with the same Blob and session, or with none once the Blob is AVAILABLE |
| Listing.ListParts | robolake/infrastructure/multipart_storage.py:138-188 | The page loop answers iff the pages keep the listing contract up to one that ends the list, and then with every part listed so far, once, in ascending number |
| Listing.AddPage | robolake/infrastructure/multipart_storage.py:170-174 | A page is merged iff it repeats no part number |
| Listing.AssemblyIsArrangement | robolake/infrastructure/multipart_storage.py:222-254 | Receipts are sent iff some arrangement of them is numbered 1 to n with usable tags, and that arrangement is sent |

## Left out

- SHA-256: a hash is identified with the text it hashes, so that equal hashes mean equal texts; content digests are opaque.
- NFC, casefold, letter category and equality of a float with 1: parameters of the manifest builder, with NFC idempotent.
- UTF-8: texts are sequences of Unicode scalars; byte limits use UTF-8 lengths, and byte order is code point order (section 1 of RFC 3629). Malformed bytes, lone surrogates, NaN, Infinity and Python's integer digit limit are not modelled.
- Identifiers: UUIDs are numbers, and request ids are canonical by type, so the format guard on idempotency rows never fires.
- `create_dataset`, `resolve_version`, `get_manifest`, `get_upload`, `get_multipart`: plain lookups; Datasets are a fixed set.
- Columns a check constraint sets together (the frozen plan, the verification evidence) are one optional record; counters of issued capabilities, and error details, are left out.
- Two sessions of a Blob with equal creation times: the later identifier counts as the latest.
- Two readings of the database clock inside one SQL statement count as one instant.
- Immutability.AnyWritesStand: does not model row deletion, which no store method issues and most of the triggers reject.
- PostgreSQL isolation below the transaction, lock waits, deadlocks, and migration upgrade and downgrade: the resulting schema only.
- Capacity.CapacityHolds: does not model a claim that overlaps an uncommitted renewal, because transactions are serial; `Capacity.OverlapOvershoots` gives that case.
- ABORTING, ABORTED and CANCELLED: no store method reaches them; their edges stand in the guards only.
- `prepare_upload`, `issue_upload_url` and `complete_upload` of the transfer service: their calls into the store and the object check are modelled, their orchestration is not.
- Pull.Run: a transfer delivers an entry's exact bytes or fails; the file system is the staged files and directories and the tree at the output, temporary part files clash with nothing, and an interrupt is one of the failures.
- PushService.ServedTruly: takes the session a preparation answers with to be one of the Blob asked for, because request hashes are opaque; `PushService.PreparationAnswers` and `PushService.PreparationRepeats` give it for a key used for one content only.
- Push.Run: control-plane and transfer answers are functions of the digest; the scanner is not part of this model.
- Listing.ListParts: a finite sequence of pages; termination against an endless provider is not claimed.
- Parsing of provider responses, presigning, URL redaction, SDK error translation, HTTP routes, commands, settings and probes.
