/** Runs of the store: any sequence of transactions at later and later instants,
    each committing or rolling back. */
module Runs {
  import opened Base
  import opened History
  import opened Invariant
  import opened Multipart
  import opened PartRanges
  import opened Registry
  import opened Rewrite
  import opened Rows
  import opened Safety
  import Flush
  import U = UploadSafety
  import L = LeaseSafety
  import C = CompletionSafety
  import V = RecoverySafety
  import N = CreateSafety
  import S = SingleSafety
  import P = PublishSafety
  import G = RegisterSafety

  datatype Op =
    | CreateOrResolveOp(request: Id, versionId: Id, blobId: Id, plan: PartPlan)
    | AcquireOp(request: Id, invocation: Id, s: Id, ttl: int, capacity: int)
    | ReleaseOp(s: Id, owner: Id, epoch: int)
    | BeginInitiationOp(s: Id, owner: Id, epoch: int)
    | RecordProviderOp(s: Id, owner: Id, epoch: int, provider: string)
    | RecordPartOp(s: Id, owner: Id, epoch: int, receipt: Receipt)
    | ReconcileOp(s: Id, owner: Id, epoch: int, observations: seq<Observation>)
    | MarkAmbiguousOp(s: Id, owner: Id, epoch: int)
    | AcceptOp(s: Id, owner: Id, epoch: int, request: Id)
    | ClaimWorkOp(owner: Id, ttl: int, capacity: int)
    | RenewOp(s: Id, owner: Id, epoch: int, ttl: int)
    | SetPhaseOp(s: Id, owner: Id, epoch: int, target: Phase, flags: PhaseFlags)
    | RecoverOp(s: Id, owner: Id, epoch: int, recovery: RecoveryEvidence)
    | RecordVerifiedOp(s: Id, owner: Id, epoch: int, evidence: Evidence)
    | RegisterOp(datasetId: Id, lines: seq<ManifestLine>, request: Id, fingerprint: Sha)
    | PrepareOp(versionId: Id, sha256: string, request: Id, fingerprint: Sha)
    | MarkInProgressOp(s: Id)
    | MarkVerifiedOp(s: Id, etag: Option<string>)
    | MarkFailedOp(s: Id, code: Failure)
    | RestartOp(versionId: Id, blobId: Id, request: Id, fingerprint: Sha)
    | FinalizeOp(versionId: Id)

  /** The database a transaction commits, or the error it raises. */
  function Database<T>(result: Result<Flush.Done<T>, Error>): Result<Db, Error> {
    match result
    case Ok(done) => Ok(done.db)
    case Err(error) => Err(error)
  }

  function Outcome(db: Db, op: Op, at: Instants): Result<Db, Error> {
    match op
    case CreateOrResolveOp(request, versionId, blobId, plan) => Database(CreateOrResolve(db, request, versionId, blobId, plan, at))
    case AcquireOp(request, invocation, s, ttl, capacity) => Database(Acquire(db, request, invocation, s, ttl, capacity, at))
    case ReleaseOp(s, owner, epoch) => Database(Release(db, s, owner, epoch, at))
    case BeginInitiationOp(s, owner, epoch) => Database(BeginInitiation(db, s, owner, epoch, at))
    case RecordProviderOp(s, owner, epoch, provider) => Database(RecordProvider(db, s, owner, epoch, provider, at))
    case RecordPartOp(s, owner, epoch, receipt) => Database(RecordPart(db, s, owner, epoch, receipt, at))
    case ReconcileOp(s, owner, epoch, observations) => Database(Reconcile(db, s, owner, epoch, observations, at))
    case MarkAmbiguousOp(s, owner, epoch) => Database(MarkAmbiguous(db, s, owner, epoch, at))
    case AcceptOp(s, owner, epoch, request) => Database(Accept(db, s, owner, epoch, request, at))
    case ClaimWorkOp(owner, ttl, capacity) => Database(ClaimWork(db, owner, ttl, capacity, at))
    case RenewOp(s, owner, epoch, ttl) => Database(Renew(db, s, owner, epoch, ttl, at))
    case SetPhaseOp(s, owner, epoch, target, flags) => Database(SetPhase(db, s, owner, epoch, target, flags, at))
    case RecoverOp(s, owner, epoch, recovery) => Database(Recover(db, s, owner, epoch, recovery, at))
    case RecordVerifiedOp(s, owner, epoch, evidence) => Database(RecordVerified(db, s, owner, epoch, evidence, at))
    case RegisterOp(datasetId, lines, request, fingerprint) => Database(Register(db, datasetId, lines, request, fingerprint, at))
    case PrepareOp(versionId, sha256, request, fingerprint) => Database(Prepare(db, versionId, sha256, request, fingerprint, at))
    case MarkInProgressOp(s) => Database(MarkInProgress(db, s, at))
    case MarkVerifiedOp(s, etag) => Database(MarkVerified(db, s, etag, at))
    case MarkFailedOp(s, code) => Database(MarkFailed(db, s, code, at))
    case RestartOp(versionId, blobId, request, fingerprint) => Database(Restart(db, versionId, blobId, request, fingerprint, at))
    case FinalizeOp(versionId) => Database(Finalize(db, versionId, at))
  }

  /** A raised error rolls the transaction back; time has passed all the same. */
  function Step(db: Db, op: Op, at: Instants): Db {
    match Outcome(db, op, at)
    case Ok(after) => after
    case Err(_) => db.(clock := at.commit)
  }

  /** The cases in which the database refuses a write the store issued. */
  predicate Refusal(db: Db, op: Op, at: Instants) {
    match op
    case CreateOrResolveOp(request, versionId, blobId, plan) => N.CreateRefused(db, request, versionId, blobId, plan)
    case RenewOp(s, owner, epoch, ttl) => C.RenewRefused(db, s, owner, epoch, ttl, at)
    case SetPhaseOp(s, owner, epoch, target, flags) => C.SetPhaseRefused(db, s, owner, epoch, target, flags, at)
    case RecoverOp(s, owner, epoch, recovery) => V.RecoverRefused(db, s, owner, epoch, recovery, at)
    case RecordVerifiedOp(s, owner, epoch, evidence) => V.VerifiedRefused(db, s, owner, epoch, evidence, at)
    case PrepareOp(versionId, sha256, request, _) => P.PrepareRefused(db, versionId, sha256, request)
    case MarkVerifiedOp(s, _) => P.MarkVerifiedRefused(db, s)
    case RestartOp(versionId, blobId, request, _) => P.RestartRefused(db, versionId, blobId, request)
    case _ => false
  }

  /** Which kind of guard refuses then: the deferred check of publication, the
      index of unfinished sessions, or a row guard. */
  function Refuser(op: Op): Error {
    match op
    case CreateOrResolveOp(_, _, _, _) => CommitRejected
    case MarkVerifiedOp(_, _) => CommitRejected
    case PrepareOp(_, _, _, _) => IndexViolated
    case RestartOp(_, _, _, _) => IndexViolated
    case _ => TriggerRejected
  }

  /** What one transaction does to a sound database. */
  ghost predicate Sound(db: Db, outcome: Result<Db, Error>, refused: bool, refusal: Error) {
    match outcome
    case Ok(after) => Inv(after) && Advances(db, after) && !refused
    case Err(error) => if refused then error == refusal else !Refused(error)
  }

  /** Refinement of the guards: from a sound database every transaction leaves a
      sound one, and triggers, indexes and deferred checks refuse a write in
      exactly the listed cases, each by the named kind of guard. */
  lemma OutcomeSound(db: Db, op: Op, at: Instants)
    requires Inv(db) && ValidInstants(db, at)
    ensures Sound(db, Outcome(db, op, at), Refusal(db, op, at), Refuser(op))
  {
    hide Inv, Advances, CreateOrResolve, Acquire, Release, BeginInitiation, RecordProvider, RecordPart, Reconcile;
    hide MarkAmbiguous;
    hide Accept, ClaimWork, Renew, SetPhase, Recover, RecordVerified;
    hide Register, Prepare, MarkInProgress, MarkVerified, MarkFailed, Restart, Finalize;
    hide N.CreateRefused, C.RenewRefused, C.SetPhaseRefused, V.RecoverRefused, V.VerifiedRefused, P.PrepareRefused;
    hide P.MarkVerifiedRefused, P.RestartRefused;
    match op
    case CreateOrResolveOp(request, versionId, blobId, plan) => N.CreateOrResolveSafe(db, request, versionId, blobId, plan, at);
    case AcquireOp(request, invocation, s, ttl, capacity) => L.AcquireSafe(db, request, invocation, s, ttl, capacity, at);
    case ReleaseOp(s, owner, epoch) => L.ReleaseSafe(db, s, owner, epoch, at);
    case BeginInitiationOp(s, owner, epoch) => U.BeginInitiationSafe(db, s, owner, epoch, at);
    case RecordProviderOp(s, owner, epoch, provider) => U.RecordProviderSafe(db, s, owner, epoch, provider, at);
    case RecordPartOp(s, owner, epoch, receipt) => U.RecordPartSafe(db, s, owner, epoch, receipt, at);
    case ReconcileOp(s, owner, epoch, observations) => U.ReconcileSafe(db, s, owner, epoch, observations, at);
    case MarkAmbiguousOp(s, owner, epoch) => L.MarkAmbiguousSafe(db, s, owner, epoch, at);
    case AcceptOp(s, owner, epoch, request) => L.AcceptSafe(db, s, owner, epoch, request, at);
    case ClaimWorkOp(owner, ttl, capacity) => C.ClaimWorkSafe(db, owner, ttl, capacity, at);
    case RenewOp(s, owner, epoch, ttl) => C.RenewSafe(db, s, owner, epoch, ttl, at);
    case SetPhaseOp(s, owner, epoch, target, flags) => C.SetPhaseSafe(db, s, owner, epoch, target, flags, at);
    case RecoverOp(s, owner, epoch, recovery) => V.RecoverSafe(db, s, owner, epoch, recovery, at);
    case RecordVerifiedOp(s, owner, epoch, evidence) => V.RecordVerifiedSafe(db, s, owner, epoch, evidence, at);
    case RegisterOp(datasetId, lines, request, fingerprint) => G.RegisterSafe(db, datasetId, lines, request, fingerprint, at);
    case PrepareOp(versionId, sha256, request, fingerprint) => P.PrepareSafe(db, versionId, sha256, request, fingerprint, at);
    case MarkInProgressOp(s) => S.MarkInProgressSafe(db, s, at);
    case MarkVerifiedOp(s, etag) => P.MarkVerifiedSafe(db, s, etag, at);
    case MarkFailedOp(s, code) => P.MarkFailedSafe(db, s, code, at);
    case RestartOp(versionId, blobId, request, fingerprint) => P.RestartSafe(db, versionId, blobId, request, fingerprint, at);
    case FinalizeOp(versionId) => P.FinalizeSafe(db, versionId, at);
  }

  lemma StepSound(db: Db, op: Op, at: Instants)
    requires Inv(db) && ValidInstants(db, at)
    ensures Inv(Step(db, op, at)) && Advances(db, Step(db, op, at))
  {
    hide Inv, Advances, Outcome, Refusal;
    OutcomeSound(db, op, at);
    InvAfterTime(db, at.commit);
  }

  // --------------------------------------------------------------------- runs

  datatype Event = Event(op: Op, at: Instants)

  function After(db: Db, run: seq<Event>): Db {
    if |run| == 0 then db
    else
      var before, last := After(db, run[..|run| - 1]), run[|run| - 1];
      Step(before, last.op, last.at)
  }

  /** Every transaction begins after the one before it ended. */
  predicate ValidRun(db: Db, run: seq<Event>) {
    |run| == 0 ||
      (ValidRun(db, run[..|run| - 1]) && ValidInstants(After(db, run[..|run| - 1]), run[|run| - 1].at))
  }

  /** Every run keeps the invariant and only moves history forward. */
  lemma {:induction false} RunSound(db: Db, run: seq<Event>)
    requires Inv(db) && ValidRun(db, run)
    ensures Inv(After(db, run)) && Advances(db, After(db, run))
  {
    hide Inv, Advances, Step;
    if |run| == 0 {
      AdvancesReflexive(db);
    } else {
      var before, last := After(db, run[..|run| - 1]), run[|run| - 1];
      RunSound(db, run[..|run| - 1]);
      StepSound(before, last.op, last.at);
      AdvancesTransitive(db, before, After(db, run));
    }
  }

  /** Whatever is reached from a registry that holds Datasets only is sound. */
  ghost predicate Reachable(db: Db) {
    exists start, run :: ReachedBy(start, run, db)
  }

  ghost predicate ReachedBy(start: Db, run: seq<Event>, db: Db) {
    Fresh(start) && ValidRun(start, run) && After(start, run) == db
  }

  lemma ReachableIsSound(db: Db)
    requires Reachable(db)
    ensures Inv(db)
  {
    hide Inv, ValidRun, After;
    var start: Db, run: seq<Event> :| ReachedBy(start, run, db);
    FreshSatisfiesInv(start);
    RunSound(start, run);
  }
}
