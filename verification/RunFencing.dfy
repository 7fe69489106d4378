/** Fencing and replay over whole runs. */
module RunFencing {
  import opened Base
  import opened Fencing
  import opened Flush
  import opened History
  import opened Invariant
  import opened Multipart
  import opened Registry
  import opened Rows
  import opened Runs
  import L = LeaseSafety

  datatype Token = Token(s: Id, owner: Id, epoch: int)

  /** The admission token a transaction must hold. */
  function AdmissionToken(op: Op): Option<Token> {
    match op
    case ReleaseOp(s, owner, epoch) => Some(Token(s, owner, epoch))
    case BeginInitiationOp(s, owner, epoch) => Some(Token(s, owner, epoch))
    case RecordProviderOp(s, owner, epoch, _) => Some(Token(s, owner, epoch))
    case RecordPartOp(s, owner, epoch, _) => Some(Token(s, owner, epoch))
    case ReconcileOp(s, owner, epoch, _) => Some(Token(s, owner, epoch))
    case MarkAmbiguousOp(s, owner, epoch) => Some(Token(s, owner, epoch))
    case AcceptOp(s, owner, epoch, _) => Some(Token(s, owner, epoch))
    case _ => None
  }

  /** The completion token a transaction must hold. */
  function CompletionToken(op: Op): Option<Token> {
    match op
    case RenewOp(s, owner, epoch, _) => Some(Token(s, owner, epoch))
    case SetPhaseOp(s, owner, epoch, _, _) => Some(Token(s, owner, epoch))
    case RecoverOp(s, owner, epoch, _) => Some(Token(s, owner, epoch))
    case RecordVerifiedOp(s, owner, epoch, _) => Some(Token(s, owner, epoch))
    case _ => None
  }

  predicate HoldsDeadToken(db: Db, op: Op) {
    || (AdmissionToken(op).Some? &&
          var token := AdmissionToken(op).value; AdmissionDead(db, token.s, token.owner, token.epoch))
    || (CompletionToken(op).Some? &&
          var token := CompletionToken(op).value; CompletionDead(db, token.s, token.owner, token.epoch))
  }

  /** Only the clock differs. */
  predicate WritesNothing(db: Db, op: Op, at: Instants) {
    Step(db, op, at) == db.(clock := at.commit)
  }

  lemma DeadAdmissionWritesNothing(db: Db, op: Op, at: Instants)
    requires ValidInstants(db, at) && AdmissionToken(op).Some?
    requires !Admitted(db, AdmissionToken(op).value.s, AdmissionToken(op).value.owner, AdmissionToken(op).value.epoch, at.now)
    ensures WritesNothing(db, op, at)
  {
    hide Admitted, CreateOrResolve, Acquire, ClaimWork, Renew, SetPhase, Recover, RecordVerified;
    hide Register, Prepare, MarkInProgress, MarkVerified, MarkFailed, Restart, Finalize;
    hide PutSession, PutAdmission, PutParts, PutBlob, Commit, StoredReceipt, CheckObservations, ObserveAll;
    hide ReconcileAll, Resolved;
  }

  lemma DeadCompletionWritesNothing(db: Db, op: Op, at: Instants)
    requires ValidInstants(db, at) && CompletionToken(op).Some?
    requires !Claimed(db, CompletionToken(op).value.s, CompletionToken(op).value.owner, CompletionToken(op).value.epoch, at.now)
    ensures WritesNothing(db, op, at)
  {
    hide Claimed, CreateOrResolve, Acquire, Release, BeginInitiation, RecordProvider, RecordPart, Reconcile;
    hide MarkAmbiguous, Accept, ClaimWork;
    hide Register, Prepare, MarkInProgress, MarkVerified, MarkFailed, Restart, Finalize;
    hide PutSession, PutCompletion, PutParts, PutBlob, Commit, CheckObservations, CheckEvidence, Invalidate, Requeue;
    hide ObserveAll, RecheckAll;
  }

  /** Fencing: once a token is superseded or expired, no transaction that
      presents it writes anything, after any further run. */
  lemma FencedForever(db: Db, run: seq<Event>, op: Op, at: Instants)
    requires Inv(db) && ValidRun(db, run) && HoldsDeadToken(db, op) && ValidInstants(After(db, run), at)
    ensures WritesNothing(After(db, run), op, at)
  {
    hide Inv, Advances, After, ValidRun, WritesNothing, Step;
    RunSound(db, run);
    var later := After(db, run);
    if AdmissionToken(op).Some? {
      var token := AdmissionToken(op).value;
      DeadStaysDead(db, later, token.s, token.owner, token.epoch, at.now);
      DeadAdmissionWritesNothing(later, op, at);
    } else {
      var token := CompletionToken(op).value;
      DeadStaysDead(db, later, token.s, token.owner, token.epoch, at.now);
      DeadCompletionWritesNothing(later, op, at);
    }
  }

  // ------------------------------------------------------------------- replays

  /** The idempotency key a transaction binds. */
  function KeyOf(op: Op): Option<Key> {
    match op
    case CreateOrResolveOp(request, _, _, _) => Some(Key(ResolveScope, request))
    case AcquireOp(request, _, _, _, _) => Some(Key(AcquireScope, request))
    case AcceptOp(_, _, _, request) => Some(Key(AcceptScope, request))
    case RegisterOp(_, _, request, _) => Some(Key(RegisterScope, request))
    case PrepareOp(_, _, request, _) => Some(Key(PrepareScope, request))
    case RestartOp(_, _, request, _) => Some(Key(PrepareScope, request))
    case _ => None
  }

  /** A request whose key is bound writes nothing, whatever its payload. */
  lemma BoundKeyWritesNothing(db: Db, op: Op, at: Instants)
    requires KeyOf(op).Some? && KeyOf(op).value in db.idempotency
    ensures WritesNothing(db, op, at)
  {
    hide Release, BeginInitiation, RecordProvider, RecordPart, Reconcile, MarkAmbiguous, ClaimWork, Renew, SetPhase;
    hide Recover, RecordVerified;
    hide MarkInProgress, MarkVerified, MarkFailed, Finalize, GrantAdmission, LoadContext, ActiveSession, ReferencedBlob;
    hide StartedSession, LatestSession;
    hide PutSession, PutAdmission, PutVersion, PutBlob, InsertSession, InsertParts, InsertVersion, InsertEntries;
    hide Commit;
  }

  /** A bound key is never rebound: after any run the same request answers from
      the same record and writes nothing. */
  lemma ReplayedForever(db: Db, run: seq<Event>, op: Op, at: Instants)
    requires Inv(db) && ValidRun(db, run) && KeyOf(op).Some? && KeyOf(op).value in db.idempotency
    ensures var later := After(db, run);
      && KeyOf(op).value in later.idempotency && later.idempotency[KeyOf(op).value] == db.idempotency[KeyOf(op).value]
      && WritesNothing(later, op, at)
  {
    hide Inv, SessionsAdvance, LeasesAdvance, ContentAdvances, After, ValidRun, WritesNothing, Step;
    RunSound(db, run);
    BoundKeyWritesNothing(After(db, run), op, at);
  }

  /** A repeated acquisition returns the very lease of the first answer, after
      any run, even when that lease has long been superseded. */
  lemma AcquireAnswersAlike(db: Db, request: Id, invocation: Id, s: Id, ttl: int, capacity: int, at: Instants,
                            run: seq<Event>, again: Instants)
    requires Inv(db) && ValidInstants(db, at) && Acquire(db, request, invocation, s, ttl, capacity, at).Ok?
    requires ValidRun(Acquire(db, request, invocation, s, ttl, capacity, at).value.db, run)
    ensures var first := Acquire(db, request, invocation, s, ttl, capacity, at).value;
      var later := After(first.db, run);
      Acquire(later, request, invocation, s, ttl, capacity, again) == Ok(Done(later.(clock := again.commit), first.value))
  {
    hide Inv, Advances, After, ValidRun, Step, GrantAdmission, PutAdmission;
    var op := AcquireOp(request, invocation, s, ttl, capacity);
    var first := Acquire(db, request, invocation, s, ttl, capacity, at).value;
    AcquireBinds(db, request, invocation, s, ttl, capacity, at);
    AcquiredIsSound(db, request, invocation, s, ttl, capacity, at);
    ReplayedForever(first.db, run, op, again);
  }

  lemma AcquiredIsSound(db: Db, request: Id, invocation: Id, s: Id, ttl: int, capacity: int, at: Instants)
    requires Inv(db) && ValidInstants(db, at) && Acquire(db, request, invocation, s, ttl, capacity, at).Ok?
    ensures Inv(Acquire(db, request, invocation, s, ttl, capacity, at).value.db)
  {
    hide Inv, Advances, Acquire;
    L.AcquireSafe(db, request, invocation, s, ttl, capacity, at);
  }

  lemma AcquireBinds(db: Db, request: Id, invocation: Id, s: Id, ttl: int, capacity: int, at: Instants)
    requires Acquire(db, request, invocation, s, ttl, capacity, at).Ok?
    ensures var first, key := Acquire(db, request, invocation, s, ttl, capacity, at).value, Key(AcquireScope, request);
      && ttl > 0 && capacity > 0 && key in first.db.idempotency
      && first.db.idempotency[key].request == AcquireRequest(s, invocation) && first.db.idempotency[key].lease == Some(first.value)
  {
    hide GrantAdmission, PutAdmission;
    if Key(AcquireScope, request) !in db.idempotency {
      var lease := GrantAdmission(db, s, invocation, ttl, capacity, at).value;
      AdmissionOnly(db.(nextId := db.nextId + 1), s, lease, at);
    }
  }

  lemma AdmissionOnly(db: Db, s: Id, lease: AdmissionLease, at: Instants)
    requires PutAdmission(db, s, lease, at).Ok?
    ensures PutAdmission(db, s, lease, at).value.idempotency == db.idempotency
  {
  }
}
