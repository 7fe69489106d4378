/** With a fixed capacity in every call, the unexpired leases of each kind never
    outnumber it, at any instant of any run. */
module Capacity {
  import opened Base
  import opened Flush
  import opened Guards
  import opened Multipart
  import opened Registry
  import opened Rows
  import opened Runs

  // --------------------------------------------------------------- set counting

  lemma SubsetIsSmaller(smaller: set<Id>, larger: set<Id>)
    requires smaller <= larger
    ensures |smaller| <= |larger|
  {
    assert |larger| == |smaller| + |larger - smaller| by {
      assert larger == smaller + (larger - smaller);
    }
  }

  /** Time alone only ends leases. */
  lemma FewerLater(db: Db, t: int, later: int)
    requires t <= later
    ensures |LiveAdmissions(db, later)| <= |LiveAdmissions(db, t)|
    ensures |LiveCompletions(db, later)| <= |LiveCompletions(db, t)|
  {
    SubsetIsSmaller(LiveAdmissions(db, later), LiveAdmissions(db, t));
    SubsetIsSmaller(LiveCompletions(db, later), LiveCompletions(db, t));
  }

  // ------------------------------------------------- who writes which lease table

  predicate WritesAdmission(op: Op) {
    op.AcquireOp? || op.ReleaseOp? || op.MarkAmbiguousOp? || op.AcceptOp?
  }

  predicate WritesCompletion(op: Op) {
    op.ClaimWorkOp? || op.RenewOp? || op.RecoverOp? || op.RecordVerifiedOp?
  }

  lemma LeaseTablesKept(db: Db, op: Op, at: Instants)
    requires Outcome(db, op, at).Ok?
    ensures Outcome(db, op, at).value.clock == at.commit
    ensures !WritesAdmission(op) ==> Outcome(db, op, at).value.admission == db.admission
    ensures !WritesCompletion(op) ==> Outcome(db, op, at).value.completion == db.completion
  {
    hide CreateOrResolve, Acquire, Release, BeginInitiation, RecordProvider, RecordPart, Reconcile, MarkAmbiguous;
    hide Accept, ClaimWork, Renew, SetPhase, Recover, RecordVerified;
    hide Register, Prepare, MarkInProgress, MarkVerified, MarkFailed, Restart, Finalize;
  }

  // ------------------------------------------------------------ admission leases

  lemma ReleasedEnds(db: Db, after: Db, s: Id, at: Instants)
    requires s in db.admission && at.now <= at.flush <= at.commit
    requires after.admission == db.admission[s := ReleasedAdmission(db.admission[s], at.flush)]
    ensures LiveAdmissions(after, at.commit) <= LiveAdmissions(db, at.now)
  {
  }

  lemma ReleasesEnd(db: Db, op: Op, at: Instants)
    requires ValidInstants(db, at) && WritesAdmission(op) && !op.AcquireOp? && Outcome(db, op, at).Ok?
    ensures LiveAdmissions(Outcome(db, op, at).value, at.commit) <= LiveAdmissions(db, at.now)
  {
    hide PutSession, Commit, LiveAdmissions, AllVerified, Accepted, Release, MarkAmbiguous, AdmissionUpdateAllowed;
    hide AdmissionChecks;
    match op
    case ReleaseOp(s, owner, epoch) => ReleasedEnds(db, Outcome(db, op, at).value, s, at);
    case MarkAmbiguousOp(s, owner, epoch) => ReleasedEnds(db, Outcome(db, op, at).value, s, at);
    case AcceptOp(s, owner, epoch, request) =>
      if Key(AcceptScope, request) in db.idempotency {
        LiveLater(db, at);
      } else {
        ReleasedEnds(db, Outcome(db, op, at).value, s, at);
      }
  }

  lemma LiveLater(db: Db, at: Instants)
    requires at.now <= at.commit
    ensures LiveAdmissions(db.(clock := at.commit), at.commit) <= LiveAdmissions(db, at.now)
  {
  }

  /** A grant takes a free place; an extension keeps its own. */
  lemma GrantFits(db: Db, s: Id, lease: AdmissionLease, after: Db, invocation: Id, ttl: int, capacity: int, at: Instants)
    requires at.now <= at.commit && GrantAdmission(db, s, invocation, ttl, capacity, at) == Ok(lease)
    requires after.admission == db.admission[s := lease]
    requires |LiveAdmissions(db, at.now)| <= capacity
    ensures |LiveAdmissions(after, at.commit)| <= capacity
  {
    var live, next := LiveAdmissions(db, at.now), LiveAdmissions(after, at.commit);
    if s in live {
      SubsetIsSmaller(next, live);
    } else {
      assert next <= live + {s};
      SubsetIsSmaller(next, live + {s});
    }
  }

  lemma AcquireFits(db: Db, request: Id, invocation: Id, s: Id, ttl: int, capacity: int, at: Instants)
    requires at.now <= at.commit && Acquire(db, request, invocation, s, ttl, capacity, at).Ok?
    requires |LiveAdmissions(db, at.now)| <= capacity
    ensures |LiveAdmissions(Acquire(db, request, invocation, s, ttl, capacity, at).value.db, at.commit)| <= capacity
  {
    hide LiveAdmissions, GrantAdmission, AdmissionUpdateAllowed, AdmissionChecks;
    if Key(AcquireScope, request) in db.idempotency {
      LiveLater(db, at);
      SubsetIsSmaller(LiveAdmissions(db.(clock := at.commit), at.commit), LiveAdmissions(db, at.now));
    } else {
      var lease := GrantAdmission(db, s, invocation, ttl, capacity, at).value;
      GrantFits(db, s, lease, Acquire(db, request, invocation, s, ttl, capacity, at).value.db, invocation, ttl, capacity, at);
    }
  }

  // ----------------------------------------------------------- completion leases

  lemma ClosedEnds(db: Db, after: Db, s: Id, at: Instants)
    requires s in db.completion && at.now <= at.commit
    requires after.completion == db.completion || after.completion == db.completion[s := ReleasedCompletion(db.completion[s], at.now)]
    ensures LiveCompletions(after, at.commit) <= LiveCompletions(db, at.now)
  {
  }

  lemma RenewEnds(db: Db, s: Id, owner: Id, epoch: int, ttl: int, at: Instants)
    requires at.now <= at.commit && Renew(db, s, owner, epoch, ttl, at).Ok?
    ensures LiveCompletions(Renew(db, s, owner, epoch, ttl, at).value.db, at.commit) <= LiveCompletions(db, at.now)
  {
    hide CompletionUpdateAllowed;
  }

  lemma ClosingsEnd(db: Db, op: Op, at: Instants)
    requires ValidInstants(db, at) && WritesCompletion(op) && !op.ClaimWorkOp? && Outcome(db, op, at).Ok?
    ensures LiveCompletions(Outcome(db, op, at).value, at.commit) <= LiveCompletions(db, at.now)
  {
    hide Renew, Recover, RecordVerified, LiveCompletions;
    match op
    case RenewOp(s, owner, epoch, ttl) => RenewEnds(db, s, owner, epoch, ttl, at);
    case RecoverOp(s, owner, epoch, recovery) =>
      RecoverHolds(db, s, owner, epoch, recovery, at);
      ClosedEnds(db, Outcome(db, op, at).value, s, at);
    case RecordVerifiedOp(s, owner, epoch, evidence) => ClosedEnds(db, Outcome(db, op, at).value, s, at);
  }

  lemma RecoverHolds(db: Db, s: Id, owner: Id, epoch: int, evidence: RecoveryEvidence, at: Instants)
    requires Recover(db, s, owner, epoch, evidence, at).Ok?
    ensures s in db.completion
  {
    hide PutSession, PutParts, Invalidate, Requeue, Commit, LoadContext, CheckObservations, CheckEvidence, ObserveAll;
    hide RecheckAll;
  }

  /** A new claim takes a free place. */
  lemma ClaimTakesOne(db: Db, after: Db, s: Id, lease: CompletionLease, capacity: int, at: Instants)
    requires at.now <= at.commit && after.completion == db.completion[s := lease]
    requires |LiveCompletions(db, at.now)| < capacity
    ensures |LiveCompletions(after, at.commit)| <= capacity
  {
    var live := LiveCompletions(db, at.now);
    assert LiveCompletions(after, at.commit) <= live + {s};
    SubsetIsSmaller(LiveCompletions(after, at.commit), live + {s});
  }

  lemma ClaimFits(db: Db, owner: Id, ttl: int, capacity: int, at: Instants)
    requires at.now <= at.commit && ClaimWork(db, owner, ttl, capacity, at).Ok?
    requires |LiveCompletions(db, at.now)| <= capacity
    ensures |LiveCompletions(ClaimWork(db, owner, ttl, capacity, at).value.db, at.commit)| <= capacity
  {
    hide NextWork, CompletionUpdateAllowed, CompletionChecks, LiveCompletions;
    var work, after := NextWork(db, at.now, db.nextId), ClaimWork(db, owner, ttl, capacity, at).value.db;
    if |LiveCompletions(db, at.now)| >= capacity || work.None? {
      SameTable(db, after, at.commit);
      FewerLater(db, at.now, at.commit);
    } else {
      var epoch := if work.value in db.completion then db.completion[work.value].epoch + 1 else 1;
      ClaimTakesOne(db, after, work.value, CompletionLease(owner, epoch, at.now, at.now, at.now + ttl), capacity, at);
    }
  }

  // ------------------------------------------------------------------- the bound

  /** Every acquisition is called with one capacity, and every claim with another. */
  predicate CapacityIs(run: seq<Event>, uploads: int, completions: int) {
    forall i :: 0 <= i < |run| ==> OpCapacity(run[i].op, uploads, completions)
  }

  predicate OpCapacity(op: Op, uploads: int, completions: int) {
    (op.AcquireOp? ==> op.capacity == uploads) && (op.ClaimWorkOp? ==> op.capacity == completions)
  }

  ghost predicate Bounded(db: Db, uploads: int, completions: int) {
    |LiveAdmissions(db, db.clock)| <= uploads && |LiveCompletions(db, db.clock)| <= completions
  }

  lemma AdmissionsStayBounded(db: Db, op: Op, at: Instants, uploads: int)
    requires ValidInstants(db, at) && |LiveAdmissions(db, db.clock)| <= uploads && (op.AcquireOp? ==> op.capacity == uploads)
    requires Outcome(db, op, at).Ok?
    ensures var after := Outcome(db, op, at).value; |LiveAdmissions(after, after.clock)| <= uploads
  {
    hide LiveAdmissions, Acquire;
    LeaseTablesKept(db, op, at);
    FewerLater(db, db.clock, at.now);
    var after := Outcome(db, op, at).value;
    if op.AcquireOp? {
      AcquireFits(db, op.request, op.invocation, op.s, op.ttl, op.capacity, at);
    } else if WritesAdmission(op) {
      ReleasesEnd(db, op, at);
      SubsetIsSmaller(LiveAdmissions(after, at.commit), LiveAdmissions(db, at.now));
    } else {
      SameTable(db, after, at.commit);
      FewerLater(db, db.clock, at.commit);
    }
  }

  lemma SameTable(db: Db, after: Db, t: int)
    ensures after.admission == db.admission ==> LiveAdmissions(after, t) == LiveAdmissions(db, t)
    ensures after.completion == db.completion ==> LiveCompletions(after, t) == LiveCompletions(db, t)
  {
  }

  lemma CompletionsStayBounded(db: Db, op: Op, at: Instants, completions: int)
    requires ValidInstants(db, at) && |LiveCompletions(db, db.clock)| <= completions && (op.ClaimWorkOp? ==> op.capacity == completions)
    requires Outcome(db, op, at).Ok?
    ensures var after := Outcome(db, op, at).value; |LiveCompletions(after, after.clock)| <= completions
  {
    hide LiveCompletions, ClaimWork;
    LeaseTablesKept(db, op, at);
    FewerLater(db, db.clock, at.now);
    var after := Outcome(db, op, at).value;
    if op.ClaimWorkOp? {
      ClaimFits(db, op.owner, op.ttl, op.capacity, at);
    } else if WritesCompletion(op) {
      ClosingsEnd(db, op, at);
      SubsetIsSmaller(LiveCompletions(after, at.commit), LiveCompletions(db, at.now));
    } else {
      SameTable(db, after, at.commit);
      FewerLater(db, db.clock, at.commit);
    }
  }

  lemma StepStaysBounded(db: Db, op: Op, at: Instants, uploads: int, completions: int)
    requires ValidInstants(db, at) && Bounded(db, uploads, completions) && OpCapacity(op, uploads, completions)
    ensures Bounded(Step(db, op, at), uploads, completions)
  {
    hide LiveAdmissions, LiveCompletions, Outcome;
    if Outcome(db, op, at).Ok? {
      AdmissionsStayBounded(db, op, at, uploads);
      CompletionsStayBounded(db, op, at, completions);
    } else {
      FewerLater(db, db.clock, at.commit);
      SameTable(db, db.(clock := at.commit), at.commit);
    }
  }

  /** Capacity: along any run with fixed capacities, at every instant from the
      last commit on, live leases of each kind number at most the capacity. */
  lemma {:induction false} CapacityHolds(db: Db, run: seq<Event>, uploads: int, completions: int, t: int)
    requires ValidRun(db, run) && CapacityIs(run, uploads, completions) && Bounded(db, uploads, completions)
    requires After(db, run).clock <= t
    ensures |LiveAdmissions(After(db, run), t)| <= uploads && |LiveCompletions(After(db, run), t)| <= completions
  {
    hide Step, LiveAdmissions, LiveCompletions;
    if |run| > 0 {
      var before, last := After(db, run[..|run| - 1]), run[|run| - 1];
      CapacityHolds(db, run[..|run| - 1], uploads, completions, before.clock);
      StepStaysBounded(before, last.op, last.at, uploads, completions);
    }
    FewerLater(After(db, run), After(db, run).clock, t);
  }

  // ------------------------------------------------------------- outside the bound

  /** Renewal takes neither the session row nor the advisory lock. A claim that
      read the tables before an overlapping renewal commits, after the old lease
      ran out, counts the place as free, and both leases stand. */
  lemma OverlapOvershoots(db: Db, s: Id, owner: Id, epoch: int, ttl: int, renewing: Instants,
                          claimer: Id, claimTtl: int, claiming: Instants)
    requires db.completion.Keys == {s}
    requires Renew(db, s, owner, epoch, ttl, renewing).Ok? && renewing.flush + ttl > claiming.now
    requires ClaimWork(db, claimer, claimTtl, 1, claiming).Ok?
    requires var claim := ClaimWork(db, claimer, claimTtl, 1, claiming).value.value; claim.Some? && claim.value.sessionId != s
    ensures var renewed, claim := Renew(db, s, owner, epoch, ttl, renewing).value.value, ClaimWork(db, claimer, claimTtl, 1, claiming).value.value.value;
      var both := db.(completion := db.completion[s := renewed][claim.sessionId := claim.lease]);
      |LiveCompletions(both, claiming.now)| == 2
  {
    hide NextWork, CompletionUpdateAllowed, CompletionChecks;
    var renewed, claim := Renew(db, s, owner, epoch, ttl, renewing).value.value, ClaimWork(db, claimer, claimTtl, 1, claiming).value.value.value;
    var both := db.(completion := db.completion[s := renewed][claim.sessionId := claim.lease]);
    assert LiveCompletions(both, claiming.now) == {s, claim.sessionId};
  }
}
