/**
 Where things come from, over whole runs: every lease from a grant of its own peer for its
 own command, every deadline from the budgets of its plan.
 */
module ControllerProvenance {
  import opened Schema
  import opened ControllerModel
  import opened ControllerMachine
  import opened ControllerInvariants
  import opened ControllerFrames
  import opened ControllerSafety
  import opened ControllerFences
  import opened ControllerLeases
  import opened ControllerPermits

  // ---------------------------------------------------------------------- leases

  /** The lease is what this spent grant gave to its own peer. */
  ghost predicate GrantedBy(g: Grant, l: Lease) {
    g.consumed && g.owner == l.peer.uid && l.(retired := false) == LeaseOf(g, l.peer)
  }

  ghost predicate Granted(grants: map<Nonce, Grant>, l: Lease) { exists n | n in grants :: GrantedBy(grants[n], l) }

  ghost predicate AllGranted(db: Db) { forall id | id in db.leases :: Granted(db.grants, db.leases[id]) }

  /** Spent grants stay as they are. */
  ghost predicate SpentStay(grants: map<Nonce, Grant>, grants': map<Nonce, Grant>) {
    forall n | n in grants && grants[n].consumed :: n in grants' && grants'[n] == grants[n]
  }

  lemma GrantedStays(grants: map<Nonce, Grant>, grants': map<Nonce, Grant>, l: Lease)
    requires Granted(grants, l) && SpentStay(grants, grants')
    ensures Granted(grants', l)
  {
    var n :| n in grants && GrantedBy(grants[n], l);
    assert GrantedBy(grants'[n], l);
  }

  lemma RetiredIsGranted(grants: map<Nonce, Grant>, l: Lease)
    requires Granted(grants, l)
    ensures Granted(grants, l.(retired := true))
  {
    var n :| n in grants && GrantedBy(grants[n], l);
    assert GrantedBy(grants[n], l.(retired := true));
  }

  lemma MintGrants(db: Db, t: Token, nonce: Nonce, command: string, owner: Uid, ttl: nat, now: real)
    requires AllGranted(db) && nonce !in db.grants
    ensures AllGranted(After(MintTx(db, t, nonce, command, owner, ttl, now), db))
  {
    hide Granted;
    var db' := After(MintTx(db, t, nonce, command, owner, ttl, now), db);
    forall id | id in db'.leases
      ensures Granted(db'.grants, db'.leases[id])
    {
      GrantedStays(db.grants, db'.grants, db.leases[id]);
    }
  }

  lemma ClaimGrants(db: Db, nonce: Nonce, peer: Peer, command: string, id: LeaseId, now: real)
    requires Sound(db) && AllGranted(db) && id !in db.leases
    ensures AllGranted(After(ClaimTx(db, nonce, peer, command, id, now), db))
  {
    hide ClaimTx, Sound, Granted;
    ClaimExactly(db, nonce, peer, command, id, now);
    var tx := ClaimTx(db, nonce, peer, command, id, now);
    if tx.Done? {
      forall j | j in tx.docs.leases
        ensures Granted(tx.docs.grants, tx.docs.leases[j])
      {
        if j == id { NewlyGranted(tx.docs.grants, nonce, tx.docs.leases[id]); }
        else { GrantedStays(db.grants, tx.docs.grants, db.leases[j]); }
      }
    }
  }

  lemma NewlyGranted(grants: map<Nonce, Grant>, nonce: Nonce, l: Lease)
    requires nonce in grants && GrantedBy(grants[nonce], l)
    ensures Granted(grants, l)
  {}

  lemma RetireGrants(db: Db, id: LeaseId, peer: Peer)
    requires AllGranted(db)
    ensures AllGranted(After(RetireTx(db, id, peer), db))
  {
    hide Granted;
    var db' := After(RetireTx(db, id, peer), db);
    forall j | j in db'.leases
      ensures Granted(db'.grants, db'.leases[j])
    {
      if db'.leases[j] != db.leases[j] { RetiredIsGranted(db.grants, db.leases[j]); }
    }
  }

  lemma StepKeepsGranted(w: World, l: Label)
    requires Safe(w) && AllGranted(w.db)
    ensures AllGranted(Step(w, l).db)
  {
    hide Sound, Granted, ProcessStep, RegisterStep, PlanStep, BeginStep, MintTx, ClaimTx, RetireTx, ApproveStep, CancelStep,
      ApproveRecoveryStep, RecoverStep;
    if l.Mint? { if l.nonce !in w.db.grants { MintGrants(w.db, l.token, l.nonce, l.command, l.owner, l.ttl, w.now); } }
    else if l.Claim? { if l.lease !in w.db.leases { ClaimGrants(w.db, l.nonce, l.peer, l.command, l.lease, w.now); } }
    else if l.Retire? { RetireGrants(w.db, l.lease, l.peer); }
    else if l.ByProcess? { ProcessLeavesGrants(w, l.pid, l.answers); }
    else if l.Register? || l.MakePlan? || l.Begin? { HeavyDeskLeavesGrants(w, l); }
    else { LightDeskLeavesGrants(w, l); }
  }

  lemma {:induction false} RunKeepsGranted(w: World, labels: seq<Label>)
    requires Safe(w) && AllGranted(w.db)
    ensures AllGranted(Run(w, labels).db)
    decreases |labels|
  {
    hide Safe, Granted, Step;
    if labels != [] {
      var before := labels[..|labels| - 1];
      RunKeepsGranted(w, before);
      RunKeepsSafe(w, before);
      StepKeepsGranted(Run(w, before), labels[|labels| - 1]);
    }
  }

  /** Over every run: a lease, retired or not, was claimed with a grant, now spent, that was
      issued to the lease's own user for exactly its command, operation, fence and executor. */
  lemma EveryLeaseWasGranted(w: World, labels: seq<Label>, id: LeaseId)
    requires Initial(w) && id in Run(w, labels).db.leases
    ensures var db := Run(w, labels).db; Granted(db.grants, db.leases[id])
  {
    hide Run, Granted;
    InitialSafe(w);
    RunKeepsGranted(w, labels);
  }

  // ------------------------------------------------------------------- deadlines

  ghost predicate Budgeted(p: Plan) {
    1 <= p.verify <= 600 && p.verify <= p.recovery <= 3600 && p.created < p.expires <= p.created + 600.0
  }

  /** Both deadlines count from one moment, each by its own budget of the plan. */
  ghost predicate InBudget(op: Operation) {
    op.deadline - op.plan.plan.verify as real == op.recoveryDeadline - op.plan.plan.recovery as real
  }

  ghost predicate Timed(db: Db) {
    && (forall p | p in db.plans :: Budgeted(p.plan))
    && (forall o | o in db.operations :: InBudget(db.operations[o]))
  }

  lemma AgingKeepsTimed(db: Db, db': Db)
    requires Timed(db) && OperationsAge(db.operations, db'.operations) && db'.plans == db.plans
    requires forall o | o in db'.operations :: o in db.operations
    ensures Timed(db')
  {
    forall o | o in db'.operations
      ensures InBudget(db'.operations[o])
    {
      assert Ages(db.operations[o], db'.operations[o]);
    }
  }

  lemma PlanKeepsTimed(w: World, l: Label)
    requires Safe(w) && Timed(w.db) && l.MakePlan?
    ensures Timed(PlanStep(w, l).db)
  {
    hide PlanTx, Sound, Plannable;
    var tx := PlanTx(w.db, l.id, l.action, l.candidate, l.seen, l.budget, w.now, l.qualified, l.sound);
    PlanExactly(w.db, l.id, l.action, l.candidate, l.seen, l.budget, w.now, l.qualified, l.sound);
    PlanFrame(w, l);
    PlanLeavesOperations(w.db, l.id, l.action, l.candidate, l.seen, l.budget, w.now, l.qualified, l.sound);
  }

  lemma PlanLeavesOperations(db: Db, id: InstanceId, action: Action, candidate: Spec, seen: Runtime, budget: Budget,
                             now: real, qualified: bool, sound: bool)
    ensures After(PlanTx(db, id, action, candidate, seen, budget, now, qualified, sound), db).operations == db.operations
  {}

  lemma BeginKeepsTimed(w: World, l: Label)
    requires Safe(w) && Timed(w.db) && l.Begin?
    ensures Timed(BeginStep(w, l).db)
  {
    hide BeginTx, Sound, Beginnable;
    BeginFrame(w, l);
    if l.plan in w.db.plans && w.db.plans[l.plan].instance in w.runtimes {
      BeginExactly(w.db, l.plan, l.nonce, l.expected, w.runtimes[w.db.plans[l.plan].instance], l.sound, l.op, l.executor, w.now);
    }
  }

  lemma RecoverAddsNothing(w: World, l: Label)
    requires Safe(w) && l.Recover?
    ensures forall o | o in RecoverStep(w, l).db.operations :: o in w.db.operations
  {
    hide RecoverTx, Sound, Recoverable;
    RecoverExactly(w.db, l.op, l.nonce, l.executor, l.quiescent, w.now);
    if RecoverTx(w.db, l.op, l.nonce, l.executor, l.quiescent, w.now).Done? { RecoveredIsKnown(w.db, l.op, l.nonce, l.quiescent, w.now); }
  }

  lemma RecoveredIsKnown(db: Db, o: OpId, nonce: Nonce, quiescent: bool, now: real)
    requires Recoverable(db, o, nonce, quiescent, now)
    ensures o in db.operations
  {}

  lemma StepKeepsTimed(w: World, l: Label)
    requires Safe(w) && Timed(w.db)
    ensures Timed(Step(w, l).db)
  {
    hide Sound, Timed, PlanStep, BeginStep, RecoverStep, ProcessStep, RegisterStep, ApproveStep, CancelStep,
      ApproveRecoveryStep, MintStep, ClaimStep, RetireStep;
    if l.MakePlan? { PlanKeepsTimed(w, l); }
    else if l.Begin? { BeginKeepsTimed(w, l); }
    else {
      StepLawful(w, l);
      PlansStay(w, l);
      if l.Recover? { RecoverAddsNothing(w, l); } else { StepFences(w, l); }
      AgingKeepsTimed(w.db, Step(w, l).db);
    }
  }

  lemma {:induction false} RunKeepsTimed(w: World, labels: seq<Label>)
    requires Safe(w) && Timed(w.db)
    ensures Timed(Run(w, labels).db)
    decreases |labels|
  {
    hide Safe, Timed, Step;
    if labels != [] {
      var before := labels[..|labels| - 1];
      RunKeepsTimed(w, before);
      RunKeepsSafe(w, before);
      StepKeepsTimed(Run(w, before), labels[|labels| - 1]);
    }
  }

  /** Over every run: an operation may be restored at least as long as it may be verified, and
      the two deadlines lie exactly as far apart as its plan's budgets. */
  lemma DeadlinesFollowThePlan(w: World, labels: seq<Label>, o: OpId)
    requires Initial(w) && o in Run(w, labels).db.operations
    ensures var op := Run(w, labels).db.operations[o];
            && op.recoveryDeadline - op.deadline == op.plan.plan.recovery as real - op.plan.plan.verify as real
            && op.deadline <= op.recoveryDeadline <= op.deadline + 3600.0
  {
    hide Run, Sound;
    InitialSafe(w);
    RunKeepsSafe(w, labels);
    RunKeepsTimed(w, labels);
    PlannedAll(Run(w, labels).db, o);
  }

  lemma PlannedAll(db: Db, o: OpId)
    requires Sound(db) && o in db.operations
    ensures db.operations[o].plan in db.plans
  {}
}
