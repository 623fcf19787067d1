/**
 Exactly when the controller and the grant authority accept what they are asked for, in a
 sound store, and what they then put on record.
 */
module ControllerPermits {
  import opened Schema
  import opened ControllerModel
  import opened ControllerInvariants

  // ------------------------------------------------------------------- enrolment

  /** A registration is accepted exactly when the service is qualified and seen to run the
      baseline, and neither authority has the instance. */
  lemma RegisterExactly(db: Db, id: InstanceId, registration: Registration, baseline: Spec, seen: Runtime,
                        qualified: bool, sound: bool, elsewhere: bool)
    requires Sound(db) && (id in db.registrations ==> id in db.instances)
    ensures var tx := RegisterTx(db, id, registration, baseline, seen, qualified, sound, elsewhere);
            && (tx.Done? <==> qualified && sound && seen.spec == Digest(baseline) && id !in db.instances && !elsewhere)
            && (tx.Done? ==>
                  && tx.docs.registrations == db.registrations[id := registration]
                  && tx.docs.specs == db.specs[Digest(baseline) := baseline]
                  && tx.docs.instances == db.instances[id := Instance(0, 0, Digest(baseline), seen, None, Ready)])
  {
    hide TicketsOk, GrantsOk, Consumed, OneShot, FromPlans, Coupled, PlansOk, Enrolled;
  }

  // ----------------------------------------------------------------------- plans

  /** The plan that is made of an instance as it is. */
  ghost function PlanOf(id: InstanceId, i: Instance, action: Action, candidate: Spec, budget: Budget, now: real): Plan {
    Plan(id, action, i.generation, i.fence, i.observation.identity, i.spec, Digest(candidate),
         now, now + budget.ttl as real, budget.verify, budget.recovery)
  }

  /** The service is at rest and runs exactly as recorded; the candidate changes nothing but
      what a deployment may change, and fits the action. */
  ghost predicate Plannable(db: Db, id: InstanceId, action: Action, candidate: Spec, seen: Runtime, sound: bool) {
    && id in db.instances && id in db.registrations && action in db.registrations[id].actions
    && var i := db.instances[id];
       && i.operation.None? && seen == i.observation && sound
       && candidate.shape == i.spec.content.shape
       && (action == Disable ==> candidate.mods == [] && candidate.attestor.None?)
       && (action == Rollback ==> (id, Digest(candidate)) in db.retained)
  }

  lemma PlanExactly(db: Db, id: InstanceId, action: Action, candidate: Spec, seen: Runtime, budget: Budget,
                    now: real, qualified: bool, sound: bool)
    requires Sound(db)
    ensures var tx := PlanTx(db, id, action, candidate, seen, budget, now, qualified, sound);
            && (tx.Done? <==> ValidBudget(budget) && qualified && Plannable(db, id, action, candidate, seen, sound))
            && (tx.Done? ==>
                  var plan := PlanOf(id, db.instances[id], action, candidate, budget, now);
                  && tx.value == Sealed(plan) && tx.docs.plans == db.plans[Sealed(plan) := plan]
                  && tx.docs.specs == db.specs[Digest(candidate) := candidate])
  {
    hide Sound;
    if id in db.instances {
      RowKnown(db, id);
      NothingClashes(db, candidate, PlanOf(id, db.instances[id], action, candidate, budget, now));
    }
  }

  /** A row is at rest exactly when it is ready, and its record and specification are kept. */
  lemma RowKnown(db: Db, id: InstanceId)
    requires Sound(db) && id in db.instances
    ensures var i := db.instances[id];
            && (i.status == Ready <==> i.operation.None?) && i.observation.spec == i.spec
            && i.spec in db.specs && db.specs[i.spec] == i.spec.content && id in db.registrations
  {
    assert InstanceOk(db.operations, id, db.instances[id]);
  }

  /** Immutable rows are filed under their own digests. */
  lemma NothingClashes(db: Db, candidate: Spec, plan: Plan)
    requires Sound(db)
    ensures Digest(candidate) in db.specs ==> db.specs[Digest(candidate)] == candidate
    ensures Sealed(plan) in db.plans ==> db.plans[Sealed(plan)] == plan
  {}

  /** A plan can be approved while it is fresh and its instance has not moved. */
  ghost predicate Approvable(db: Db, p: PlanId, now: real) {
    && p in db.plans && p !in db.cancelled && now < p.plan.expires
    && p.plan.instance in db.instances
    && var i := db.instances[p.plan.instance];
       i.operation.None? && i.generation == p.plan.generation && i.fence == p.plan.fence
  }

  lemma ApproveExactly(db: Db, p: PlanId, nonce: Nonce, now: real)
    requires Sound(db) && nonce !in db.approvals
    ensures var tx := ApproveTx(db, p, nonce, now);
            && (tx.Done? <==> Approvable(db, p, now))
            && (tx.Done? ==>
                  tx.docs.approvals == db.approvals[nonce := Approval(p, p.plan.action, p.plan.generation, p.plan.expires, false)])
  {
    hide TicketsOk, GrantsOk, Consumed, OneShot, FromPlans, Coupled, PlanOk;
  }

  /** A plan can be cancelled as long as it has not been begun; once more does nothing. */
  lemma CancelExactly(db: Db, p: PlanId)
    requires Sound(db)
    ensures var tx := CancelTx(db, p);
            && (tx.Done? <==> p in db.plans && !Used(db.operations, p))
            && (tx.Done? ==> tx.docs.cancelled == db.cancelled + {p})
  {
    hide TicketsOk, GrantsOk, Consumed, FromPlans, Coupled, PlanOk;
  }

  // ----------------------------------------------------------------------- begin

  /** The approval is one of this very plan, unused and fresh. */
  ghost predicate Entitles(db: Db, nonce: Nonce, p: PlanId, now: real) {
    && nonce in db.approvals
    && var a := db.approvals[nonce];
       a.plan == p && a.action == p.plan.action && a.generation == p.plan.generation && !a.consumed && now < a.expires
  }

  /** The instance and its service are still what the plan was made for. */
  ghost predicate StillAsPlanned(db: Db, p: PlanId, seen: Runtime, sound: bool) {
    && p.plan.instance in db.instances
    && var i := db.instances[p.plan.instance];
       && i.operation.None? && i.generation == p.plan.generation && i.fence == p.plan.fence && i.spec == p.plan.baseline
       && seen == Runtime(p.plan.baseline, p.plan.identity) && sound
  }

  ghost predicate Beginnable(db: Db, p: PlanId, nonce: Nonce, expected: Option<Action>, seen: Runtime, sound: bool, now: real) {
    && p in db.plans && p !in db.cancelled && (expected.Some? ==> expected.value == p.plan.action)
    && p.plan.instance in db.registrations && p.plan.action in db.registrations[p.plan.instance].actions
    && Entitles(db, nonce, p, now) && StillAsPlanned(db, p, seen, sound)
  }

  /** The operation under a new fence: both deadlines run from now, each by its own budget of
      the plan. */
  ghost function Reservation(fence: nat, p: PlanId, o: OpId, executor: Executor, now: real): (op: Operation)
    ensures op.deadline - now == p.plan.verify as real && op.recoveryDeadline - now == p.plan.recovery as real
  {
    Operation(o, p, p.plan.instance, fence, Reserved, p.plan.baseline, p.plan.candidate,
              now + p.plan.verify as real, now + p.plan.recovery as real, executor)
  }

  /** What a reservation writes. */
  ghost predicate Reserves(db: Db, db': Db, p: PlanId, nonce: Nonce, o: OpId, executor: Executor, now: real, op: Operation) {
    && p.plan.instance in db.instances && nonce in db.approvals
    && op == Reservation(db.instances[p.plan.instance].fence + 1, p, o, executor, now)
    && db'.operations == db.operations[o := op]
    && db'.instances == db.instances[p.plan.instance :=
         db.instances[p.plan.instance].(fence := op.fence, operation := Some(o), status := Changing)]
    && db'.approvals == db.approvals[nonce := db.approvals[nonce].(consumed := true)]
    && db'.retained == db.retained + {(p.plan.instance, p.plan.baseline)}
  }

  lemma BeginExactly(db: Db, p: PlanId, nonce: Nonce, expected: Option<Action>, seen: Runtime, sound: bool,
                     o: OpId, executor: Executor, now: real)
    requires Sound(db)
    ensures var tx := BeginTx(db, p, nonce, expected, seen, sound, o, executor, now);
            && (tx.Done? <==> Beginnable(db, p, nonce, expected, seen, sound, now))
            && (tx.Done? ==> Reserves(db, tx.docs, p, nonce, o, executor, now, tx.value))
  {
    hide TicketsOk, GrantsOk, Consumed, OneShot, FromPlans, PlanOk, OperationOk, Enrolled, SpecsOk;
    if p in db.plans && p.plan.instance in db.instances {
      assert InstanceOk(db.operations, p.plan.instance, db.instances[p.plan.instance]);
    }
  }

  // -------------------------------------------------------------------- recovery

  /** An operation that is not over, and is still its instance's own. */
  ghost predicate Unfinished(db: Db, o: OpId) {
    o in db.operations && !Terminal(db.operations[o].phase)
  }

  lemma UnfinishedIsCurrent(db: Db, o: OpId)
    requires Sound(db) && Unfinished(db, o)
    ensures var op := db.operations[o];
            && op.instance in db.instances && op.instance in db.registrations
            && db.instances[op.instance].operation == Some(o) && db.instances[op.instance].fence == op.fence
            && db.instances[op.instance].generation == op.plan.plan.generation
  {
    hide TicketsOk, GrantsOk, Consumed, OneShot, FromPlans, PlanOk, SpecsOk;
    var op := db.operations[o];
    assert OperationOk(db.instances, op) && op.id == o;
    assert InstanceOk(db.operations, op.instance, db.instances[op.instance]);
  }

  lemma ApproveRecoveryExactly(db: Db, o: OpId, nonce: Nonce, ttl: nat, now: real)
    requires Sound(db) && nonce !in db.tickets
    ensures var tx := ApproveRecoveryTx(db, o, nonce, ttl, now);
            && (tx.Done? <==> 1 <= ttl <= 600 && Unfinished(db, o) && now < db.operations[o].recoveryDeadline)
            && (tx.Done? ==>
                  && nonce in tx.docs.tickets && tx.docs.tickets == db.tickets[nonce := tx.docs.tickets[nonce]]
                  && var op, t := db.operations[o], tx.docs.tickets[nonce];
                     && t.op == o && t.instance == op.instance && t.fence == op.fence && !t.consumed
                     && t.generation == op.plan.plan.generation
                     && now < t.expires <= now + ttl as real && t.expires <= op.recoveryDeadline)
  {
    hide Sound;
    if Unfinished(db, o) { UnfinishedIsCurrent(db, o); }
  }

  /** An approval of this operation under the fence it still has, unused and fresh, the old
      executor fenced off. */
  ghost predicate Recoverable(db: Db, o: OpId, nonce: Nonce, quiescent: bool, now: real) {
    && Unfinished(db, o) && quiescent && now < db.operations[o].recoveryDeadline && nonce in db.tickets
    && var op, t := db.operations[o], db.tickets[nonce];
       && t.op == o && t.instance == op.instance && t.fence == op.fence && t.generation == op.plan.plan.generation
       && !t.consumed && now < t.expires
  }

  lemma RecoverExactly(db: Db, o: OpId, nonce: Nonce, executor: Executor, quiescent: bool, now: real)
    requires Sound(db)
    ensures var tx := RecoverTx(db, o, nonce, executor, quiescent, now);
            && (tx.Done? <==> Recoverable(db, o, nonce, quiescent, now))
            && (tx.Done? ==>
                  var op := db.operations[o];
                  && tx.value == Token(o, op.fence + 1, executor)
                  && tx.docs.operations == db.operations[o := op.(fence := op.fence + 1, executor := executor, phase := Recovering)]
                  && op.instance in db.instances
                  && tx.docs.instances == db.instances[op.instance := db.instances[op.instance].(fence := op.fence + 1)]
                  && nonce in db.tickets && tx.docs.tickets == db.tickets[nonce := db.tickets[nonce].(consumed := true)])
  {
    hide Sound;
    if o in db.operations { KeyIsId(db, o); }
    if Unfinished(db, o) { UnfinishedIsCurrent(db, o); }
  }

  lemma KeyIsId(db: Db, o: OpId)
    requires Sound(db) && o in db.operations
    ensures db.operations[o].id == o
  {}

  // ----------------------------------------------------------------- launch grants

  /** The token is the one the operation and its instance are held by. */
  ghost predicate HeldBy(db: Db, t: Token) {
    && t.id in db.operations
    && var op := db.operations[t.id];
       && op.fence == t.fence && op.executor == t.executor && op.instance in db.instances
       && db.instances[op.instance].fence == t.fence && db.instances[op.instance].operation == Some(t.id)
  }

  lemma MintExactly(db: Db, t: Token, nonce: Nonce, command: string, owner: Uid, ttl: nat, now: real)
    requires Sound(db) && nonce !in db.grants
    ensures var tx := MintTx(db, t, nonce, command, owner, ttl, now);
            && (tx.Done? <==>
                  1 <= ttl <= 300 && HeldBy(db, t) && db.operations[t.id].instance in db.registrations
                  && owner in db.registrations[db.operations[t.id].instance].owners)
            && (tx.Done? ==>
                  var op := db.operations[t.id];
                  && op.instance in db.instances
                  && tx.docs.grants == db.grants[nonce :=
                       Grant(op.instance, t.id, t.fence, t.executor, db.instances[op.instance].generation + 1, op.candidate,
                             command, owner, now + ttl as real, false)])
  {
    hide Sound;
  }

  /** The grant is this peer's, for this command, unused and fresh, and its operation is still
      held as it was when it was issued. */
  ghost predicate Claimable(db: Db, nonce: Nonce, peer: Peer, command: string, now: real) {
    && nonce in db.grants
    && var g := db.grants[nonce];
       && !g.consumed && now < g.expires && g.owner == peer.uid && g.command == command
       && HeldBy(db, Token(g.op, g.fence, g.executor))
  }

  /** The lease a grant gives its peer. */
  ghost function LeaseOf(g: Grant, peer: Peer): Lease {
    Lease(g.instance, g.op, g.fence, g.executor, g.targetGeneration, g.targetSpec, g.command, peer, false)
  }

  lemma ClaimExactly(db: Db, nonce: Nonce, peer: Peer, command: string, id: LeaseId, now: real)
    requires Sound(db) && id !in db.leases
    ensures var tx := ClaimTx(db, nonce, peer, command, id, now);
            && (tx.Done? <==> Claimable(db, nonce, peer, command, now))
            && (tx.Done? ==>
                  && tx.docs.grants == db.grants[nonce := db.grants[nonce].(consumed := true)]
                  && tx.docs.leases == db.leases[id := LeaseOf(db.grants[nonce], peer)])
  {
    hide SpecsOk, PlansOk, Enrolled, FromPlans, Coupled, OneShot, TicketsOk;
    if nonce in db.grants { assert GrantOk(db.operations, db.grants[nonce]); }
  }

  /** A guard opens exactly for the lease's own peer while it is not retired and passes. */
  lemma GuardExactly(db: Db, id: LeaseId, peer: Peer)
    ensures var tx := GuardTx(db, id, peer);
            && (tx.Done? <==> id in db.leases && db.leases[id].peer == peer && !db.leases[id].retired && Passes(db, db.leases[id]))
            && (tx.Done? ==> tx.docs == db && tx.value == db.leases[id])
    ensures var tx := RetireTx(db, id, peer);
            && (tx.Done? <==> GuardTx(db, id, peer).Done?)
            && (tx.Done? ==> id in db.leases && tx.docs == db.(leases := db.leases[id := db.leases[id].(retired := true)]))
  {}
}
