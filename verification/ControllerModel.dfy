/**
 The documents of the deployment controller and of the launch grant authority, which
 share one store, and the transactions that change them.
 */
module ControllerModel {
  import opened Schema

  type InstanceId = string
  type OpId = nat
  type Executor = nat
  /** The digest of a one-use secret. */
  type Nonce = nat
  type LeaseId = nat
  type Uid = nat

  /** What no deployment may change. */
  datatype Shape = Shape(model: string, resources: string)

  /** A frozen deployment specification; `attestor` is its witness, and `launch` stands for all
      fields not named here. */
  datatype Spec = Spec(shape: Shape, mods: seq<string>, attestor: Option<string>, launch: string)

  type SpecHash = Digest<Spec>

  /** What a backend observes: which specification runs, as which processes. Health,
      freshness and executed components are answers of the environment. */
  datatype Runtime = Runtime(spec: SpecHash, identity: nat)

  datatype Action = Apply | Disable | Rollback

  datatype Registration = Registration(actions: set<Action>, owners: set<Uid>)

  datatype Status = Ready | Changing | RecoveryRequired

  datatype Instance = Instance(
    generation: nat, fence: nat, spec: SpecHash, observation: Runtime, operation: Option<OpId>, status: Status)

  datatype Plan = Plan(
    instance: InstanceId, action: Action, generation: nat, fence: nat, identity: nat,
    baseline: SpecHash, candidate: SpecHash, created: real, expires: real, verify: nat, recovery: nat)

  /** The digest of a plan; as injective as any other. */
  datatype PlanId = Sealed(plan: Plan)

  datatype Approval = Approval(plan: PlanId, action: Action, generation: nat, expires: real, consumed: bool)

  datatype Phase =
    | Reserved | Applying | Verifying | RollingBack | Recovering | RollbackFailed
    | Committed | RolledBack | Unchanged     // "failed": the baseline was never touched

  datatype Operation = Operation(
    id: OpId, plan: PlanId, instance: InstanceId, fence: nat, phase: Phase,
    baseline: SpecHash, candidate: SpecHash, deadline: real, recoveryDeadline: real, executor: Executor)

  /** The part of an operation its executor presents at every step. */
  datatype Token = Token(id: OpId, fence: nat, executor: Executor)

  datatype Ticket = Ticket(op: OpId, instance: InstanceId, fence: nat, generation: nat, expires: real, consumed: bool)

  datatype Grant = Grant(
    instance: InstanceId, op: OpId, fence: nat, executor: Executor, targetGeneration: nat, targetSpec: SpecHash,
    command: string, owner: Uid, expires: real, consumed: bool)

  datatype Peer = Peer(uid: Uid, pid: nat, ticks: nat)

  datatype Lease = Lease(
    instance: InstanceId, op: OpId, fence: nat, executor: Executor, targetGeneration: nat, targetSpec: SpecHash,
    command: string, peer: Peer, retired: bool)

  datatype EventKind =
    | Registered | Planned | Approved | PlanCancelled | Reached(phase: Phase) | RecoveryApproved
    | GrantIssued | GrantClaimed

  /** `subject` is the instance, plan or operation the event is filed under. */
  datatype Subject = ForInstance(id: InstanceId) | ForPlan(plan: PlanId) | ForOperation(op: OpId)

  datatype Event = Event(subject: Subject, kind: EventKind)

  datatype Db = Db(
    specs: map<SpecHash, Spec>,
    registrations: map<InstanceId, Registration>,
    instances: map<InstanceId, Instance>,
    plans: map<PlanId, Plan>,
    cancelled: set<PlanId>,
    approvals: map<Nonce, Approval>,
    operations: map<OpId, Operation>,
    retained: set<(InstanceId, SpecHash)>,
    evidence: map<OpId, Runtime>,
    tickets: map<Nonce, Ticket>,
    grants: map<Nonce, Grant>,
    leases: map<LeaseId, Lease>,
    events: seq<Event>)

  const EMPTY := Db(map[], map[], map[], map[], {}, map[], map[], {}, map[], map[], map[], map[], [])

  datatype Error =
    | NotFound | NotPermitted | NotQualified | RuntimeDrift | AlreadyRegistered | LifecycleAuthorityConflict
    | ActionNotAllowed | NotReady | ShapeChanged | DisableRequiresNoMod | NotRetained | ImmutableConflict
    | PlanExpired | PlanIsCancelled | GenerationConflict | CancellationNotSafe | ActionMismatch
    | ApprovalMismatch | ApprovalExpiredOrReplayed | FenceLost | OperationTerminal | PhaseConflict
    | DeadlinePassed | OwnershipLost | NotReplaced | ScopeExpired | OldExecutorNotFenced
    | GrantExpiredOrReplayed | GrantMismatch | LeaseMismatch | OwnerNotAllowed

  function TokenOf(op: Operation): Token { Token(op.id, op.fence, op.executor) }

  predicate Terminal(phase: Phase) { phase in {Committed, RolledBack, Unchanged} }

  /** `_observation`: the runtime is the expected specification, and the environment
      finds the rest of the report fresh, healthy and complete. */
  predicate Confirms(seen: Runtime, spec: SpecHash, sound: bool) { seen.spec == spec && sound }

  // ------------------------------------------------------------------ enrolment

  function RegisterTx(db: Db, id: InstanceId, registration: Registration, baseline: Spec, seen: Runtime,
                      qualified: bool, sound: bool, elsewhere: bool): Tx<Db, (), Error>
  {
    var hash := Digest(baseline);
    if !qualified then Raise(NotQualified)
    else if !Confirms(seen, hash, sound) then Raise(RuntimeDrift)
    else if id in db.instances then Raise(AlreadyRegistered)
    else if elsewhere then Raise(LifecycleAuthorityConflict)
    else
      match (PutOnce(db.specs, hash, baseline), PutOnce(db.registrations, id, registration))
      case (Some(specs), Some(registrations)) =>
        Done(db.(specs := specs, registrations := registrations,
                 instances := db.instances[id := Instance(0, 0, hash, seen, None, Ready)],
                 events := db.events + [Event(ForInstance(id), Registered)]),
             ())
      case _ => Raise(ImmutableConflict)
  }

  // ----------------------------------------------------------------------- plans

  datatype Budget = Budget(ttl: nat, verify: nat, recovery: nat)

  predicate ValidBudget(b: Budget) { 1 <= b.ttl <= 600 && 1 <= b.verify <= 600 && b.verify <= b.recovery <= 3600 }

  function PlanTx(db: Db, id: InstanceId, action: Action, candidate: Spec, seen: Runtime, budget: Budget,
                  now: real, qualified: bool, sound: bool): Tx<Db, PlanId, Error>
  {
    if !ValidBudget(budget) then Raise(NotPermitted)
    else if id !in db.registrations then Raise(NotFound)
    else if action !in db.registrations[id].actions then Raise(ActionNotAllowed)
    else if !qualified then Raise(NotQualified)
    else if id !in db.instances then Raise(NotFound)
    else
      var i := db.instances[id];
      if i.status != Ready || i.operation.Some? then Raise(NotReady)
      else if i.spec !in db.specs then Raise(NotFound)
      else if !Confirms(seen, i.spec, sound) || seen.identity != i.observation.identity then Raise(RuntimeDrift)
      else if candidate.shape != db.specs[i.spec].shape then Raise(ShapeChanged)
      else if action == Disable && (candidate.mods != [] || candidate.attestor.Some?) then Raise(DisableRequiresNoMod)
      else if action == Rollback && (id, Digest(candidate)) !in db.retained then Raise(NotRetained)
      else
        var plan := Plan(id, action, i.generation, i.fence, seen.identity, i.spec, Digest(candidate),
                         now, now + budget.ttl as real, budget.verify, budget.recovery);
        match (PutOnce(db.specs, Digest(candidate), candidate), PutOnce(db.plans, Sealed(plan), plan))
        case (Some(specs), Some(plans)) =>
          Done(db.(specs := specs, plans := plans, events := db.events + [Event(ForPlan(Sealed(plan)), Planned)]), Sealed(plan))
        case _ => Raise(ImmutableConflict)
  }

  function ApproveTx(db: Db, p: PlanId, nonce: Nonce, now: real): Tx<Db, Nonce, Error> {
    if p !in db.plans then Raise(NotFound)
    else
      var plan := db.plans[p];
      if Sealed(plan) != p || now >= plan.expires then Raise(PlanExpired)
      else if p in db.cancelled then Raise(PlanIsCancelled)
      else if plan.instance !in db.instances then Raise(NotFound)
      else
        var i := db.instances[plan.instance];
        if i.generation != plan.generation || i.fence != plan.fence || i.operation.Some? then Raise(GenerationConflict)
        else
          match PutOnce(db.approvals, nonce, Approval(p, plan.action, plan.generation, plan.expires, false))
          case None => Raise(ImmutableConflict)
          case Some(approvals) =>
            Done(db.(approvals := approvals, events := db.events + [Event(ForPlan(p), Approved)]), nonce)
  }

  predicate Used(operations: map<OpId, Operation>, p: PlanId) {
    exists o | o in operations :: operations[o].plan == p
  }

  function CancelTx(db: Db, p: PlanId): Tx<Db, (), Error> {
    if p !in db.plans then Raise(NotFound)
    else if Sealed(db.plans[p]) != p then Raise(PlanExpired)
    else if p in db.cancelled then Done(db, ())
    else if Used(db.operations, p) then Raise(CancellationNotSafe)
    else Done(db.(cancelled := db.cancelled + {p}, events := db.events + [Event(ForPlan(p), PlanCancelled)]), ())
  }

  /** The approval is not one of this very plan. */
  predicate Mismatched(p: PlanId, plan: Plan, ticket: Approval) {
    Sealed(plan) != p || ticket.plan != p || ticket.action != plan.action || ticket.generation != plan.generation
  }

  /** The instance is not what the plan was made for. */
  predicate Outdated(i: Instance, plan: Plan) {
    || i.status != Ready || i.operation.Some? || i.generation != plan.generation
    || i.fence != plan.fence || i.spec != plan.baseline
  }

  /** `begin`: generation CAS, approval consumption, retained baseline and fence grant in
      one transaction. */
  function BeginTx(db: Db, p: PlanId, nonce: Nonce, expected: Option<Action>, seen: Runtime, sound: bool,
                   o: OpId, executor: Executor, now: real): Tx<Db, Operation, Error>
  {
    if p !in db.plans then Raise(NotFound)
    else
      var plan := db.plans[p];
      var id := plan.instance;
      if id !in db.registrations then Raise(NotFound)
      else if expected.Some? && expected.value != plan.action then Raise(ActionMismatch)
      else if p in db.cancelled then Raise(PlanIsCancelled)
      else if nonce !in db.approvals || id !in db.instances then Raise(NotFound)
      else
        var ticket := db.approvals[nonce];
        var i := db.instances[id];
        if Mismatched(p, plan, ticket) then
          Raise(ApprovalMismatch)
        else if ticket.consumed || now >= ticket.expires then Raise(ApprovalExpiredOrReplayed)
        else if plan.action !in db.registrations[id].actions then Raise(ActionNotAllowed)
        else if Outdated(i, plan) then Raise(GenerationConflict)
        else if !Confirms(seen, plan.baseline, sound) || seen.identity != plan.identity then Raise(RuntimeDrift)
        else
          var i' := i.(fence := i.fence + 1, operation := Some(o), status := Changing);
          var op := Operation(o, p, id, i'.fence, Reserved, plan.baseline, plan.candidate,
                              now + plan.verify as real, now + plan.recovery as real, executor);
          Done(db.(approvals := db.approvals[nonce := ticket.(consumed := true)],
                   instances := db.instances[id := i'],
                   operations := db.operations[o := op],
                   retained := db.retained + {(id, plan.baseline)},
                   events := db.events + [Event(ForOperation(o), Reached(Reserved))]),
               op)
  }

  // ------------------------------------------------------------------- execution

  /** `_owned`: `None` when the token still owns its operation and instance. */
  function Disowned(db: Db, t: Token): Option<Error> {
    if t.id !in db.operations || db.operations[t.id].instance !in db.instances then Some(NotFound)
    else
      var op := db.operations[t.id];
      var i := db.instances[op.instance];
      if op.fence != t.fence || op.executor != t.executor || i.fence != t.fence || i.operation != Some(t.id) then Some(FenceLost)
      else if Terminal(op.phase) then Some(OperationTerminal)
      else None
  }

  /** `_phase`: what may precede each phase. */
  predicate MayMove(before: Phase, phase: Phase) {
    match phase
    case Applying => before == Reserved
    case Verifying => before == Applying
    case RollingBack => before in {Reserved, Applying, Verifying, Recovering}
    case _ => false
  }

  function SetPhase(db: Db, o: OpId, phase: Phase): Db
    requires o in db.operations
  {
    db.(operations := db.operations[o := db.operations[o].(phase := phase)],
        events := db.events + [Event(ForOperation(o), Reached(phase))])
  }

  function PhaseTx(db: Db, t: Token, phase: Phase): Tx<Db, (), Error> {
    var lost := Disowned(db, t);
    if lost.Some? then Raise(lost.value)
    else if !MayMove(db.operations[t.id].phase, phase) then Raise(PhaseConflict)
    else Done(SetPhase(db, t.id, phase), ())
  }

  function DeadlineOf(op: Operation, restore: bool): real { if restore then op.recoveryDeadline else op.deadline }
  function TargetOf(op: Operation, restore: bool): SpecHash { if restore then op.baseline else op.candidate }

  /** The checks of `_effect`; the store stays locked through the deployment that
      follows. The value is the specification to deploy. */
  function EffectTx(db: Db, t: Token, restore: bool, seen: Runtime, now: real,
                    gate: bool, qualified: bool, owns: bool, sound: bool): Tx<Db, Spec, Error>
  {
    var lost := Disowned(db, t);
    if lost.Some? then Raise(lost.value)
    else
      var op := db.operations[t.id];
      if op.instance !in db.registrations then Raise(NotFound)
      else if now >= DeadlineOf(op, restore) then Raise(DeadlinePassed)
      else if !restore && !gate then Raise(NotPermitted)
      else if op.plan !in db.plans || TargetOf(op, restore) !in db.specs then Raise(NotFound)
      else if !qualified then Raise(NotQualified)
      else if !owns then Raise(OwnershipLost)
      else if !restore && (!Confirms(seen, db.plans[op.plan].baseline, sound) || seen.identity != db.plans[op.plan].identity) then
        Raise(RuntimeDrift)
      else Done(db, db.specs[TargetOf(op, restore)])
  }

  /** The reads and checks of `_verify` before its transaction. */
  function VerifyTx(db: Db, t: Token, restore: bool, seen: Runtime, now: real, owns: bool, sound: bool): Tx<Db, Runtime, Error> {
    if t.id !in db.operations then Raise(NotFound)
    else
      var op := db.operations[t.id];
      if op.instance !in db.registrations then Raise(NotFound)
      else if now >= DeadlineOf(op, restore) then Raise(DeadlinePassed)
      else if !Confirms(seen, TargetOf(op, restore), sound) then Raise(RuntimeDrift)
      else if op.plan !in db.plans then Raise(NotFound)
      else if seen.identity == db.plans[op.plan].identity then Raise(NotReplaced)
      else if !owns then Raise(OwnershipLost)
      else Done(db, seen)
  }

  /** The transaction of `_verify`. */
  function EvidenceTx(db: Db, t: Token, seen: Runtime): Tx<Db, (), Error> {
    var lost := Disowned(db, t);
    if lost.Some? then Raise(lost.value) else Done(db.(evidence := db.evidence[t.id := seen]), ())
  }

  /** `_commit`, forward or back. It checks no deadline. */
  function CommitTx(db: Db, t: Token, restore: bool, observed: Runtime, latest: Runtime, owns: bool, sound: bool): Tx<Db, (), Error> {
    var lost := Disowned(db, t);
    if lost.Some? then Raise(lost.value)
    else
      var op := db.operations[t.id];
      var i := db.instances[op.instance];
      if op.instance !in db.registrations then Raise(NotFound)
      else if !Confirms(latest, observed.spec, sound) || latest.identity != observed.identity then Raise(RuntimeDrift)
      else if op.plan !in db.plans then Raise(NotFound)
      else if !owns then Raise(OwnershipLost)
      else
        var i' := i.(generation := i.generation + 1, operation := None, status := Ready,
                     spec := TargetOf(op, restore), observation := observed);
        Done(SetPhase(db.(instances := db.instances[op.instance := i']), t.id, if restore then RolledBack else Committed), ())
  }

  /** The first transaction of `_rollback`: an untouched baseline ends the operation
      there and then (`true`); anything else has to be restored (`false`). */
  function UnchangedTx(db: Db, t: Token, seen: Runtime, owns: bool, sound: bool): Tx<Db, bool, Error> {
    var lost := Disowned(db, t);
    if lost.Some? then Raise(lost.value)
    else
      var op := db.operations[t.id];
      var i := db.instances[op.instance];
      if op.instance !in db.registrations || op.plan !in db.plans then Raise(NotFound)
      else if seen.spec != op.baseline || seen.identity != db.plans[op.plan].identity || !owns then Done(db, false)
      else if !sound then Raise(RuntimeDrift)
      else
        Done(SetPhase(db.(instances := db.instances[op.instance := i.(operation := None, status := Ready, observation := seen)]),
                      t.id, Unchanged),
             true)
  }

  /** The exception handler of `_rollback`. */
  function GiveUpTx(db: Db, t: Token): Tx<Db, (), Error> {
    var lost := Disowned(db, t);
    if lost.Some? then Raise(lost.value)
    else
      var id := db.operations[t.id].instance;
      Done(SetPhase(db.(instances := db.instances[id := db.instances[id].(status := RecoveryRequired)]), t.id, RollbackFailed), ())
  }

  // -------------------------------------------------------------------- recovery

  function ApproveRecoveryTx(db: Db, o: OpId, nonce: Nonce, ttl: nat, now: real): Tx<Db, Nonce, Error> {
    if !(1 <= ttl <= 600) then Raise(NotPermitted)
    else if o !in db.operations then Raise(NotFound)
    else
      var op := db.operations[o];
      if Terminal(op.phase) then Raise(OperationTerminal)
      else if op.instance !in db.instances then Raise(NotFound)
      else
        var i := db.instances[op.instance];
        if i.operation != Some(o) || i.fence != op.fence then Raise(FenceLost)
        else if now >= op.recoveryDeadline then Raise(ScopeExpired)
        else
          var expires := if now + ttl as real <= op.recoveryDeadline then now + ttl as real else op.recoveryDeadline;
          match PutOnce(db.tickets, nonce, Ticket(o, op.instance, op.fence, i.generation, expires, false))
          case None => Raise(ImmutableConflict)
          case Some(tickets) =>
            Done(db.(tickets := tickets, events := db.events + [Event(ForOperation(o), RecoveryApproved)]), nonce)
  }

  /** `recover` up to its commit: a higher fence and a new executor. The instance's
      status stays as it is. */
  function RecoverTx(db: Db, o: OpId, nonce: Nonce, executor: Executor, quiescent: bool, now: real): Tx<Db, Token, Error> {
    if o !in db.operations then Raise(NotFound)
    else
      var op := db.operations[o];
      if Terminal(op.phase) then Raise(OperationTerminal)
      else if op.instance !in db.instances then Raise(NotFound)
      else
        var i := db.instances[op.instance];
        if i.operation != Some(o) || i.fence != op.fence then Raise(FenceLost)
        else if nonce !in db.tickets then Raise(NotFound)
        else
          var ticket := db.tickets[nonce];
          if ticket.op != o || ticket.instance != op.instance || ticket.fence != op.fence || ticket.generation != i.generation then
            Raise(ApprovalMismatch)
          else if ticket.consumed || now >= ticket.expires || now >= op.recoveryDeadline then Raise(ApprovalExpiredOrReplayed)
          else if op.instance !in db.registrations then Raise(NotFound)
          else if !quiescent then Raise(OldExecutorNotFenced)
          else
            var op' := op.(fence := i.fence + 1, executor := executor, phase := Recovering);
            Done(db.(tickets := db.tickets[nonce := ticket.(consumed := true)],
                     instances := db.instances[op.instance := i.(fence := i.fence + 1)],
                     operations := db.operations[o := op'],
                     events := db.events + [Event(ForOperation(o), Reached(Recovering))]),
                 TokenOf(op'))
  }

  // --------------------------------------------------------- launch grants, leases

  function MintTx(db: Db, t: Token, nonce: Nonce, command: string, owner: Uid, ttl: nat, now: real): Tx<Db, Nonce, Error> {
    if !(1 <= ttl <= 300) then Raise(NotPermitted)
    else if t.id !in db.operations then Raise(NotFound)
    else
      var op := db.operations[t.id];
      if op.instance !in db.instances || op.instance !in db.registrations then Raise(NotFound)
      else
        var i := db.instances[op.instance];
        if op.fence != t.fence || op.executor != t.executor || i.fence != t.fence || i.operation != Some(t.id) then Raise(FenceLost)
        else if owner !in db.registrations[op.instance].owners then Raise(OwnerNotAllowed)
        else
          match PutOnce(db.grants, nonce, Grant(op.instance, t.id, op.fence, op.executor, i.generation + 1, op.candidate,
                                                command, owner, now + ttl as real, false))
          case None => Raise(ImmutableConflict)
          case Some(grants) =>
            Done(db.(grants := grants, events := db.events + [Event(ForOperation(t.id), GrantIssued)]), nonce)
  }

  function ClaimTx(db: Db, nonce: Nonce, peer: Peer, command: string, id: LeaseId, now: real): Tx<Db, LeaseId, Error> {
    if nonce !in db.grants then Raise(NotFound)
    else
      var g := db.grants[nonce];
      if g.consumed || now >= g.expires then Raise(GrantExpiredOrReplayed)
      else if g.owner != peer.uid || g.command != command then Raise(GrantMismatch)
      else if g.op !in db.operations || g.instance !in db.instances then Raise(NotFound)
      else
        var op := db.operations[g.op];
        var i := db.instances[g.instance];
        if i.operation != Some(g.op) || i.fence != g.fence || op.fence != g.fence || op.executor != g.executor then Raise(FenceLost)
        else
          var lease := Lease(g.instance, g.op, g.fence, g.executor, g.targetGeneration, g.targetSpec, command, peer, false);
          match PutOnce(db.leases, id, lease)
          case None => Raise(ImmutableConflict)
          case Some(leases) =>
            Done(db.(grants := db.grants[nonce := g.(consumed := true)], leases := leases,
                     events := db.events + [Event(ForOperation(g.op), GrantClaimed)]),
                 id)
  }

  /** The fence test of `guard_store` and `retire`. */
  predicate Passes(db: Db, l: Lease) {
    && l.instance in db.instances && l.op in db.operations
    && var i := db.instances[l.instance];
       var op := db.operations[l.op];
       || (i.operation == Some(l.op) && i.fence == l.fence && op.executor == l.executor)
       || (i.operation == None && i.fence == l.fence && i.generation == l.targetGeneration
           && i.spec == l.targetSpec && op.phase == Committed)
  }

  /** `guard_store` on entry: the lease held through one spawn or signal. */
  function GuardTx(db: Db, id: LeaseId, peer: Peer): Tx<Db, Lease, Error> {
    if id !in db.leases then Raise(NotFound)
    else
      var l := db.leases[id];
      if l.retired || l.peer != peer then Raise(LeaseMismatch)
      else if l.instance !in db.instances || l.op !in db.operations then Raise(NotFound)
      else if !Passes(db, l) then Raise(FenceLost)
      else Done(db, l)
  }

  function RetireTx(db: Db, id: LeaseId, peer: Peer): Tx<Db, (), Error> {
    var guarded := GuardTx(db, id, peer);
    if guarded.Raise? then Raise(guarded.error)
    else Done(db.(leases := db.leases[id := guarded.value.(retired := true)]), ())
  }
}
