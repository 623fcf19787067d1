/**
 The documents of the lifecycle authority and the transactions that change them.

 Each function named `...Tx` is one `with store.transaction()` block: it either
 returns the complete new document set or the error that rolled it back.
 */
module LifecycleModel {
  import opened Schema

  type InstanceId = string
  type ProfileId = string
  type RequestId = string
  type Resource = string
  type Uid = nat
  /** A uuid4; the order stands for `ORDER BY id`. */
  type OpId = nat
  /** The digest of a one-use nonce. */
  type Nonce = nat

  datatype RunState = Stopped | Running

  datatype Identity = Launched(op: OpId) | Relaunched(op: OpId) | Incarnation(serial: nat)

  /** A backend observation. The simulation has no health field. */
  datatype Obs = Obs(state: RunState, identity: Option<Identity>, evidence: string, healthy: Option<bool>)

  datatype Kind = Simulation | Production

  datatype Profile = Profile(backend: Kind, requesters: set<Uid>, operators: set<Uid>, resources: seq<Resource>)

  datatype Host = Host(profiles: map<ProfileId, Profile>, admins: set<Uid>, enabled: bool)

  datatype InstanceState =
    | Requested | Rejected
    | Idle(run: RunState)                    // "stopped" and "running"
    | Starting | Stopping | Recovering | RecoveryRequired

  datatype Instance = Instance(
    profile: ProfileId, policy: Digest<Profile>, owner: Uid, generation: nat, fence: nat,
    state: InstanceState, operation: Option<OpId>, observation: Option<Obs>)

  datatype Phase =
    | Queued | Applying | RollingBack | Committed | RolledBack
    | Quarantined                            // "recovery_required"

  datatype Operation = Operation(
    id: OpId, instance: InstanceId, uid: Uid, baseline: Obs, desired: RunState,
    phase: Phase, error: bool, policy: Digest<Profile>, fence: Option<nat>)

  datatype Action =
    | Create(profile: ProfileId)
    | Approve(expected: nat) | Reject(expected: nat)
    | Start(expected: nat) | Stop(expected: nat)
    | Transfer(expected: nat, newOwner: Uid)
    | Recover(expected: nat)

  datatype Request = Request(instance: InstanceId, id: RequestId, action: Action)

  /** The public half of an instance, without `policy_hash`. */
  datatype Public = Public(
    profile: ProfileId, owner: Uid, generation: nat, fence: nat,
    state: InstanceState, operation: Option<OpId>, observation: Option<Obs>)

  datatype Response = Response(instance: Public, operation: Option<OpId>)

  datatype Key = Key(uid: Uid, request: RequestId)

  datatype Saved = Saved(hash: Digest<Request>, response: Response)

  datatype Lease = Lease(
    op: OpId, instance: InstanceId, fence: nat, restore: bool, binding: nat,
    consumed: bool, expires: real)

  datatype EffectPhase = Intent | Settled | Verified

  /** The daemon-effect journal, one record per instance. */
  datatype Effect = Effect(
    op: OpId, fence: nat, restore: bool, binding: nat, before: Obs, desired: RunState,
    phase: EffectPhase, observation: Option<Obs>)

  datatype EventKind =
    | Refused(action: Action)
    | Accepted(action: Action)
    | Reached(phase: Phase)
    | LeaseIssued | IntentRecorded | EffectVerified

  datatype Event = Event(instance: InstanceId, uid: Uid, kind: EventKind, op: Option<OpId>)

  datatype Db = Db(
    instances: map<InstanceId, Instance>,
    operations: map<OpId, Operation>,
    requests: map<Key, Saved>,
    resources: map<Resource, InstanceId>,
    registrations: set<InstanceId>,
    leases: map<Nonce, Lease>,
    effects: map<InstanceId, Effect>,
    events: seq<Event>)

  const EMPTY := Db(map[], map[], map[], map[], {}, map[], map[], [])

  datatype Error =
    | NotFound | Forbidden | PolicyChanged | AdministratorRequired | IdempotencyConflict
    | NewOperationsDisabled | ProfileNotRegistered | InstanceExists | GenerationConflict
    | StateConflict | OperationConflict | BackendNotQualified | BackendOperationsDisabled
    | ObservationUnavailable | ExternalInstanceNotStopped | ResourceConflict
    | LegacyAuthorityConflict | OwnerNotAllowed | RuntimeIdentityDrift | FenceLost
    | ForeignResource | DirectionConflict | ProductionBackendDisabled | TargetBindingChanged
    | LeaseExpiredOrReplayed | DaemonOutcomeUnknown | ExternalOwnershipLost
    | EffectNotVerified | ImmutableDocumentConflict | Busy

  // ------------------------------------------------------------------ admission

  /** Policy checks of the constructor: every profile names distinct resources. */
  predicate ValidHost(host: Host) {
    forall p | p in host.profiles :: Distinct(host.profiles[p].resources) && host.profiles[p].resources != []
  }

  predicate Distinct(names: seq<Resource>) {
    forall i, j | 0 <= i < j < |names| :: names[i] != names[j]
  }

  /** `_profile`: the pinned policy must still be the registered one. */
  predicate PolicyHolds(instance: Instance, host: Host) {
    instance.profile in host.profiles && Digest(host.profiles[instance.profile]) == instance.policy
  }

  /** `_access`: `None` grants access. */
  function Access(uid: Uid, instance: Instance, host: Host): Option<Error> {
    if uid in host.admins || uid == instance.owner then None
    else if !PolicyHolds(instance, host) then Some(PolicyChanged)
    else if uid in host.profiles[instance.profile].operators then None
    else Some(Forbidden)
  }

  /** What the backend answers while the admission transaction is open, and the uuid
      the transaction would allocate. */
  datatype Probe = Probe(qualified: bool, newOperations: bool, inspected: Option<Obs>, op: OpId)

  function View(i: Instance): Public {
    Public(i.profile, i.owner, i.generation, i.fence, i.state, i.operation, i.observation)
  }

  /** The claim loop of an approval: `None` when any resource already has an owner. */
  function ClaimAll(resources: map<Resource, InstanceId>, names: seq<Resource>, id: InstanceId)
    : Option<map<Resource, InstanceId>>
    decreases |names|
  {
    if names == [] then Some(resources)
    else if names[0] in resources then None
    else ClaimAll(resources[names[0] := id], names[1..], id)
  }

  /** The instance, operation and other tables an accepted action produces. */
  datatype Change = Change(instance: Instance, operation: Option<OpId>)

  function CreateTx(db: Db, uid: Uid, req: Request, host: Host): Tx<Db, Change, Error>
    requires req.action.Create?
  {
    var name := req.action.profile;
    if name !in host.profiles then Raise(ProfileNotRegistered)
    else if uid !in host.admins && uid !in host.profiles[name].requesters then Raise(Forbidden)
    else if req.instance in db.instances then Raise(InstanceExists)
    else
      Done(db, Change(Instance(name, Digest(host.profiles[name]), uid, 0, 0, Requested, None, None), None))
  }

  function ApproveTx(db: Db, id: InstanceId, i: Instance, host: Host, probe: Probe): Tx<Db, Change, Error> {
    if i.state != Requested then Raise(StateConflict)
    else if !PolicyHolds(i, host) then Raise(PolicyChanged)
    else if !probe.qualified then Raise(BackendNotQualified)
    else if probe.inspected.None? then Raise(ObservationUnavailable)
    else if probe.inspected.value.state != Stopped then Raise(ExternalInstanceNotStopped)
    else
      match ClaimAll(db.resources, host.profiles[i.profile].resources, id)
      case None => Raise(ResourceConflict)
      case Some(claims) =>
        if id in db.registrations then Raise(LegacyAuthorityConflict)
        else Done(db.(resources := claims),
                  Change(i.(state := Idle(Stopped), observation := probe.inspected), None))
  }

  function TransferTx(db: Db, i: Instance, newOwner: Uid, host: Host): Tx<Db, Change, Error> {
    if !i.state.Idle? || i.operation.Some? then Raise(OperationConflict)
    else if !PolicyHolds(i, host) then Raise(PolicyChanged)
    else if newOwner !in host.profiles[i.profile].requesters then Raise(OwnerNotAllowed)
    else Done(db, Change(i.(owner := newOwner, fence := i.fence + 1), None))
  }

  function RecoverTx(db: Db, i: Instance): Tx<Db, Change, Error> {
    if i.state != RecoveryRequired then Raise(StateConflict)
    else if i.operation.None? || i.operation.value !in db.operations then Raise(NotFound)
    else
      var op := db.operations[i.operation.value].(phase := RollingBack, error := false);
      Done(db.(operations := db.operations[op.id := op]), Change(i.(state := Recovering), Some(op.id)))
  }

  function ChangeTx(db: Db, uid: Uid, id: InstanceId, i: Instance, desired: RunState, host: Host, probe: Probe)
    : Tx<Db, Change, Error>
  {
    if !i.state.Idle? || i.operation.Some? then Raise(OperationConflict)
    else if !PolicyHolds(i, host) then Raise(PolicyChanged)
    else if !probe.qualified then Raise(BackendNotQualified)
    else if !probe.newOperations then Raise(BackendOperationsDisabled)
    else if probe.inspected.None? then Raise(ObservationUnavailable)
    else if probe.inspected != i.observation then Raise(RuntimeIdentityDrift)
    else
      var seen := probe.inspected.value;
      var noop := seen.state == desired;
      var op := Operation(probe.op, id, uid, seen, desired, if noop then Committed else Queued, false, i.policy, None);
      var i' := if noop then i
                else i.(state := if desired == Running then Starting else Stopping, operation := Some(op.id));
      Done(db.(operations := db.operations[op.id := op]), Change(i', Some(op.id)))
  }

  predicate AdminOnly(action: Action) {
    action.Approve? || action.Reject? || action.Transfer? || action.Recover?
  }

  /** The action itself, once access and generation are checked. */
  function ActionTx(db: Db, uid: Uid, req: Request, i: Instance, host: Host, probe: Probe): Tx<Db, Change, Error>
    requires !req.action.Create?
  {
    match req.action
    case Approve(_) => ApproveTx(db, req.instance, i, host, probe)
    case Reject(_) => if i.state != Requested then Raise(StateConflict)
                      else Done(db, Change(i.(state := Rejected), None))
    case Transfer(_, newOwner) => TransferTx(db, i, newOwner, host)
    case Recover(_) => RecoverTx(db, i)
    case Start(_) => ChangeTx(db, uid, req.instance, i, Running, host, probe)
    case Stop(_) => ChangeTx(db, uid, req.instance, i, Stopped, host, probe)
  }

  function MutateTx(db: Db, uid: Uid, req: Request, host: Host, probe: Probe): Tx<Db, Change, Error>
    requires !req.action.Create?
  {
    if req.instance !in db.instances then Raise(NotFound)
    else
      var i := db.instances[req.instance];
      var access := Access(uid, i, host);
      if access.Some? then Raise(access.value)
      else if i.generation != req.action.expected then Raise(GenerationConflict)
      else if AdminOnly(req.action) && uid !in host.admins then Raise(AdministratorRequired)
      else
        var tx := ActionTx(db, uid, req, i, host, probe);
        if tx.Raise? then tx
        else Done(tx.docs, tx.value.(instance := tx.value.instance.(generation := tx.value.instance.generation + 1)))
  }

  /** The tail every accepted mutation shares: the instance row, the durable response
      and the audit event. */
  function Record(db: Db, uid: Uid, req: Request, change: Change): Tx<Db, Response, Error> {
    var response := Response(View(change.instance), change.operation);
    match PutOnce(db.requests, Key(uid, req.id), Saved(Digest(req), response))
    case None => Raise(ImmutableDocumentConflict)
    case Some(requests) =>
      Done(db.(instances := db.instances[req.instance := change.instance],
               requests := requests,
               events := db.events + [Event(req.instance, uid, Accepted(req.action), change.instance.operation)]),
           response)
  }

  /** `_dispatch` for the mutating actions. */
  function AdmitTx(db: Db, uid: Uid, req: Request, host: Host, probe: Probe): Tx<Db, Response, Error> {
    var key := Key(uid, req.id);
    if key in db.requests then
      if db.requests[key].hash != Digest(req) then Raise(IdempotencyConflict)
      else if req.instance !in db.instances then Raise(NotFound)
      else
        var access := Access(uid, db.instances[req.instance], host);
        if access.Some? then Raise(access.value) else Done(db, db.requests[key].response)
    else if !host.enabled && !req.action.Recover? then Raise(NewOperationsDisabled)
    else
      var tx := if req.action.Create? then CreateTx(db, uid, req, host) else MutateTx(db, uid, req, host, probe);
      if tx.Raise? then Raise(tx.error) else Record(tx.docs, uid, req, tx.value)
  }

  /** `dispatch`: a refusal leaves one audit event, unless that second transaction is
      busy as well; a busy store leaves nothing. */
  function Dispatch(db: Db, uid: Uid, req: Request, host: Host, probe: Probe, busy: bool, auditBusy: bool)
    : (Db, Option<Response>)
  {
    if busy then (db, None)
    else
      var tx := AdmitTx(db, uid, req, host, probe);
      if tx.Done? then (tx.docs, Some(tx.value))
      else if auditBusy then (db, None)
      else (db.(events := db.events + [Event(req.instance, uid, Refused(req.action), None)]), None)
  }

  // --------------------------------------------------------------------- worker

  /** `TERMINAL`: a worker never picks these up. */
  predicate Terminal(phase: Phase) { phase in {Committed, RolledBack, Quarantined} }

  predicate Pending(db: Db, o: OpId) { o in db.operations && !Terminal(db.operations[o].phase) }

  predicate FirstPending(db: Db, o: OpId) {
    Pending(db, o) && forall p | Pending(db, p) :: o <= p
  }

  datatype Picked = Picked(op: Operation, restore: bool)

  /** The first transaction of `tick` for the chosen operation. */
  function ReserveTx(db: Db, o: OpId, enabled: bool): Tx<Db, Picked, Error>
    requires o in db.operations
  {
    var op := db.operations[o];
    if op.instance !in db.instances then Raise(NotFound)
    else
      var i := db.instances[op.instance];
      if i.operation != Some(o) then Raise(OperationConflict)
      else
        var restore := op.phase != Queued || !enabled;
        var i' := i.(fence := i.fence + 1);
        var op' := op.(fence := Some(i'.fence), phase := if restore then RollingBack else Applying);
        Done(db.(instances := db.instances[op.instance := i'],
                 operations := db.operations[o := op'],
                 events := db.events + [Event(op.instance, op.uid, Reached(op'.phase), Some(o))]),
             Picked(op', restore))
  }

  /** The compensation intent: overwrites the operation row with the worker's copy. */
  function CompensateTx(db: Db, op: Operation): Tx<Db, Operation, Error> {
    var op' := op.(phase := RollingBack, error := true);
    Done(db.(operations := db.operations[op.id := op'],
             events := db.events + [Event(op.instance, op.uid, Reached(RollingBack), Some(op.id))]),
         op')
  }

  /** `_finish`. `phase` is `Committed`, `RolledBack` or `Quarantined`. */
  function FinishTx(db: Db, op: Operation, observation: Option<Obs>, phase: Phase): Tx<Db, (), Error>
    requires phase != Quarantined ==> observation.Some?
  {
    if op.instance !in db.instances then Raise(NotFound)
    else
      var i := db.instances[op.instance];
      if i.operation != Some(op.id) || Some(i.fence) != op.fence then Raise(FenceLost)
      else
        var i' := if phase == Quarantined then i.(state := RecoveryRequired)
                  else i.(state := Idle(observation.value.state), observation := observation, operation := None);
        Done(db.(instances := db.instances[op.instance := i'.(generation := i.generation + 1)],
                 operations := db.operations[op.id := op.(phase := phase)],
                 events := db.events + [Event(op.instance, op.uid, Reached(phase), Some(op.id))]),
             ())
  }

  // ----------------------------------------------------------- simulation backend

  datatype SimResource = SimResource(observation: Obs, operation: Option<OpId>, fence: nat)

  const UNTOUCHED := SimResource(Obs(Stopped, None, "simulation", None), None, 0)

  function SimOf(sim: map<InstanceId, SimResource>, id: InstanceId): SimResource {
    if id in sim then sim[id] else UNTOUCHED
  }

  /** The state an effect has to leave behind. */
  function Target(op: Operation, restore: bool): RunState {
    if restore then op.baseline.state else op.desired
  }

  /** `SimulationBackend._change`. */
  function SimChangeTx(sim: map<InstanceId, SimResource>, id: InstanceId, op: Operation, restore: bool)
    : Tx<map<InstanceId, SimResource>, Obs, Error>
    requires op.fence.Some?
  {
    var resource := SimOf(sim, id);
    if resource.fence > op.fence.value then Raise(FenceLost)
    else if resource.observation != op.baseline && !(restore && resource.operation == Some(op.id)) then
      Raise(ForeignResource)
    else
      var desired := Target(op, restore);
      var identity := if desired == Stopped then None
                      else Some(if restore then Relaunched(op.id) else Launched(op.id));
      var observation := if restore && resource.observation == op.baseline then resource.observation
                         else Obs(desired, identity, "simulation", None);
      Done(sim[id := SimResource(observation, Some(op.id), op.fence.value)], observation)
  }

  // ----------------------------------------------------------- production backend

  /** What a daemon shows for a runtime it has never been asked to start. */
  const DOWN := Obs(Stopped, None, "daemon", Some(false))

  function RuntimeIn(runtimes: map<InstanceId, Obs>, id: InstanceId): Obs {
    if id in runtimes then runtimes[id] else DOWN
  }

  /** `same_runtime`: equal up to health. */
  predicate SameRuntime(left: Obs, right: Obs) {
    left.(healthy := None) == right.(healthy := None)
  }

  /** A record is exact for the simulation and exact up to health for a daemon, whose
      health changes by itself. */
  predicate Reads(kind: Kind, recorded: Obs, actual: Obs) {
    if kind == Simulation then recorded == actual else SameRuntime(recorded, actual)
  }

  /** `owned`. */
  predicate Owned(db: Db, o: OpId, fence: nat) {
    && o in db.operations
    && db.operations[o].instance in db.instances
    && var op := db.operations[o];
       var i := db.instances[op.instance];
       op.fence == Some(fence) && i.fence == fence && i.operation == Some(o) && op.phase in {Applying, RollingBack}
  }

  /** `ProductionBackend._mint`; the nonce is fresh. */
  function MintTx(db: Db, op: Operation, restore: bool, enabled: bool, bound: bool,
                  nonce: Nonce, binding: nat, expires: real): Tx<Db, Nonce, Error>
  {
    if !restore && !enabled then Raise(ProductionBackendDisabled)
    else if op.fence.None? || !Owned(db, op.id, op.fence.value) then Raise(FenceLost)
    else if db.operations[op.id].instance != op.instance || !bound then Raise(TargetBindingChanged)
    else if restore != (db.operations[op.id].phase == RollingBack) then Raise(DirectionConflict)
    else
      match PutOnce(db.leases, nonce, Lease(op.id, op.instance, op.fence.value, restore, binding, false, expires))
      case None => Raise(ImmutableDocumentConflict)
      case Some(leases) =>
        Done(db.(leases := leases, events := db.events + [Event(op.instance, op.uid, LeaseIssued, Some(op.id))]), nonce)
  }

  /** The tail of `ProductionBackend._run`: only a verified record of this very fence. */
  function ReadBackTx(db: Db, op: Operation, restore: bool): Tx<Db, Obs, Error> {
    if op.fence.None? || !Owned(db, op.id, op.fence.value) then Raise(FenceLost)
    else if op.instance !in db.effects then Raise(NotFound)
    else
      var record := db.effects[op.instance];
      if record.op == op.id && record.phase == Verified && record.restore == restore
         && Some(record.fence) == op.fence && record.observation.Some?
      then Done(db, record.observation.value)
      else Raise(EffectNotVerified)
  }

  datatype Claim = Claim(lease: Lease, op: Operation)

  /** The lease claim of `ProductionExecutor.execute`. */
  function ClaimTx(db: Db, nonce: Nonce, now: real, binding: nat, bound: bool, enabled: bool): Tx<Db, Claim, Error> {
    if nonce !in db.leases then Raise(NotFound)
    else
      var lease := db.leases[nonce];
      if !Owned(db, lease.op, lease.fence) then Raise(FenceLost)
      else
        var op := db.operations[lease.op];
        if lease.consumed || now >= lease.expires then Raise(LeaseExpiredOrReplayed)
        else if lease.binding != binding || !bound then Raise(TargetBindingChanged)
        else if lease.restore != (op.phase == RollingBack) then Raise(DirectionConflict)
        else if !lease.restore && !enabled then Raise(ProductionBackendDisabled)
        else Done(db.(leases := db.leases[nonce := lease.(consumed := true)]), Claim(lease, op))
  }

  /** Exactly what the executor may start from: the baseline, or for a restore the
      last recorded result of the same operation. */
  predicate Admissible(claim: Claim, before: Obs, previous: Option<Effect>) {
    || SameRuntime(before, claim.op.baseline)
    || (claim.lease.restore && previous.Some? && previous.value.op == claim.op.id
        && previous.value.observation.Some? && SameRuntime(before, previous.value.observation.value))
  }

  /** The intent transaction. A state that already matches is settled at once. */
  function JournalTx(db: Db, claim: Claim, before: Obs, now: real): Tx<Db, Effect, Error> {
    var id := claim.lease.instance;
    var previous := if id in db.effects then Some(db.effects[id]) else None;
    if !Owned(db, claim.op.id, claim.lease.fence) then Raise(FenceLost)
    else if previous.Some? && previous.value.phase == Intent then Raise(DaemonOutcomeUnknown)
    else if previous.Some? && (previous.value.binding != claim.lease.binding || previous.value.fence > claim.lease.fence) then
      Raise(TargetBindingChanged)
    else if !Admissible(claim, before, previous) then Raise(ExternalOwnershipLost)
    else if now >= claim.lease.expires then Raise(LeaseExpiredOrReplayed)
    else
      var desired := Target(claim.op, claim.lease.restore);
      var record := Effect(claim.op.id, claim.lease.fence, claim.lease.restore, claim.lease.binding, before, desired,
                           if before.state == desired then Settled else Intent,
                           if before.state == desired then Some(before) else None);
      Done(db.(effects := db.effects[id := record],
               events := db.events + [Event(id, claim.op.uid, IntentRecorded, Some(claim.op.id))]),
           record)
  }

  /** The last check before the daemon command. */
  function LaunchTx(db: Db, claim: Claim, now: real): Tx<Db, (), Error> {
    if !Owned(db, claim.op.id, claim.lease.fence) then Raise(FenceLost)
    else if now >= claim.lease.expires then Raise(LeaseExpiredOrReplayed)
    else Done(db, ())
  }

  /** The `settled` and `verified` writes: both overwrite with the executor's copy. */
  function ReportTx(db: Db, claim: Claim, record: Effect, observed: Obs, phase: EffectPhase): Tx<Db, Effect, Error> {
    if !Owned(db, claim.op.id, claim.lease.fence) then Raise(FenceLost)
    else
      var record' := record.(phase := phase, observation := Some(observed));
      Done(db.(effects := db.effects[claim.lease.instance := record'],
               events := if phase == Verified
                         then db.events + [Event(claim.lease.instance, claim.op.uid, EffectVerified, Some(claim.op.id))]
                         else db.events),
           record')
  }
}
