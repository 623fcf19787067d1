/**
 The lifecycle authority as a machine: API clients, workers, production executors, the
 simulated resource and the daemon, interleaved between store transactions.

 A step label carries everything the environment decides (busy stores, faults, clock
 readings, observations that fail, uuids, crashes); a label that cannot happen in a
 world leaves it unchanged. A run is a sequence of labels.
 */
module LifecycleMachine {
  import opened Schema
  import opened LifecycleModel

  type Pid = nat

  /** Where a worker stands between transactions of `tick`. */
  datatype WorkerAt =
    | Calling                                           // about to call apply or restore
    | Minted(nonce: Nonce)                              // production: lease issued
    | Waiting(nonce: Nonce, child: Pid, since: real)    // in communicate()
    | ChildDone(nonce: Nonce, ok: bool)                 // communicate() returned
    | Returned(result: Obs)                             // the backend call returned
    | Checked(result: Obs)                              // both verification requires passed
    | Failing                                           // an exception reached `except Exception`
    | Quarantining                                      // about to finish as recovery_required

  /** `second` marks the compensating call inside the exception handler. */
  datatype Worker = Worker(op: Operation, restore: bool, second: bool, at: WorkerAt)

  /** Where an executor stands between steps of `execute`. */
  datatype ExecutorAt =
    | Unclaimed
    | Claimed(claim: Claim)
    | Armed(claim: Claim, deadline: real)
    | Inspected(claim: Claim, deadline: real, before: Obs)
    | Journaled(claim: Claim, deadline: real, record: Effect)     // journal says intent
    | Cleared(claim: Claim, deadline: real, record: Effect)       // last check passed
    | Mutating(claim: Claim, deadline: real, record: Effect)      // daemon command running
    | Acknowledged(claim: Claim, deadline: real, record: Effect)
    | Reinspected(claim: Claim, deadline: real, record: Effect, seen: Obs)
    | Confirming(claim: Claim, deadline: real, record: Effect)    // journal says settled
    | Confirmed(claim: Claim, record: Effect, seen: Obs)

  datatype Executor = Executor(nonce: Nonce, at: ExecutorAt)

  /** One daemon command, with what justified it. */
  datatype Mutation = Mutation(
    claim: Claim, before: Obs, start: real, deadline: real, settled: Option<Obs>)

  datatype Completion = Completion(op: Operation, phase: Phase, observation: Option<Obs>, actual: Obs)

  datatype GiveUp = GiveUp(lease: Lease, at: real)

  /** What has happened so far; nothing in the system reads it. */
  datatype History = History(
    mutations: seq<Mutation>, completions: seq<Completion>, giveUps: seq<GiveUp>,
    admitted: nat, settled: map<OpId, Obs>, already: seq<Completion>)

  datatype World = World(
    db: Db, sim: map<InstanceId, SimResource>, daemon: map<InstanceId, Obs>,
    timeouts: map<InstanceId, real>, longest: real, now: real,
    workers: map<Pid, Worker>, executors: map<Pid, Executor>, history: History)

  ghost function DaemonOf(w: World, id: InstanceId): Obs {
    RuntimeIn(w.daemon, id)
  }

  ghost function KindOf(i: Instance): Kind { i.policy.content.backend }

  /** The true state of the resource behind an instance. */
  ghost function Actual(w: World, id: InstanceId, kind: Kind): Obs {
    if kind == Production then DaemonOf(w, id) else SimOf(w.sim, id).observation
  }

  datatype WorkerAct =
    | CallSimulation(fault: bool)
    | MintLease(enabled: bool, bound: bool, nonce: Nonce, binding: nat)
    | Spawn(child: Pid)
    | ParentTimeout
    | ReadBack
    | Fail
    | CheckResult
    | Finish(busy: bool)
    | Compensate(busy: bool)
    | Quarantine(busy: bool)
    | KillWorker

  datatype ExecutorAct =
    | ClaimLease(binding: nat, bound: bool, enabled: bool)
    | Arm
    | Inspect
    | Journal
    | Clear
    | StartCommand
    | CommandReturns(outcome: Obs)
    | Reinspect
    | Settle
    | Confirm
    | Report
    | KillExecutor

  datatype Label =
    | Client(uid: Uid, req: Request, host: Host, qualified: bool, newOps: bool, available: bool, uuid: OpId, busy: bool, auditBusy: bool)
    | Enroll(id: InstanceId)
    | Tick(pid: Pid, enabled: bool)
    | ByWorker(pid: Pid, work: WorkerAct)
    | ByExecutor(e: Pid, act: ExecutorAct)
    | LateEffect(id: InstanceId, outcome: Obs)
    | Flap(id: InstanceId, healthy: bool)
    | Advance(delta: real)
    | Foreign(id: InstanceId, resource: SimResource, runtime: Obs)

  // ------------------------------------------------------------------- clients

  ghost function ProbeFor(w: World, l: Label): Probe
    requires l.Client?
  {
    var id := l.req.instance;
    var seen := if l.available && id in w.db.instances
                then Some(Actual(w, id, KindOf(w.db.instances[id]))) else None;
    Probe(l.qualified, l.newOps, seen, l.uuid)
  }

  ghost function ClientStep(w: World, l: Label): World
    requires l.Client?
  {
    if !ValidHost(l.host) || l.uuid in w.db.operations then w
    else
      var db := Dispatch(w.db, l.uid, l.req, l.host, ProbeFor(w, l), l.busy, l.auditBusy).0;
      w.(db := db, history := w.history.(
           admitted := w.history.admitted + (if Admits(w.db, db, l.uid, l.req) then 1 else 0),
           already := w.history.already + AlreadyDone(w, db, l.uuid)))
  }

  /** A start or stop that found its desired state is committed at once. */
  ghost function AlreadyDone(w: World, db: Db, o: OpId): seq<Completion> {
    if o in db.operations && db.operations[o].phase == Committed then
      var op := db.operations[o];
      [Completion(op, Committed, Some(op.baseline), Actual(w, op.instance, op.policy.content.backend))]
    else []
  }

  /** The request was newly accepted and left its instance with an operation to run. */
  ghost predicate Admits(before: Db, after: Db, uid: Uid, req: Request) {
    && Key(uid, req.id) !in before.requests && Key(uid, req.id) in after.requests
    && (req.action.Start? || req.action.Stop? || req.action.Recover?)
    && req.instance in after.instances && after.instances[req.instance].operation.Some?
  }

  /** The shared-table part of `Controller.register`. */
  ghost function EnrollStep(w: World, id: InstanceId): World {
    if id in w.db.instances then w else w.(db := w.db.(registrations := w.db.registrations + {id}))
  }

  ghost function PendingSet(db: Db): set<OpId> {
    set o | o in db.operations && !Terminal(db.operations[o].phase)
  }

  // ------------------------------------------------------------------- workers

  /** The flock: an open file description shared by a worker and the helper it
      spawned, free only when every process holding it is gone. */
  ghost predicate LockFree(w: World) { w.workers == map[] && w.executors == map[] }

  ghost function Put(w: World, pid: Pid, worker: Worker): World { w.(workers := w.workers[pid := worker]) }
  ghost function Gone(w: World, pid: Pid): World { w.(workers := w.workers - {pid}) }

  /** An exception inside the first call goes to compensation, inside the second to
      quarantine. */
  ghost function Failed(worker: Worker): Worker {
    worker.(at := if worker.second then Quarantining else Failing)
  }

  ghost function TickOn(w: World, pid: Pid, o: OpId, enabled: bool): World
    requires o in w.db.operations
  {
    var tx := ReserveTx(w.db, o, enabled);
    if tx.Raise? then w
    else Put(w.(db := tx.docs), pid, Worker(tx.value.op, tx.value.restore, false, Calling))
  }

  ghost function TickStep(w: World, pid: Pid, enabled: bool): World {
    if !LockFree(w) || !exists o :: FirstPending(w.db, o) then w
    else
      var o :| FirstPending(w.db, o);
      TickOn(w, pid, o, enabled)
  }

  ghost function CallSimulationStep(w: World, pid: Pid, fault: bool): World {
    if pid !in w.workers then w
    else
      var k := w.workers[pid];
      if k.at != Calling || k.op.fence.None? || k.op.policy.content.backend != Simulation then w
      else
        var tx := SimChangeTx(w.sim, k.op.instance, k.op, k.restore);
        if tx.Raise? then Put(w, pid, Failed(k))
        else Put(w.(sim := tx.docs), pid, if fault then Failed(k) else k.(at := Returned(tx.value)))
  }

  ghost function MintStep(w: World, pid: Pid, enabled: bool, bound: bool, nonce: Nonce, binding: nat): World {
    if pid !in w.workers || nonce in w.db.leases then w
    else
      var k := w.workers[pid];
      if k.at != Calling || k.op.policy.content.backend != Production || k.op.instance !in w.timeouts then w
      else
        var tx := MintTx(w.db, k.op, k.restore, enabled, bound, nonce, binding, w.now + w.timeouts[k.op.instance]);
        if tx.Raise? then Put(w, pid, Failed(k)) else Put(w.(db := tx.docs), pid, k.(at := Minted(nonce)))
  }

  ghost function SpawnStep(w: World, pid: Pid, child: Pid): World {
    if pid !in w.workers || !w.workers[pid].at.Minted? || child in w.executors then w
    else
      var k := w.workers[pid];
      Put(w.(executors := w.executors[child := Executor(k.at.nonce, Unclaimed)]), pid,
          k.(at := Waiting(k.at.nonce, child, w.now)))
  }

  /** `communicate` timed out: EffectInProgress, with the helper left running. */
  ghost function ParentTimeoutStep(w: World, pid: Pid): World {
    if pid !in w.workers || !w.workers[pid].at.Waiting? || w.workers[pid].at.nonce !in w.db.leases then w
    else
      var k := w.workers[pid];
      if w.now < k.at.since + 2.0 * w.longest + 5.0 then w
      else
        Put(w.(history := w.history.(giveUps := w.history.giveUps + [GiveUp(w.db.leases[k.at.nonce], w.now)])),
            pid, k.(at := Quarantining))
  }

  ghost function ReadBackStep(w: World, pid: Pid): World {
    if pid !in w.workers || !w.workers[pid].at.ChildDone? then w
    else
      var k := w.workers[pid];
      var tx := ReadBackTx(w.db, k.op, k.restore);
      Put(w, pid, if !k.at.ok || tx.Raise? then Failed(k) else k.(at := Returned(tx.value)))
  }

  /** Any exception while the worker has no live helper: an unqualified backend, a
      changed policy, a busy store, a failed inspection. */
  ghost function FailStep(w: World, pid: Pid): World {
    if pid !in w.workers then w
    else
      var k := w.workers[pid];
      if k.at.Calling? || k.at.Minted? || k.at.ChildDone? || k.at.Returned? || k.at.Checked? then Put(w, pid, Failed(k))
      else w
  }

  ghost function CheckResultStep(w: World, pid: Pid): World {
    if pid !in w.workers || !w.workers[pid].at.Returned? then w
    else
      var k := w.workers[pid];
      var seen := Actual(w, k.op.instance, k.op.policy.content.backend);
      if k.at.result == seen && k.at.result.state == Target(k.op, k.restore)
      then Put(w, pid, k.(at := Checked(k.at.result)))
      else Put(w, pid, Failed(k))
  }

  ghost function Completed(w: World, k: Worker, phase: Phase, observation: Option<Obs>): History {
    w.history.(completions := w.history.completions +
      [Completion(k.op, phase, observation, Actual(w, k.op.instance, k.op.policy.content.backend))])
  }

  /** A busy or refused finish is an exception inside the same `try`. */
  ghost function FinishStep(w: World, pid: Pid, busy: bool): World {
    if pid !in w.workers || !w.workers[pid].at.Checked? then w
    else
      var k := w.workers[pid];
      var phase := if k.restore then RolledBack else Committed;
      var tx := FinishTx(w.db, k.op, Some(k.at.result), phase);
      if busy || tx.Raise? then Put(w, pid, Failed(k))
      else Gone(w.(db := tx.docs, history := Completed(w, k, phase, Some(k.at.result))), pid)
  }

  /** A busy compensation intent escapes `tick` and ends the worker. */
  ghost function CompensateStep(w: World, pid: Pid, busy: bool): World {
    if pid !in w.workers || !w.workers[pid].at.Failing? then w
    else
      var k := w.workers[pid];
      var tx := CompensateTx(w.db, k.op);
      if busy || tx.Raise? then Gone(w, pid)
      else Put(w.(db := tx.docs), pid, Worker(tx.value, true, true, Calling))
  }

  ghost function QuarantineStep(w: World, pid: Pid, busy: bool): World {
    if pid !in w.workers || !w.workers[pid].at.Quarantining? then w
    else
      var k := w.workers[pid];
      var tx := FinishTx(w.db, k.op, None, Quarantined);
      if busy || tx.Raise? then Gone(w, pid)
      else Gone(w.(db := tx.docs, history := Completed(w, k, Quarantined, None)), pid)
  }

  // ----------------------------------------------------------------- executors

  ghost function PutE(w: World, e: Pid, at: ExecutorAt): World
    requires e in w.executors
  {
    w.(executors := w.executors[e := w.executors[e].(at := at)])
  }

  /** The helper exits; a parent still waiting for it sees its exit status. */
  ghost function Exit(w: World, e: Pid, ok: bool): World {
    w.(executors := w.executors - {e},
       workers := map p | p in w.workers ::
         if w.workers[p].at.Waiting? && w.workers[p].at.child == e
         then w.workers[p].(at := ChildDone(w.workers[p].at.nonce, ok)) else w.workers[p])
  }

  ghost function ClaimStep(w: World, e: Pid, binding: nat, bound: bool, enabled: bool): World {
    if e !in w.executors || !w.executors[e].at.Unclaimed? then w
    else
      var tx := ClaimTx(w.db, w.executors[e].nonce, w.now, binding, bound, enabled);
      if tx.Raise? then Exit(w, e, false) else PutE(w.(db := tx.docs), e, Claimed(tx.value))
  }

  ghost function ArmStep(w: World, e: Pid): World {
    if e !in w.executors || !w.executors[e].at.Claimed? then w
    else
      var claim := w.executors[e].at.claim;
      if claim.lease.instance !in w.timeouts then Exit(w, e, false)
      else PutE(w, e, Armed(claim, w.now + w.timeouts[claim.lease.instance]))
  }

  ghost function InspectStep(w: World, e: Pid): World {
    if e !in w.executors || !w.executors[e].at.Armed? then w
    else
      var x := w.executors[e].at;
      PutE(w, e, Inspected(x.claim, x.deadline, DaemonOf(w, x.claim.lease.instance)))
  }

  ghost function JournalStep(w: World, e: Pid): World {
    if e !in w.executors || !w.executors[e].at.Inspected? then w
    else
      var x := w.executors[e].at;
      var tx := JournalTx(w.db, x.claim, x.before, w.now);
      if tx.Raise? then Exit(w, e, false)
      else if tx.value.phase == Settled then
        PutE(w.(db := tx.docs, history := w.history.(settled := w.history.settled[x.claim.op.id := x.before])),
             e, Confirming(x.claim, x.deadline, tx.value))
      else PutE(w.(db := tx.docs), e, Journaled(x.claim, x.deadline, tx.value))
  }

  ghost function ClearStep(w: World, e: Pid): World {
    if e !in w.executors || !w.executors[e].at.Journaled? then w
    else
      var x := w.executors[e].at;
      if LaunchTx(w.db, x.claim, w.now).Raise? then Exit(w, e, false)
      else PutE(w, e, Cleared(x.claim, x.deadline, x.record))
  }

  /** The runner refuses a command whose time budget is already used up. */
  ghost function StartCommandStep(w: World, e: Pid): World {
    if e !in w.executors || !w.executors[e].at.Cleared? then w
    else
      var x := w.executors[e].at;
      if w.now >= x.deadline then Exit(w, e, false)
      else
        var o := x.claim.op.id;
        var settled := if o in w.history.settled then Some(w.history.settled[o]) else None;
        PutE(w.(history := w.history.(mutations := w.history.mutations +
                  [Mutation(x.claim, x.record.before, w.now, x.deadline, settled)])),
             e, Mutating(x.claim, x.deadline, x.record))
  }

  /** A synchronous success reply inside the time limit. */
  ghost function CommandReturnsStep(w: World, e: Pid, outcome: Obs): World {
    if e !in w.executors || !w.executors[e].at.Mutating? then w
    else
      var x := w.executors[e].at;
      if w.now > x.deadline then Exit(w, e, false)
      else PutE(w.(daemon := w.daemon[x.claim.lease.instance := outcome]), e,
                Acknowledged(x.claim, x.deadline, x.record))
  }

  ghost function ReinspectStep(w: World, e: Pid): World {
    if e !in w.executors || !w.executors[e].at.Acknowledged? then w
    else
      var x := w.executors[e].at;
      PutE(w, e, Reinspected(x.claim, x.deadline, x.record, DaemonOf(w, x.claim.lease.instance)))
  }

  ghost function SettleStep(w: World, e: Pid): World {
    if e !in w.executors || !w.executors[e].at.Reinspected? then w
    else
      var x := w.executors[e].at;
      var tx := ReportTx(w.db, x.claim, x.record, x.seen, Settled);
      if tx.Raise? then Exit(w, e, false)
      else PutE(w.(db := tx.docs, history := w.history.(settled := w.history.settled[x.claim.op.id := x.seen])),
                e, Confirming(x.claim, x.deadline, tx.value))
  }

  /** `driver.verify` and the identity comparison after it. */
  ghost function ConfirmStep(w: World, e: Pid): World {
    if e !in w.executors || !w.executors[e].at.Confirming? then w
    else
      var x := w.executors[e].at;
      var seen := DaemonOf(w, x.claim.lease.instance);
      if w.now < x.deadline && seen.state == x.record.desired && (seen.state == Stopped || seen.healthy == Some(true))
         && x.record.observation.Some? && SameRuntime(seen, x.record.observation.value)
      then PutE(w, e, Confirmed(x.claim, x.record, seen))
      else Exit(w, e, false)
  }

  ghost function ReportStep(w: World, e: Pid): World {
    if e !in w.executors || !w.executors[e].at.Confirmed? then w
    else
      var x := w.executors[e].at;
      var tx := ReportTx(w.db, x.claim, x.record, x.seen, Verified);
      if tx.Raise? then Exit(w, e, false) else Exit(w.(db := tx.docs), e, true)
  }

  ghost function KillExecutorStep(w: World, e: Pid): World {
    if e !in w.executors then w else Exit(w, e, false)
  }

  // --------------------------------------------------------------- environment

  ghost predicate Unanswered(at: ExecutorAt) {
    at.Unclaimed? || at.Claimed? || at.Armed? || at.Inspected? || at.Mutating?
  }

  /** The executor is another instance's, or is neither about to ask the daemon nor holds
      its reply. */
  ghost predicate MayStillRun(at: ExecutorAt, id: InstanceId) { Unanswered(at) || at.claim.lease.instance != id }

  /** While the journal says intent, a queued daemon request may still run, unless an
      executor of the instance already holds the synchronous reply. */
  ghost function LateEffectStep(w: World, id: InstanceId, outcome: Obs): World {
    if id in w.db.effects && w.db.effects[id].phase == Intent
       && (forall e | e in w.executors :: MayStillRun(w.executors[e].at, id))
    then w.(daemon := w.daemon[id := outcome]) else w
  }

  ghost function FlapStep(w: World, id: InstanceId, healthy: bool): World {
    w.(daemon := w.daemon[id := DaemonOf(w, id).(healthy := Some(healthy))])
  }

  /** Another writer changes the resource behind the authority's back. */
  ghost function ForeignStep(w: World, id: InstanceId, resource: SimResource, runtime: Obs): World {
    w.(sim := w.sim[id := resource], daemon := w.daemon[id := runtime])
  }

  ghost function AdvanceStep(w: World, delta: real): World {
    if delta > 0.0 then w.(now := w.now + delta) else w
  }

  // ------------------------------------------------------------------------ runs

  ghost function WorkerStep(w: World, pid: Pid, work: WorkerAct): World {
    match work
    case CallSimulation(fault) => CallSimulationStep(w, pid, fault)
    case MintLease(enabled, bound, nonce, binding) => MintStep(w, pid, enabled, bound, nonce, binding)
    case Spawn(child) => SpawnStep(w, pid, child)
    case ParentTimeout => ParentTimeoutStep(w, pid)
    case ReadBack => ReadBackStep(w, pid)
    case Fail => FailStep(w, pid)
    case CheckResult => CheckResultStep(w, pid)
    case Finish(busy) => FinishStep(w, pid, busy)
    case Compensate(busy) => CompensateStep(w, pid, busy)
    case Quarantine(busy) => QuarantineStep(w, pid, busy)
    case KillWorker => Gone(w, pid)
  }

  ghost function ExecutorStep(w: World, e: Pid, act: ExecutorAct): World {
    match act
    case ClaimLease(binding, bound, enabled) => ClaimStep(w, e, binding, bound, enabled)
    case Arm => ArmStep(w, e)
    case Inspect => InspectStep(w, e)
    case Journal => JournalStep(w, e)
    case Clear => ClearStep(w, e)
    case StartCommand => StartCommandStep(w, e)
    case CommandReturns(outcome) => CommandReturnsStep(w, e, outcome)
    case Reinspect => ReinspectStep(w, e)
    case Settle => SettleStep(w, e)
    case Confirm => ConfirmStep(w, e)
    case Report => ReportStep(w, e)
    case KillExecutor => KillExecutorStep(w, e)
  }

  ghost function Step(w: World, l: Label): World {
    match l
    case Client(_, _, _, _, _, _, _, _, _) => ClientStep(w, l)
    case Enroll(id) => EnrollStep(w, id)
    case Tick(pid, enabled) => TickStep(w, pid, enabled)
    case ByWorker(pid, work) => WorkerStep(w, pid, work)
    case ByExecutor(e, act) => ExecutorStep(w, e, act)
    case LateEffect(id, outcome) => LateEffectStep(w, id, outcome)
    case Flap(id, healthy) => FlapStep(w, id, healthy)
    case Advance(delta) => AdvanceStep(w, delta)
    case Foreign(id, resource, runtime) => ForeignStep(w, id, resource, runtime)
  }

  ghost function Run(w: World, labels: seq<Label>): World
    decreases |labels|
  {
    if labels == [] then w else Step(Run(w, labels[..|labels| - 1]), labels[|labels| - 1])
  }

  ghost predicate NoForeign(labels: seq<Label>) { forall l | l in labels :: !l.Foreign? }

  /** A freshly initialised store; the daemon may already be in any state. */
  ghost predicate Initial(w: World) {
    && w.db == EMPTY && w.sim == map[] && w.workers == map[] && w.executors == map[]
    && w.history == History([], [], [], 0, map[], [])
    && (forall id | id in w.timeouts :: 0.0 < w.timeouts[id] <= w.longest)
  }
}
