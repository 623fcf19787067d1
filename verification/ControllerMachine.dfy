/**
 The deployment controller and the launch grant authority as one machine: host
 administrators, executor processes and launch helpers, interleaved between store
 transactions. A deployment happens inside the transaction that authorised it.

 A step label carries everything the environment decides; a label that cannot happen
 leaves the world unchanged. A process may present any token whatever.
 */
module ControllerMachine {
  import opened Schema
  import opened ControllerModel

  type Pid = nat

  /** Where a process stands in `execute` or `_rollback`. */
  datatype At =
    | Starting                                   // about to enter "applying"
    | Deploying(restore: bool)                   // about to run the fenced effect
    | Deployed                                   // about to enter "verifying"
    | Inspecting(restore: bool)                  // about to verify
    | Recording(restore: bool, seen: Runtime)    // about to store the evidence
    | Committing(restore: bool, seen: Runtime)
    | Checking                                   // first transaction of `_rollback`
    | Retreating                                 // about to enter "rolling_back"
    | GivingUp                                   // about to record "rollback_failed"

  datatype Process = Process(token: Token, at: At)

  /** One call of `backend.deploy`. */
  datatype Deploy = Deploy(op: OpId, instance: InstanceId, restore: bool, spec: SpecHash, effective: bool)

  datatype Completion = Completion(op: Operation, phase: Phase, runtime: Runtime)

  /** One fence handed to one executor of one operation. */
  datatype Fencing = Fencing(instance: InstanceId, fence: nat, op: OpId, executor: Executor)

  /** What has happened so far; nothing in the system reads it. */
  datatype History = History(
    deploys: seq<Deploy>, completions: seq<Completion>, fences: set<Fencing>,
    enrolled: map<InstanceId, Spec>, ran: set<(InstanceId, SpecHash)>)

  /** `serial` is the next process identity the host would hand out. */
  datatype World = World(
    db: Db, runtimes: map<InstanceId, Runtime>, serial: nat, now: real,
    processes: map<Pid, Process>, history: History)

  /** What the environment answers during one step of a process. */
  datatype Answers = Answers(busy: bool, gate: bool, qualified: bool, owns: bool, sound: bool, takes: bool, raises: bool)

  datatype Label =
    | Register(id: InstanceId, registration: Registration, baseline: Spec, permitted: bool, qualified: bool, sound: bool, elsewhere: bool)
    | MakePlan(id: InstanceId, action: Action, candidate: Spec, seen: Runtime, budget: Budget, permitted: bool, qualified: bool, sound: bool)
    | Approve(plan: PlanId, nonce: Nonce, permitted: bool)
    | Cancel(plan: PlanId, permitted: bool)
    | Begin(plan: PlanId, nonce: Nonce, expected: Option<Action>, op: OpId, executor: Executor, permitted: bool, sound: bool)
    | Execute(pid: Pid, token: Token)
    | ByProcess(pid: Pid, answers: Answers)
    | Kill(pid: Pid)
    | ApproveRecovery(op: OpId, nonce: Nonce, ttl: nat, permitted: bool)
    | Recover(pid: Pid, op: OpId, nonce: Nonce, executor: Executor, permitted: bool, quiescent: bool)
    | Mint(token: Token, nonce: Nonce, command: string, owner: Uid, ttl: nat, permitted: bool)
    | Claim(nonce: Nonce, peer: Peer, command: string, lease: LeaseId, permitted: bool)
    | Retire(lease: LeaseId, peer: Peer, permitted: bool)
    | Advance(delta: real)
    | Foreign(id: InstanceId, runtime: Runtime)

  // --------------------------------------------------------------- administrators

  ghost function RegisterStep(w: World, l: Label): World
    requires l.Register?
  {
    if !l.permitted || l.id !in w.runtimes then w
    else
      var tx := RegisterTx(w.db, l.id, l.registration, l.baseline, w.runtimes[l.id], l.qualified, l.sound, l.elsewhere);
      if tx.Raise? then w
      else w.(db := tx.docs, history := w.history.(enrolled := w.history.enrolled[l.id := l.baseline]))
  }

  /** The observation was made before the transaction, so it may be any at all. */
  ghost function PlanStep(w: World, l: Label): World
    requires l.MakePlan?
  {
    if !l.permitted then w
    else w.(db := After(PlanTx(w.db, l.id, l.action, l.candidate, l.seen, l.budget, w.now, l.qualified, l.sound), w.db))
  }

  /** Secrets and identifiers are fresh. */
  ghost function ApproveStep(w: World, l: Label): World
    requires l.Approve?
  {
    if !l.permitted || l.nonce in w.db.approvals then w else w.(db := After(ApproveTx(w.db, l.plan, l.nonce, w.now), w.db))
  }

  ghost function CancelStep(w: World, l: Label): World
    requires l.Cancel?
  {
    if !l.permitted then w else w.(db := After(CancelTx(w.db, l.plan), w.db))
  }

  ghost function BeginStep(w: World, l: Label): World
    requires l.Begin?
  {
    if !l.permitted || l.op in w.db.operations || l.plan !in w.db.plans || w.db.plans[l.plan].instance !in w.runtimes then w
    else
      var seen := w.runtimes[w.db.plans[l.plan].instance];
      var tx := BeginTx(w.db, l.plan, l.nonce, l.expected, seen, l.sound, l.op, l.executor, w.now);
      if tx.Raise? then w
      else
        w.(db := tx.docs,
           history := w.history.(fences := w.history.fences +
                                  {Fencing(tx.value.instance, tx.value.fence, tx.value.id, tx.value.executor)}))
  }

  ghost function ApproveRecoveryStep(w: World, l: Label): World
    requires l.ApproveRecovery?
  {
    if !l.permitted || l.nonce in w.db.tickets then w
    else w.(db := After(ApproveRecoveryTx(w.db, l.op, l.nonce, l.ttl, w.now), w.db))
  }

  /** The recovering process goes straight on to `_rollback`. */
  ghost function RecoverStep(w: World, l: Label): World
    requires l.Recover?
  {
    if !l.permitted || l.pid in w.processes || l.op !in w.db.operations then w
    else
      var tx := RecoverTx(w.db, l.op, l.nonce, l.executor, l.quiescent, w.now);
      if tx.Raise? then w
      else
        w.(db := tx.docs, processes := w.processes[l.pid := Process(tx.value, Checking)],
           history := w.history.(fences := w.history.fences +
                                  {Fencing(w.db.operations[l.op].instance, tx.value.fence, l.op, l.executor)}))
  }

  // --------------------------------------------------------------------- processes

  ghost function ExecuteStep(w: World, pid: Pid, token: Token): World {
    if pid in w.processes then w else w.(processes := w.processes[pid := Process(token, Starting)])
  }

  ghost function Goto(w: World, pid: Pid, at: At): World
    requires pid in w.processes
  {
    w.(processes := w.processes[pid := w.processes[pid].(at := at)])
  }

  ghost function Gone(w: World, pid: Pid): World { w.(processes := w.processes - {pid}) }

  /** An exception inside `execute` leads to `_rollback`, inside `_rollback` to its
      handler. */
  ghost function Raised(w: World, pid: Pid, restore: bool): World
    requires pid in w.processes
  {
    Goto(w, pid, if restore then GivingUp else Checking)
  }

  /** `_phase(token, "applying")` stands before the `try`. */
  ghost function StartStep(w: World, pid: Pid, a: Answers): World
    requires pid in w.processes
  {
    var tx := PhaseTx(w.db, w.processes[pid].token, Applying);
    if a.busy || tx.Raise? then Gone(w, pid) else Goto(w.(db := tx.docs), pid, Deploying(false))
  }

  /** The deployment takes or does not take, and may raise either way. */
  ghost function DeployStep(w: World, pid: Pid, restore: bool, a: Answers): World
    requires pid in w.processes
  {
    var t := w.processes[pid].token;
    if a.busy || t.id !in w.db.operations || w.db.operations[t.id].instance !in w.runtimes then Raised(w, pid, restore)
    else
      var id := w.db.operations[t.id].instance;
      var tx := EffectTx(w.db, t, restore, w.runtimes[id], w.now, a.gate, a.qualified, a.owns, a.sound);
      if tx.Raise? then Raised(w, pid, restore)
      else
        var spec := Digest(tx.value);
        var w1 := w.(history := w.history.(deploys := w.history.deploys + [Deploy(t.id, id, restore, spec, a.takes)]));
        var w2 := if a.takes
                  then w1.(runtimes := w1.runtimes[id := Runtime(spec, w1.serial)], serial := w1.serial + 1,
                           history := w1.history.(ran := w1.history.ran + {(id, spec)}))
                  else w1;
        if a.raises then Raised(w2, pid, restore) else Goto(w2, pid, if restore then Inspecting(true) else Deployed)
  }

  ghost function VerifyingStep(w: World, pid: Pid, a: Answers): World
    requires pid in w.processes
  {
    var tx := PhaseTx(w.db, w.processes[pid].token, Verifying);
    if a.busy || tx.Raise? then Raised(w, pid, false) else Goto(w.(db := tx.docs), pid, Inspecting(false))
  }

  ghost function InspectStep(w: World, pid: Pid, restore: bool, a: Answers): World
    requires pid in w.processes
  {
    var t := w.processes[pid].token;
    if a.busy || t.id !in w.db.operations || w.db.operations[t.id].instance !in w.runtimes then Raised(w, pid, restore)
    else
      var tx := VerifyTx(w.db, t, restore, w.runtimes[w.db.operations[t.id].instance], w.now, a.owns, a.sound);
      if tx.Raise? then Raised(w, pid, restore) else Goto(w, pid, Recording(restore, tx.value))
  }

  ghost function RecordStep(w: World, pid: Pid, restore: bool, seen: Runtime, a: Answers): World
    requires pid in w.processes
  {
    var tx := EvidenceTx(w.db, w.processes[pid].token, seen);
    if a.busy || tx.Raise? then Raised(w, pid, restore) else Goto(w.(db := tx.docs), pid, Committing(restore, seen))
  }

  ghost function Completed(w: World, o: OpId, phase: Phase): History
    requires o in w.db.operations && w.db.operations[o].instance in w.runtimes
  {
    var op := w.db.operations[o];
    w.history.(completions := w.history.completions + [Completion(op, phase, w.runtimes[op.instance])])
  }

  ghost function CommitStep(w: World, pid: Pid, restore: bool, seen: Runtime, a: Answers): World
    requires pid in w.processes
  {
    var t := w.processes[pid].token;
    if a.busy || t.id !in w.db.operations || w.db.operations[t.id].instance !in w.runtimes then Raised(w, pid, restore)
    else
      var tx := CommitTx(w.db, t, restore, seen, w.runtimes[w.db.operations[t.id].instance], a.owns, a.sound);
      if tx.Raise? then Raised(w, pid, restore)
      else Gone(w.(db := tx.docs, history := Completed(w, t.id, if restore then RolledBack else Committed)), pid)
  }

  ghost function CheckStep(w: World, pid: Pid, a: Answers): World
    requires pid in w.processes
  {
    var t := w.processes[pid].token;
    if a.busy || t.id !in w.db.operations || w.db.operations[t.id].instance !in w.runtimes then Goto(w, pid, GivingUp)
    else
      var tx := UnchangedTx(w.db, t, w.runtimes[w.db.operations[t.id].instance], a.owns, a.sound);
      if tx.Raise? then Goto(w, pid, GivingUp)
      else if tx.value then Gone(w.(db := tx.docs, history := Completed(w, t.id, Unchanged)), pid)
      else Goto(w, pid, Retreating)
  }

  ghost function RetreatStep(w: World, pid: Pid, a: Answers): World
    requires pid in w.processes
  {
    var tx := PhaseTx(w.db, w.processes[pid].token, RollingBack);
    if a.busy || tx.Raise? then Goto(w, pid, GivingUp) else Goto(w.(db := tx.docs), pid, Deploying(true))
  }

  ghost function GiveUpStep(w: World, pid: Pid, a: Answers): World
    requires pid in w.processes
  {
    var tx := GiveUpTx(w.db, w.processes[pid].token);
    Gone(w.(db := if a.busy then w.db else After(tx, w.db)), pid)
  }

  ghost function ProcessStep(w: World, pid: Pid, a: Answers): World {
    if pid !in w.processes then w
    else
      match w.processes[pid].at
      case Starting => StartStep(w, pid, a)
      case Deploying(restore) => DeployStep(w, pid, restore, a)
      case Deployed => VerifyingStep(w, pid, a)
      case Inspecting(restore) => InspectStep(w, pid, restore, a)
      case Recording(restore, seen) => RecordStep(w, pid, restore, seen, a)
      case Committing(restore, seen) => CommitStep(w, pid, restore, seen, a)
      case Checking => CheckStep(w, pid, a)
      case Retreating => RetreatStep(w, pid, a)
      case GivingUp => GiveUpStep(w, pid, a)
  }

  // -------------------------------------------------------------- launch authority

  ghost function MintStep(w: World, l: Label): World
    requires l.Mint?
  {
    if !l.permitted || l.nonce in w.db.grants then w
    else w.(db := After(MintTx(w.db, l.token, l.nonce, l.command, l.owner, l.ttl, w.now), w.db))
  }

  ghost function ClaimStep(w: World, l: Label): World
    requires l.Claim?
  {
    if !l.permitted || l.lease in w.db.leases then w
    else w.(db := After(ClaimTx(w.db, l.nonce, l.peer, l.command, l.lease, w.now), w.db))
  }

  ghost function RetireStep(w: World, l: Label): World
    requires l.Retire?
  {
    if !l.permitted then w else w.(db := After(RetireTx(w.db, l.lease, l.peer), w.db))
  }

  // ------------------------------------------------------------------------- runs

  ghost function AdvanceStep(w: World, delta: real): World {
    if delta > 0.0 then w.(now := w.now + delta) else w
  }

  /** Someone else replaces the runtime. */
  ghost function ForeignStep(w: World, id: InstanceId, runtime: Runtime): World {
    w.(runtimes := w.runtimes[id := runtime], history := w.history.(ran := w.history.ran + {(id, runtime.spec)}))
  }

  ghost function Step(w: World, l: Label): World {
    match l
    case Register(_, _, _, _, _, _, _) => RegisterStep(w, l)
    case MakePlan(_, _, _, _, _, _, _, _) => PlanStep(w, l)
    case Approve(_, _, _) => ApproveStep(w, l)
    case Cancel(_, _) => CancelStep(w, l)
    case Begin(_, _, _, _, _, _, _) => BeginStep(w, l)
    case Execute(pid, token) => ExecuteStep(w, pid, token)
    case ByProcess(pid, answers) => ProcessStep(w, pid, answers)
    case Kill(pid) => Gone(w, pid)
    case ApproveRecovery(_, _, _, _) => ApproveRecoveryStep(w, l)
    case Recover(_, _, _, _, _, _) => RecoverStep(w, l)
    case Mint(_, _, _, _, _, _) => MintStep(w, l)
    case Claim(_, _, _, _, _) => ClaimStep(w, l)
    case Retire(_, _, _) => RetireStep(w, l)
    case Advance(delta) => AdvanceStep(w, delta)
    case Foreign(id, runtime) => ForeignStep(w, id, runtime)
  }

  ghost function Run(w: World, labels: seq<Label>): World
    decreases |labels|
  {
    if labels == [] then w else Step(Run(w, labels[..|labels| - 1]), labels[|labels| - 1])
  }

  ghost predicate NoForeign(labels: seq<Label>) { forall l | l in labels :: !l.Foreign? }

  /** A fresh store on a host where some runtimes already exist. */
  ghost predicate Initial(w: World) {
    && w.db == EMPTY && w.processes == map[]
    && w.history == History([], [], {}, map[], set id | id in w.runtimes :: (id, w.runtimes[id].spec))
    && (forall id | id in w.runtimes :: w.runtimes[id].identity < w.serial)
  }
}
