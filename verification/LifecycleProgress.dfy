/**
 Bookkeeping of pending operations and of the steps one tick takes.
 */
module LifecycleProgress {
  import opened Schema
  import opened LifecycleModel
  import opened LifecycleMachine
  import opened LifecycleFrames
  import opened LifecycleInvariants

  /** Every admitted operation is pending or has been completed, never both. */
  ghost predicate Balanced(w: World) {
    |PendingSet(w.db)| + |w.history.completions| == w.history.admitted
  }

  ghost predicate SamePending(db: Db, db': Db) {
    forall o :: o in PendingSet(db') <==> o in PendingSet(db)
  }

  lemma SamePendingIsSame(db: Db, db': Db)
    requires SamePending(db, db')
    ensures PendingSet(db') == PendingSet(db)
  {}

  /** What admission does to the queue. */
  ghost predicate Joins(db: Db, db': Db, joined: bool) {
    if joined then exists o :: o !in PendingSet(db) && PendingSet(db') == PendingSet(db) + {o}
    else PendingSet(db') == PendingSet(db)
  }

  ghost predicate Admitted(db: Db, change: Change, action: Action) {
    (action.Start? || action.Stop? || action.Recover?) && change.instance.operation.Some?
  }

  lemma RecoverJoins(db: Db, id: InstanceId)
    requires Coupling(db) && id in db.instances
    ensures var tx := RecoverTx(db, db.instances[id]);
            tx.Done? ==> tx.value.instance.operation.Some? && Joins(db, tx.docs, true)
  {
    var tx := RecoverTx(db, db.instances[id]);
    assert InstanceOk(db, id);
    if tx.Done? {
      var o := db.instances[id].operation.value;
      assert OperationOk(db, o);
      assert o !in PendingSet(db) && PendingSet(tx.docs) == PendingSet(db) + {o};
    }
  }

  lemma ChangeJoins(db: Db, uid: Uid, id: InstanceId, i: Instance, desired: RunState, host: Host, probe: Probe)
    requires probe.op !in db.operations
    ensures var tx := ChangeTx(db, uid, id, i, desired, host, probe);
            tx.Done? ==> Joins(db, tx.docs, tx.value.instance.operation.Some?)
  {
    var tx := ChangeTx(db, uid, id, i, desired, host, probe);
    if tx.Done? {
      if tx.value.instance.operation.Some? {
        assert probe.op !in PendingSet(db) && PendingSet(tx.docs) == PendingSet(db) + {probe.op};
      } else {
        assert PendingSet(tx.docs) == PendingSet(db);
      }
    }
  }

  lemma ActionJoins(db: Db, uid: Uid, req: Request, host: Host, probe: Probe)
    requires Coupling(db) && !req.action.Create? && req.instance in db.instances && probe.op !in db.operations
    ensures var tx := ActionTx(db, uid, req, db.instances[req.instance], host, probe);
            tx.Done? ==> Joins(db, tx.docs, Admitted(db, tx.value, req.action))
  {
    hide Coupling, ChangeTx, RecoverTx;
    var i := db.instances[req.instance];
    var tx := ActionTx(db, uid, req, i, host, probe);
    if req.action.Recover? { RecoverJoins(db, req.instance); }
    else if req.action.Start? { ChangeJoins(db, uid, req.instance, i, Running, host, probe); }
    else if req.action.Stop? { ChangeJoins(db, uid, req.instance, i, Stopped, host, probe); }
    else if tx.Done? { SamePendingIsSame(db, tx.docs); }
  }

  lemma AdmitJoins(db: Db, uid: Uid, req: Request, host: Host, probe: Probe)
    requires Coupling(db) && probe.op !in db.operations
    ensures var db' := After(AdmitTx(db, uid, req, host, probe), db); Joins(db, db', Admits(db, db', uid, req))
  {
    var tx := AdmitTx(db, uid, req, host, probe);
    if tx.Done? && Key(uid, req.id) !in db.requests && !req.action.Create? {
      ActionJoins(db, uid, req, host, probe);
      var inner := ActionTx(db, uid, req, db.instances[req.instance], host, probe);
      assert tx.docs.operations == inner.docs.operations;
      assert PendingSet(tx.docs) == PendingSet(inner.docs);
    } else {
      assert PendingSet(After(tx, db)) == PendingSet(db);
    }
  }

  lemma ClientKeepsBalanced(w: World, l: Label)
    requires Safe(w) && Balanced(w) && l.Client?
    ensures Balanced(ClientStep(w, l))
  {
    hide WorkerOk, ExecutorOk, DaemonOf, SimOf, PolicyHolds, AdminOnly, ActionTx, View, PutOnce, Live, Matches,
      Target, Holds, HasNonce, WorkerLease, Proven, Current, ClaimOk, Owns, RecordOk, WroteSettled, SameRuntime,
      RuntimeIn, ApproveTx, TransferTx, RecoverTx, ChangeTx, MutateTx, Record, Terminal, OperationOk, InstanceOk,
      LeaseOk, EffectOk, Coupling, Journaling, Exclusive, Processes;
    var w' := ClientStep(w, l);
    if ValidHost(l.host) && l.uuid !in w.db.operations {
      var probe := ProbeFor(w, l);
      var mid := After(AdmitTx(w.db, l.uid, l.req, l.host, probe), w.db);
      AdmitJoins(w.db, l.uid, l.req, l.host, probe);
      if w'.db != w.db && !l.busy {
        assert PendingSet(w'.db) == PendingSet(mid);
        assert Admits(w.db, w'.db, l.uid, l.req) == Admits(w.db, mid, l.uid, l.req);
      }
    }
  }

  lemma TickOnKeepsBalanced(w: World, pid: Pid, o: OpId, enabled: bool)
    requires Balanced(w) && Pending(w.db, o) && w.db.operations[o].id == o
    ensures Balanced(TickOn(w, pid, o, enabled))
  {
    SamePendingIsSame(w.db, TickOn(w, pid, o, enabled).db);
  }

  lemma TickKeepsBalanced(w: World, pid: Pid, enabled: bool)
    requires Safe(w) && Balanced(w)
    ensures Balanced(TickStep(w, pid, enabled))
  {
    hide Journaling, Processes, Balanced, TickOn;
    if LockFree(w) && exists o :: FirstPending(w.db, o) {
      var o :| FirstPending(w.db, o) && TickStep(w, pid, enabled) == TickOn(w, pid, o, enabled);
      assert OperationOk(w.db, o);
      TickOnKeepsBalanced(w, pid, o, enabled);
    }
  }

  /** A completed operation leaves the queue, and nothing else does. */
  lemma FinishLeaves(db: Db, op: Operation, observation: Option<Obs>, phase: Phase)
    requires Coupling(db) && Holds(db, op) && op.phase in {Applying, RollingBack} && Terminal(phase)
    requires phase != Quarantined ==> observation.Some?
    ensures FinishTx(db, op, observation, phase).Done?
    ensures op.id in PendingSet(db)
    ensures PendingSet(FinishTx(db, op, observation, phase).docs) == PendingSet(db) - {op.id}
  {
    FinishKeepsCoupling(db, op, observation, phase);
  }

  lemma FinishKeepsBalanced(w: World, pid: Pid, busy: bool)
    requires Safe(w) && Balanced(w)
    ensures Balanced(FinishStep(w, pid, busy))
  {
    hide Target, OperationOk, InstanceOk, LeaseOk, EffectOk, ExecutorOk, Terminal, Actual, Live, Matches, KindOf,
      Current, ClaimOk, Owns, RecordOk, WroteSettled, SameRuntime, DaemonOf, SimOf, Coupling, Journaling;
    if pid in w.workers && w.workers[pid].at.Checked? && !busy {
      var k := w.workers[pid];
      assert WorkerOk(w.db, k);
      FinishLeaves(w.db, k.op, Some(k.at.result), if k.restore then RolledBack else Committed);
    }
  }

  lemma CompensateKeepsBalanced(w: World, pid: Pid, busy: bool)
    requires Safe(w) && Balanced(w)
    ensures Balanced(CompensateStep(w, pid, busy))
  {
    hide Matches, KindOf, Current, ClaimOk, Owns, RecordOk, WroteSettled, SameRuntime, Target, OperationOk,
      InstanceOk, LeaseOk;
    if pid in w.workers && w.workers[pid].at.Failing? && !busy {
      var k := w.workers[pid];
      assert WorkerOk(w.db, k);
      SamePendingIsSame(w.db, CompensateTx(w.db, k.op).docs);
    }
  }

  lemma QuarantineKeepsBalanced(w: World, pid: Pid, busy: bool)
    requires Safe(w) && Balanced(w)
    ensures Balanced(QuarantineStep(w, pid, busy))
  {
    hide OperationOk, InstanceOk, LeaseOk, EffectOk, ExecutorOk, Terminal, Actual, Live, Matches, KindOf, Current,
      ClaimOk, Owns, RecordOk, WroteSettled, SameRuntime, DaemonOf, SimOf, Holds, HasNonce, WorkerLease, Proven,
      Target, Coupling, Journaling, PendingSet, FinishTx;
    if pid in w.workers && w.workers[pid].at.Quarantining? && !busy {
      var k := w.workers[pid];
      assert WorkerOk(w.db, k);
      FinishLeaves(w.db, k.op, None, Quarantined);
    }
  }

  /** Everything else leaves operations and completions alone. */
  lemma OtherKeepsBalanced(w: World, w': World)
    requires Balanced(w) && w'.db.operations == w.db.operations
    requires w'.history.completions == w.history.completions && w'.history.admitted == w.history.admitted
    ensures Balanced(w')
  {
    SamePendingIsSame(w.db, w'.db);
  }

  lemma WorkerStepKeepsBalanced(w: World, pid: Pid, work: WorkerAct)
    requires Safe(w) && Balanced(w)
    ensures Balanced(WorkerStep(w, pid, work))
  {
    hide Safe, Balanced;
    match work
    case Finish(busy) => FinishKeepsBalanced(w, pid, busy);
    case Compensate(busy) => CompensateKeepsBalanced(w, pid, busy);
    case Quarantine(busy) => QuarantineKeepsBalanced(w, pid, busy);
    case _ =>
      WorkerFrame(w, pid, work);
      OtherKeepsBalanced(w, WorkerStep(w, pid, work));
  }

  lemma StepKeepsBalanced(w: World, l: Label)
    requires Safe(w) && Balanced(w)
    ensures Balanced(Step(w, l))
  {
    hide Safe, Balanced, ParentTimeoutStep, ReadBackStep, FailStep, CheckResultStep, FinishStep, CompensateStep,
      QuarantineStep, Gone, Unanswered, DaemonOf, ClaimTx, Exit, PutE, JournalTx, LaunchTx, ReportTx, SameRuntime,
      Live, Matches, KindOf, Target, Holds, HasNonce, WorkerLease, Proven, Current, ClaimOk, Owns, RecordOk,
      WroteSettled, Distinct, AdmitTx, Actual, Pending, ReserveTx, Put, SimChangeTx, Failed, MintTx, ReadBackTx,
      FinishTx, Completed, CompensateTx, RuntimeIn, Owned, Admissible, ReinspectStep, SettleStep, ConfirmStep,
      ReportStep, KillExecutorStep, OperationOk, InstanceOk, LeaseOk, EffectOk, WorkerOk, ExecutorOk, Terminal,
      ValidHost, Dispatch, ProbeFor, Admits, AlreadyDone, LockFree, FirstPending, TickOn, CallSimulationStep,
      MintStep, SpawnStep, LateEffectStep, FlapStep, AdvanceStep, ForeignStep, ClaimStep, ArmStep, InspectStep,
      JournalStep, ClearStep, StartCommandStep, CommandReturnsStep;
    match l
    case Client(_, _, _, _, _, _, _, _, _) => ClientKeepsBalanced(w, l);
    case Enroll(id) => OtherKeepsBalanced(w, EnrollStep(w, id));
    case Tick(pid, enabled) => TickKeepsBalanced(w, pid, enabled);
    case ByWorker(pid, work) => WorkerStepKeepsBalanced(w, pid, work);
    case ByExecutor(e, act) =>
      ExecutorFrame(w, e, act);
      OtherKeepsBalanced(w, ExecutorStep(w, e, act));
    case _ =>
      EnvironmentFrame(w, l);
      OtherKeepsBalanced(w, Step(w, l));
  }

  lemma {:induction false} RunKeepsBalanced(w: World, labels: seq<Label>)
    requires Safe(w) && Balanced(w)
    ensures Balanced(Run(w, labels))
    decreases |labels|
  {
    if labels != [] {
      var before := labels[..|labels| - 1];
      RunKeepsBalanced(w, before);
      RunKeepsSafe(w, before);
      StepKeepsBalanced(Run(w, before), labels[|labels| - 1]);
    }
  }

  // ------------------------------------------------------------- one tick ends

  /** How many own steps a worker has left; a compensating call starts over once. */
  ghost function StepsLeft(k: Worker): nat {
    (if k.second then 0 else 10) +
    match k.at
    case Calling => 8
    case Minted(_) => 7
    case Waiting(_, _, _) => 6
    case ChildDone(_, _) => 5
    case Returned(_) => 4
    case Checked(_) => 3
    case Failing => 2
    case Quarantining => 1
  }

  /** Every step a worker takes brings the tick closer to its end, and a tick that ends
      without a crash or a busy store has completed exactly its own operation. */
  ghost predicate Advances(w: World, w': World, pid: Pid)
    requires pid in w.workers
  {
    var o := w.workers[pid].op.id;
    if pid in w'.workers then
      && StepsLeft(w'.workers[pid]) < StepsLeft(w.workers[pid]) && w'.workers[pid].op.id == o
      && PendingSet(w'.db) == PendingSet(w.db) && w'.history.completions == w.history.completions
    else
      && |w'.history.completions| == |w.history.completions| + 1
      && o in PendingSet(w.db) && PendingSet(w'.db) == PendingSet(w.db) - {o}
  }

  ghost predicate Interrupted(work: WorkerAct) {
    work.KillWorker? || (work.Compensate? && work.busy) || (work.Quarantine? && work.busy)
  }

  lemma QuietAdvances(w: World, w': World, pid: Pid)
    requires pid in w.workers && pid in w'.workers && SameWork(w, w')
    requires StepsLeft(w'.workers[pid]) < StepsLeft(w.workers[pid]) && w'.workers[pid].op.id == w.workers[pid].op.id
    ensures Advances(w, w', pid)
  {
    SamePendingIsSame(w.db, w'.db);
  }

  lemma CallSimulationAdvances(w: World, pid: Pid, fault: bool)
    requires pid in w.workers && CallSimulationStep(w, pid, fault) != w
    ensures Advances(w, CallSimulationStep(w, pid, fault), pid)
  {
    CallSimulationFrame(w, pid, fault);
    QuietAdvances(w, CallSimulationStep(w, pid, fault), pid);
  }

  lemma MintAdvances(w: World, pid: Pid, enabled: bool, bound: bool, nonce: Nonce, binding: nat)
    requires pid in w.workers && MintStep(w, pid, enabled, bound, nonce, binding) != w
    ensures Advances(w, MintStep(w, pid, enabled, bound, nonce, binding), pid)
  {
    MintFrame(w, pid, enabled, bound, nonce, binding);
    QuietAdvances(w, MintStep(w, pid, enabled, bound, nonce, binding), pid);
  }

  lemma SpawnAdvances(w: World, pid: Pid, child: Pid)
    requires pid in w.workers && SpawnStep(w, pid, child) != w
    ensures Advances(w, SpawnStep(w, pid, child), pid)
  {
    SpawnFrame(w, pid, child);
    QuietAdvances(w, SpawnStep(w, pid, child), pid);
  }

  lemma ParentTimeoutAdvances(w: World, pid: Pid)
    requires pid in w.workers && ParentTimeoutStep(w, pid) != w
    ensures Advances(w, ParentTimeoutStep(w, pid), pid)
  {
    ParentTimeoutFrame(w, pid);
    QuietAdvances(w, ParentTimeoutStep(w, pid), pid);
  }

  lemma ReadBackAdvances(w: World, pid: Pid)
    requires pid in w.workers && ReadBackStep(w, pid) != w
    ensures Advances(w, ReadBackStep(w, pid), pid)
  {
    ReadBackFrame(w, pid);
    QuietAdvances(w, ReadBackStep(w, pid), pid);
  }

  lemma FailAdvances(w: World, pid: Pid)
    requires pid in w.workers && FailStep(w, pid) != w
    ensures Advances(w, FailStep(w, pid), pid)
  {
    FailFrame(w, pid);
    QuietAdvances(w, FailStep(w, pid), pid);
  }

  lemma CheckResultAdvances(w: World, pid: Pid)
    requires pid in w.workers && CheckResultStep(w, pid) != w
    ensures Advances(w, CheckResultStep(w, pid), pid)
  {
    hide Advances, SimOf, Terminal, RuntimeIn;
    CheckResultFrame(w, pid);
    QuietAdvances(w, CheckResultStep(w, pid), pid);
  }

  lemma FinishAdvances(w: World, pid: Pid, busy: bool)
    requires Safe(w) && pid in w.workers && FinishStep(w, pid, busy) != w
    ensures Advances(w, FinishStep(w, pid, busy), pid)
  {
    hide Journaling, Coupling, Exclusive, HasNonce, WorkerLease, Proven, Target, ExecutorOk, Actual, Terminal, KindOf,
      Live, Matches, Current, ClaimOk, Owns, RecordOk, WroteSettled, SameRuntime, DaemonOf, SimOf, LeaseOk, EffectOk,
      OperationOk, InstanceOk, Holds, FinishTx, PendingSet, RuntimeIn;
    var k := w.workers[pid];
    assert WorkerOk(w.db, k);
    FinishLeaves(w.db, k.op, Some(k.at.result), if k.restore then RolledBack else Committed);
  }

  lemma CompensateAdvances(w: World, pid: Pid)
    requires Safe(w) && pid in w.workers && CompensateStep(w, pid, false) != w
    ensures Advances(w, CompensateStep(w, pid, false), pid)
  {
    var k := w.workers[pid];
    assert WorkerOk(w.db, k);
    SamePendingIsSame(w.db, CompensateTx(w.db, k.op).docs);
  }

  lemma QuarantineAdvances(w: World, pid: Pid)
    requires Safe(w) && pid in w.workers && QuarantineStep(w, pid, false) != w
    ensures Advances(w, QuarantineStep(w, pid, false), pid)
  {
    var k := w.workers[pid];
    assert WorkerOk(w.db, k);
    FinishLeaves(w.db, k.op, None, Quarantined);
  }

  lemma TickAdvances(w: World, pid: Pid, work: WorkerAct)
    requires Safe(w) && pid in w.workers && WorkerStep(w, pid, work) != w && !Interrupted(work)
    ensures Advances(w, WorkerStep(w, pid, work), pid)
  {
    match work
    case Finish(busy) => FinishAdvances(w, pid, busy);
    case Compensate(_) => CompensateAdvances(w, pid);
    case Quarantine(_) => QuarantineAdvances(w, pid);
    case CallSimulation(fault) => CallSimulationAdvances(w, pid, fault);
    case MintLease(enabled, bound, nonce, binding) => MintAdvances(w, pid, enabled, bound, nonce, binding);
    case Spawn(child) => SpawnAdvances(w, pid, child);
    case ParentTimeout => ParentTimeoutAdvances(w, pid);
    case ReadBack => ReadBackAdvances(w, pid);
    case Fail => FailAdvances(w, pid);
    case CheckResult => CheckResultAdvances(w, pid);
  }
}
