/**
 What holds of every run of the lifecycle machine that starts from a fresh store.
 */
module LifecycleTheorems {
  import opened Schema
  import opened LifecycleModel
  import opened LifecycleMachine
  import opened LifecycleFrames
  import opened LifecycleInvariants
  import opened LifecycleAgreement
  import opened LifecycleHistory
  import opened LifecycleQuarantine
  import opened LifecycleProgress
  import opened LifecycleAdmission
  import opened LifecycleEndings

  lemma InitialFaithful(w: World)
    requires Initial(w)
    ensures Faithful(w)
  {}

  lemma ReachableSafe(w: World, labels: seq<Label>)
    requires Initial(w)
    ensures Safe(Run(w, labels)) && Accounted(Run(w, labels))
    ensures NoForeign(labels) ==> Faithful(Run(w, labels))
  {
    hide Initial, Safe, Run, Accounted, NoForeign, Faithful, Coupling, Journaling, Exclusive, Processes, Step, Ledger,
      WorkerAccounted, ExecutorAccounted, RowTrue, SimLeftBy, WorkerTrue, ExecutorTrue, CompletionTrue, OperationOk,
      InstanceOk, LeaseOk, EffectOk, WorkerOk, ExecutorOk, ClientStep, EnrollStep, TickStep, WorkerStep, ExecutorStep,
      LateEffectStep, FlapStep, AdvanceStep, ForeignStep, Log, Settlements, Minting, Queue, Untried, MintedBy,
      AboutToMutate, Justified, SettledFor, MayStillMutate, NoForwardYet, BeforeJournal, RecordedOk, SimTracked,
      DaemonTracked, Reads, Actual, SimOf, SameRuntime, DaemonOf, Live, Matches, KindOf, Target, Holds, HasNonce,
      WorkerLease, Proven, Current, ClaimOk, Owns, RecordOk, WroteSettled, ValidHost, Dispatch, ProbeFor, Admits,
      AlreadyDone, LockFree, FirstPending, TickOn, CallSimulationStep, MintStep, SpawnStep, ParentTimeoutStep,
      ReadBackStep, FailStep, CheckResultStep, FinishStep, CompensateStep, QuarantineStep, Gone, ClaimStep, ArmStep,
      InspectStep, JournalStep, ClearStep, StartCommandStep, CommandReturnsStep, ReinspectStep, SettleStep,
      ConfirmStep, ReportStep, KillExecutorStep, Unanswered, MutationOk, Unrepeated, GiveUpOk, Forward, RuntimeIn;
    InitialSafe(w);
    InitialAccounted(w);
    InitialFaithful(w);
    RunKeepsSafe(w, labels);
    RunKeepsAccounted(w, labels);
    if NoForeign(labels) { RunKeepsFaithful(w, labels); }
  }

  // ------------------------------------------------------------------ agreement

  /** How an operation with a final phase ended, and what its resource showed then. */
  ghost predicate EndedTrue(w: World, op: Operation) {
    && (op.phase == Committed ==>
          exists c | c in w.history.completions + w.history.already :: Records(c, op) && c.actual.state == op.desired)
    && (op.phase == RolledBack ==>
          exists c | c in w.history.completions :: Records(c, op) && c.actual.state == op.baseline.state)
  }

  lemma RecordIsTrue(w: World, op: Operation)
    requires op.phase == Committed ==> Recorded(w.history.completions + w.history.already, op)
    requires op.phase == RolledBack ==> Recorded(w.history.completions, op)
    requires (forall c | c in w.history.already :: WasDone(c)) && (forall c | c in w.history.completions :: CompletionTrue(c))
    ensures EndedTrue(w, op)
  {
    var all := w.history.completions + w.history.already;
    if op.phase == Committed {
      var c :| c in all && Records(c, op);
      assert c in w.history.completions || c in w.history.already;
      assert c.op.desired == op.desired;
    }
    if op.phase == RolledBack {
      var c :| c in w.history.completions && Records(c, op);
      assert c.op.baseline == op.baseline;
    }
  }

  lemma OneEnded(w: World, o: OpId)
    requires Closed(w) && o in w.db.operations
    ensures var op := w.db.operations[o];
            && (op.phase == Committed ==> Recorded(w.history.completions + w.history.already, op))
            && (op.phase == RolledBack ==> Recorded(w.history.completions, op))
            && (forall c | c in w.history.already :: WasDone(c))
  {}

  /** Without a foreign writer, and whatever crashes, busy stores, failed effects and
      late daemon replies happen: an approved instance with no operation records its
      resource as it is, every committed operation ended with its resource in the desired
      state, at its completion or because it was so on admission, and every rolled back one
      in its baseline state. */
  lemma CrashSafeAgreement(w: World, labels: seq<Label>)
    requires Initial(w) && NoForeign(labels)
    ensures var w' := Run(w, labels);
            && (forall id | id in w'.db.instances && Approved(w'.db.instances[id].state) && w'.db.instances[id].operation.None? ::
                  var i := w'.db.instances[id];
                  && i.observation.Some?
                  && Reads(KindOf(i), i.observation.value, Actual(w', id, KindOf(i)))
                  && i.state == Idle(Actual(w', id, KindOf(i)).state))
            && (forall o | o in w'.db.operations :: EndedTrue(w', w'.db.operations[o]))
            && (forall c | c in w'.history.completions && c.phase == Committed :: c.actual.state == c.op.desired)
            && (forall c | c in w'.history.completions && c.phase == RolledBack :: c.actual.state == c.op.baseline.state)
  {
    hide Justified, SettledFor, MayStillMutate, NoForwardYet, BeforeJournal, WasDone, ValidHost, Dispatch, ProbeFor,
      Admits, AlreadyDone, LockFree, FirstPending, TickOn, CallSimulationStep, MintStep, SpawnStep, ParentTimeoutStep,
      ReadBackStep, FailStep, CheckResultStep, FinishStep, CompensateStep, QuarantineStep, Gone, ClaimStep, ArmStep,
      InspectStep, JournalStep, ClearStep, StartCommandStep, CommandReturnsStep, ReinspectStep, SettleStep,
      ConfirmStep, ReportStep, KillExecutorStep, Unanswered, Target, Holds, HasNonce, WorkerLease, Proven, Current,
      ClaimOk, Owns, RecordOk, WroteSettled, MutationOk, Unrepeated, GiveUpOk, Forward, SimLeftBy, WorkerTrue,
      ExecutorTrue, Ended, ClientStep, EnrollStep, TickStep, WorkerStep, ExecutorStep, LateEffectStep, FlapStep,
      AdvanceStep, ForeignStep, RuntimeIn, OperationOk, LeaseOk, EffectOk, WorkerOk, ExecutorOk, Log, Settlements,
      Minting, Queue, Untried, MintedBy, AboutToMutate;
    ReachableSafe(w, labels);
    ReachableClosed(w, labels);
    var w' := Run(w, labels);
    forall id | id in w'.db.instances && Approved(w'.db.instances[id].state) && w'.db.instances[id].operation.None?
      ensures var i := w'.db.instances[id];
              && i.observation.Some?
              && Reads(KindOf(i), i.observation.value, Actual(w', id, KindOf(i)))
              && i.state == Idle(Actual(w', id, KindOf(i)).state)
    {
      assert InstanceOk(w'.db, id) && RowTrue(w', id);
    }
    forall c | c in w'.history.completions
      ensures CompletionTrue(c)
    {}
    hide Safe, Accounted, Faithful, Closed, EndedTrue, Recorded, Run, Initial;
    forall o | o in w'.db.operations
      ensures EndedTrue(w', w'.db.operations[o])
    {
      OneEnded(w', o);
      RecordIsTrue(w', w'.db.operations[o]);
    }
  }

  lemma ReachableClosed(w: World, labels: seq<Label>)
    requires Initial(w)
    ensures Closed(Run(w, labels))
  {
    hide CallSimulationStep, MintStep, SpawnStep, ParentTimeoutStep, ReadBackStep, FailStep, CheckResultStep,
      FinishStep, CompensateStep, QuarantineStep, Gone, ClaimStep, ArmStep, InspectStep, JournalStep, ClearStep,
      StartCommandStep, CommandReturnsStep, ReinspectStep, SettleStep, ConfirmStep, ReportStep, KillExecutorStep,
      Unanswered, DaemonOf, LateEffectStep, FlapStep, AdvanceStep, ForeignStep, Records, ValidHost, Dispatch,
      ProbeFor, Admits, AlreadyDone, LockFree, FirstPending, TickOn, WasDone, ClientStep, EnrollStep, TickStep,
      WorkerStep, ExecutorStep, Step, Recorded;
    InitialSafe(w);
    RunKeepsClosed(w, labels);
  }

  /** A worker about to call the simulation is never refused. */
  lemma SimulationAccepts(w: World, labels: seq<Label>, pid: Pid)
    requires Initial(w) && NoForeign(labels) && pid in Run(w, labels).workers
    requires var k := Run(w, labels).workers[pid]; k.at.Calling? && k.op.policy.content.backend == Simulation
    ensures var w' := Run(w, labels);
            var k := w'.workers[pid];
            k.op.fence.Some? && SimChangeTx(w'.sim, k.op.instance, k.op, k.restore).Done?
  {
    hide ValidHost, Dispatch, ProbeFor, Admits, AlreadyDone, LockFree, FirstPending, TickOn, CallSimulationStep,
      MintStep, SpawnStep, ParentTimeoutStep, ReadBackStep, FailStep, CheckResultStep, FinishStep, CompensateStep,
      QuarantineStep, Gone, ClaimStep, ArmStep, InspectStep, JournalStep, ClearStep, StartCommandStep,
      CommandReturnsStep, ReinspectStep, SettleStep, ConfirmStep, ReportStep, KillExecutorStep, Unanswered, RuntimeIn;
    ReachableSafe(w, labels);
    var w' := Run(w, labels);
    var k := w'.workers[pid];
    assert WorkerOk(w'.db, k) && WorkerTrue(w', k);
    assert OperationOk(w'.db, k.op.id) && RowTrue(w', k.op.instance);
  }

  /** An executor that inspected the daemon never finds a foreign runtime. */
  lemma RuntimeIsNeverForeign(w: World, labels: seq<Label>, e: Pid)
    requires Initial(w) && NoForeign(labels) && e in Run(w, labels).executors && Run(w, labels).executors[e].at.Inspected?
    ensures var w' := Run(w, labels);
            var x := w'.executors[e].at;
            JournalTx(w'.db, x.claim, x.before, w'.now) != Raise(ExternalOwnershipLost)
  {
    hide Initial, NoForeign, Run, JournalTx, Step, Owned, Admissible, Target, ClientStep, EnrollStep, TickStep,
      WorkerStep, ExecutorStep, LateEffectStep, FlapStep, AdvanceStep, ForeignStep, SameRuntime, ValidHost, Dispatch,
      ProbeFor, Admits, AlreadyDone, LockFree, FirstPending, TickOn, CallSimulationStep, MintStep, SpawnStep,
      ParentTimeoutStep, ReadBackStep, FailStep, CheckResultStep, FinishStep, CompensateStep, QuarantineStep, Gone,
      ClaimStep, ArmStep, InspectStep, JournalStep, ClearStep, StartCommandStep, CommandReturnsStep, ReinspectStep,
      SettleStep, ConfirmStep, ReportStep, KillExecutorStep, Unanswered, DaemonOf;
    ReachableSafe(w, labels);
    var w' := Run(w, labels);
    InspectionIsAdmissible(w', e);
  }

  lemma InspectionIsAdmissible(w: World, e: Pid)
    requires Safe(w) && Faithful(w) && Accounted(w) && e in w.executors && w.executors[e].at.Inspected?
    ensures var x := w.executors[e].at; JournalTx(w.db, x.claim, x.before, w.now) != Raise(ExternalOwnershipLost)
  {
    hide SimOf, Log, Settlements, Minting, Queue, MintedBy, RuntimeIn, Forward, KindOf, Holds, HasNonce, WorkerLease,
      Proven, MutationOk, Unrepeated, GiveUpOk, Ledger, WorkerAccounted, MayStillMutate, NoForwardYet;
    var x := w.executors[e];
    var id := x.at.claim.lease.instance;
    assert ExecutorOk(w.db, x) && ExecutorTrue(w, x) && ExecutorAccounted(w, x);
    assert RowTrue(w, id) && InstanceOk(w.db, id);
  }

  // -------------------------------------------------------- the backend contract

  /** The step that hands a result back to `tick` hands back a resource verified to be
      in the desired or the baseline state, for either backend. */
  lemma NormalReturnMeansTarget(w: World, labels: seq<Label>, pid: Pid, work: WorkerAct)
    requires Initial(w) && NoForeign(labels) && pid in Run(w, labels).workers
    requires work.CallSimulation? || work.ReadBack?
    requires var w' := WorkerStep(Run(w, labels), pid, work); pid in w'.workers && w'.workers[pid].at.Returned?
    requires !Run(w, labels).workers[pid].at.Returned?
    ensures var w' := WorkerStep(Run(w, labels), pid, work);
            var k := w'.workers[pid];
            var kind := k.op.policy.content.backend;
            && k.at.result.state == Target(k.op, k.restore)
            && Reads(kind, k.at.result, Actual(w', k.op.instance, kind))
  {
    hide Put, Failed, MintTx, ReadBackTx, FinishTx, Completed, CompensateTx, RuntimeIn, ValidHost, Dispatch, ProbeFor,
      Admits, AlreadyDone, LockFree, FirstPending, TickOn, ClaimStep, ArmStep, InspectStep, JournalStep, ClearStep,
      StartCommandStep, CommandReturnsStep, ReinspectStep, SettleStep, ConfirmStep, ReportStep, KillExecutorStep,
      Unanswered, Owned, PutOnce, FinishStep, CompensateStep, QuarantineStep, Gone, SameRuntime, DaemonOf, SimOf,
      ClientStep, EnrollStep, TickStep, ExecutorStep, LateEffectStep, FlapStep, AdvanceStep, ForeignStep, SimChangeTx,
      Step, CallSimulationStep, MintStep, SpawnStep, ParentTimeoutStep, ReadBackStep, FailStep, CheckResultStep,
      Initial, NoForeign, Run;
    ReachableSafe(w, labels);
    var v := Run(w, labels);
    if work.CallSimulation? { SimulationReturns(v, pid, work.fault); } else { ProductionReturns(v, pid); }
  }

  lemma SimChangeReturns(sim: map<InstanceId, SimResource>, id: InstanceId, op: Operation, restore: bool)
    requires op.fence.Some?
    ensures var tx := SimChangeTx(sim, id, op, restore);
            tx.Done? ==> tx.value.state == Target(op, restore) && SimOf(tx.docs, id).observation == tx.value
  {}

  lemma SimulationReturns(w: World, pid: Pid, fault: bool)
    requires Safe(w) && pid in w.workers && !w.workers[pid].at.Returned?
    requires var w' := CallSimulationStep(w, pid, fault); pid in w'.workers && w'.workers[pid].at.Returned?
    ensures var w' := CallSimulationStep(w, pid, fault);
            var k := w'.workers[pid];
            k.at.result.state == Target(k.op, k.restore) && Reads(Simulation, k.at.result, Actual(w', k.op.instance, Simulation))
            && k.op.policy.content.backend == Simulation
  {
    hide Safe, SimChangeTx, SimOf, Target, SameRuntime;
    var k := w.workers[pid];
    if k.op.fence.Some? { SimChangeReturns(w.sim, k.op.instance, k.op, k.restore); }
  }

  lemma ReadBackReturns(db: Db, op: Operation, restore: bool)
    ensures var tx := ReadBackTx(db, op, restore);
            tx.Done? ==>
              && op.fence.Some? && Owned(db, op.id, op.fence.value) && op.instance in db.effects
              && var record := db.effects[op.instance];
                 && record.op == op.id && record.phase == Verified && record.restore == restore
                 && record.observation == Some(tx.value)
  {}

  lemma ProductionReturns(w: World, pid: Pid)
    requires Safe(w) && Faithful(w) && pid in w.workers && !w.workers[pid].at.Returned?
    requires var w' := ReadBackStep(w, pid); pid in w'.workers && w'.workers[pid].at.Returned?
    ensures var w' := ReadBackStep(w, pid);
            var k := w'.workers[pid];
            var kind := k.op.policy.content.backend;
            k.at.result.state == Target(k.op, k.restore) && Reads(kind, k.at.result, Actual(w', k.op.instance, kind))
  {
    hide Accounted, WorkerLease, Proven, ReadBackTx, Owned;
    var k := w.workers[pid];
    var id := k.op.instance;
    ReadBackReturns(w.db, k.op, k.restore);
    assert WorkerOk(w.db, k) && OperationOk(w.db, k.op.id);
    assert EffectOk(w.db, id) && RowTrue(w, id) && InstanceOk(w.db, id);
  }

  // ---------------------------------------------------------- mutual exclusion

  /** One executor at a time, alone with its journal record, foreign writers or not;
      its parent is waiting for it, has given up, or is gone. */
  lemma OneExecutorAtATime(w: World, labels: seq<Label>, e: Pid, f: Pid)
    requires Initial(w) && e in Run(w, labels).executors && f in Run(w, labels).executors
    ensures e == f
    ensures var w' := Run(w, labels);
            var x := w'.executors[e];
            && (Owns(x.at) ==> RecordOk(w'.db, x.at.claim, x.at.record) && x.at.record.phase == Intent)
            && (WroteSettled(x.at) ==> RecordOk(w'.db, x.at.claim, x.at.record) && x.at.record.phase == Settled)
            && (forall p | p in w'.workers :: w'.workers[p].at.Waiting? || w'.workers[p].at.Quarantining?)
            && !LockFree(w')
  {
    hide FirstPending, TickOn, CallSimulationStep, MintStep, SpawnStep, ParentTimeoutStep, ReadBackStep, FailStep,
      CheckResultStep, FinishStep, CompensateStep, QuarantineStep, Gone, ClaimStep, ArmStep, InspectStep, JournalStep,
      ClearStep, StartCommandStep, CommandReturnsStep, ReinspectStep, SettleStep, ConfirmStep, ReportStep,
      KillExecutorStep, Unanswered, DaemonOf, EnrollStep, TickStep, WorkerStep, ExecutorStep, LateEffectStep,
      FlapStep, AdvanceStep, ForeignStep, ValidHost, Dispatch, ProbeFor, Admits, AlreadyDone, Initial, Run, Owns;
    ReachableSafe(w, labels);
    var w' := Run(w, labels);
    OneExecutor(w', e);
    assert ExecutorOk(w'.db, w'.executors[e]);
  }

  /** The journal changed in one record, which was and is the executor's own. */
  ghost predicate ReplacesOwn(db: Db, db': Db, claim: Claim, record: Effect) {
    var id := claim.lease.instance;
    && id in db.effects && db.effects[id] == record && record.op == claim.op.id
    && id in db'.effects && db'.effects == db.effects[id := db'.effects[id]]
    && db'.effects[id].op == claim.op.id && db'.effects[id].fence == record.fence
  }

  /** A settled write replaces the executor's own intent, never another's. */
  lemma SettleReplacesOwnRecord(w: World, labels: seq<Label>, e: Pid)
    requires Initial(w) && e in Run(w, labels).executors && Run(w, labels).executors[e].at.Reinspected?
    ensures var v := Run(w, labels);
            var x := v.executors[e].at;
            var db' := SettleStep(v, e).db;
            db' == v.db || (x.record.phase == Intent && ReplacesOwn(v.db, db', x.claim, x.record))
  {
    hide Accounted, Coupling, Exclusive, Journaling, Run, NoForwardYet, BeforeJournal, Live, Matches, KindOf, Target,
      ValidHost, Dispatch, ProbeFor, Admits, AlreadyDone, LockFree, FirstPending, TickOn, CallSimulationStep,
      MintStep, SpawnStep, ParentTimeoutStep, ReadBackStep, FailStep, CheckResultStep, FinishStep, CompensateStep,
      QuarantineStep, Gone, ClaimStep, ArmStep, InspectStep, JournalStep, ClearStep, StartCommandStep,
      CommandReturnsStep, ReinspectStep, ConfirmStep, ReportStep, KillExecutorStep, Unanswered, DaemonOf, MutationOk,
      Unrepeated, GiveUpOk, Forward;
    ReachableSafe(w, labels);
    assert ExecutorOk(Run(w, labels).db, Run(w, labels).executors[e]);
  }

  /** A verified write replaces the executor's own settled record, never an intent. */
  lemma ReportReplacesOwnRecord(w: World, labels: seq<Label>, e: Pid)
    requires Initial(w) && e in Run(w, labels).executors && Run(w, labels).executors[e].at.Confirmed?
    ensures var v := Run(w, labels);
            var x := v.executors[e].at;
            var db' := ReportStep(v, e).db;
            db' == v.db || (x.record.phase == Settled && ReplacesOwn(v.db, db', x.claim, x.record))
  {
    hide Accounted, Coupling, Exclusive, Journaling, Run, BeforeJournal, Live, Matches, KindOf, Target, ValidHost,
      Dispatch, ProbeFor, Admits, AlreadyDone, LockFree, FirstPending, TickOn, CallSimulationStep, MintStep,
      SpawnStep, ParentTimeoutStep, ReadBackStep, FailStep, CheckResultStep, FinishStep, CompensateStep,
      QuarantineStep, Gone, ClaimStep, ArmStep, InspectStep, JournalStep, ClearStep, StartCommandStep,
      CommandReturnsStep, ReinspectStep, SettleStep, ConfirmStep, KillExecutorStep, Unanswered, DaemonOf, MutationOk,
      Unrepeated, GiveUpOk, Forward, OperationOk, InstanceOk, LeaseOk, EffectOk, Current;
    ReachableSafe(w, labels);
    assert ExecutorOk(Run(w, labels).db, Run(w, labels).executors[e]);
  }

  // --------------------------------------------------------- daemon commands

  /** Every command started from the operation's baseline, or for a restore from that
      operation's last settled result, and not from a state that already matched. */
  lemma EveryCommandIsJustified(w: World, labels: seq<Label>, m: Mutation)
    requires Initial(w) && m in Run(w, labels).history.mutations
    ensures Justified(m.claim, m.before, m.settled)
    ensures m.before.state != Target(m.claim.op, m.claim.lease.restore)
  {
    hide Initial, Run, Justified, Target, Step, SameRuntime, ClientStep, EnrollStep, TickStep, WorkerStep,
      ExecutorStep, LateEffectStep, FlapStep, AdvanceStep, ForeignStep, ValidHost, Dispatch, ProbeFor, Admits,
      AlreadyDone, LockFree, FirstPending, TickOn, CallSimulationStep, MintStep, SpawnStep, ParentTimeoutStep,
      ReadBackStep, FailStep, CheckResultStep, FinishStep, CompensateStep, QuarantineStep, Gone, ClaimStep, ArmStep,
      InspectStep, JournalStep, ClearStep, StartCommandStep, CommandReturnsStep, ReinspectStep, SettleStep,
      ConfirmStep, ReportStep, KillExecutorStep, Unanswered, DaemonOf;
    ReachableSafe(w, labels);
  }

  /** At most one forward command per operation, over any run. */
  lemma OneForwardCommand(w: World, labels: seq<Label>, i: nat, j: nat)
    requires Initial(w) && i < |Run(w, labels).history.mutations| && j < |Run(w, labels).history.mutations|
    requires var ms := Run(w, labels).history.mutations;
             Forward(ms[i]) && Forward(ms[j]) && ms[i].claim.op.id == ms[j].claim.op.id
    ensures i == j
  {
    hide Initial, Run, Forward, Step, ClientStep, EnrollStep, TickStep, WorkerStep, ExecutorStep, LateEffectStep,
      FlapStep, AdvanceStep, ForeignStep, ValidHost, Dispatch, ProbeFor, Admits, AlreadyDone, LockFree, FirstPending,
      TickOn, CallSimulationStep, MintStep, SpawnStep, ParentTimeoutStep, ReadBackStep, FailStep, CheckResultStep,
      FinishStep, CompensateStep, QuarantineStep, Gone, ClaimStep, ArmStep, InspectStep, JournalStep, ClearStep,
      StartCommandStep, CommandReturnsStep, ReinspectStep, SettleStep, ConfirmStep, ReportStep, KillExecutorStep,
      Unanswered, DaemonOf;
    ReachableSafe(w, labels);
  }

  /** When a parent reports EffectInProgress, its helper's command has been cut off for
      more than five seconds, and none starts afterwards. */
  lemma NoCommandOutlivesItsParent(w: World, labels: seq<Label>, m: Mutation, g: GiveUp)
    requires Initial(w) && m in Run(w, labels).history.mutations && g in Run(w, labels).history.giveUps
    requires m.claim.lease.(consumed := true) == g.lease.(consumed := true)
    ensures m.start < m.deadline && m.deadline + 5.0 < g.at
  {
    hide CallSimulationStep, MintStep, SpawnStep, ParentTimeoutStep, ReadBackStep, FailStep, CheckResultStep,
      FinishStep, CompensateStep, QuarantineStep, Gone, ClaimStep, ArmStep, InspectStep, JournalStep, ClearStep,
      StartCommandStep, CommandReturnsStep, ReinspectStep, SettleStep, ConfirmStep, ReportStep, KillExecutorStep,
      Unanswered, DaemonOf, LateEffectStep, FlapStep, AdvanceStep, ForeignStep, SameRuntime, ValidHost, Dispatch,
      ProbeFor, Admits, AlreadyDone, LockFree, FirstPending, TickOn, Target, ClientStep, EnrollStep, TickStep,
      WorkerStep, ExecutorStep;
    ReachableSafe(w, labels);
    var w' := Run(w, labels);
    assert MutationOk(w'.timeouts, w'.db.operations, m) && GiveUpOk(w'.timeouts, w'.longest, g);
    assert w'.timeouts[g.lease.instance] <= w'.longest;
  }

  // ------------------------------------------------- coupling and unreachability

  /** Instances and operations agree in both directions. */
  lemma InstancesAndOperationsAgree(w: World, labels: seq<Label>)
    requires Initial(w)
    ensures var db := Run(w, labels).db;
            && (forall o | o in db.operations && Live(db.operations[o].phase) ::
                  var op := db.operations[o];
                  && op.instance in db.instances && db.instances[op.instance].operation == Some(o)
                  && Matches(db.instances[op.instance].state, op))
            && (forall id | id in db.instances && db.instances[id].operation.Some? ::
                  var o := db.instances[id].operation.value;
                  && o in db.operations && db.operations[o].instance == id && Live(db.operations[o].phase)
                  && Matches(db.instances[id].state, db.operations[o]))
            && (forall id | id in db.instances && db.instances[id].operation.None? ::
                  var s := db.instances[id].state; s.Requested? || s.Rejected? || s.Idle?)
  {
    hide CallSimulationStep, MintStep, SpawnStep, ParentTimeoutStep, ReadBackStep, FailStep, CheckResultStep,
      FinishStep, CompensateStep, QuarantineStep, Gone, ClaimStep, ArmStep, InspectStep, JournalStep, ClearStep,
      StartCommandStep, CommandReturnsStep, ReinspectStep, SettleStep, ConfirmStep, ReportStep, KillExecutorStep,
      Unanswered, DaemonOf, LateEffectStep, FlapStep, AdvanceStep, ForeignStep, ValidHost, Dispatch, ProbeFor, Admits,
      AlreadyDone, LockFree, FirstPending, TickOn, Step, ClientStep, EnrollStep, TickStep, WorkerStep, ExecutorStep,
      Initial, Run, Live;
    ReachableSafe(w, labels);
    var db := Run(w, labels).db;
    forall id | id in db.instances
      ensures InstanceOk(db, id)
    {}
    forall o | o in db.operations && Live(db.operations[o].phase)
      ensures var op := db.operations[o];
              && op.instance in db.instances && db.instances[op.instance].operation == Some(o)
              && Matches(db.instances[op.instance].state, op)
    {
      assert OperationOk(db, o) && InstanceOk(db, db.operations[o].instance);
    }
  }

  /** Under the worker lock `operation_conflict` in `tick` and `fence_lost` in `_finish`
      cannot happen. */
  lemma ConflictsAreUnreachable(w: World, labels: seq<Label>)
    requires Initial(w)
    ensures var w' := Run(w, labels);
            && (forall o, enabled | Pending(w'.db, o) :: ReserveTx(w'.db, o, enabled).Done?)
            && (forall p | p in w'.workers && w'.workers[p].at.Checked? ::
                  var k := w'.workers[p];
                  FinishTx(w'.db, k.op, Some(k.at.result), if k.restore then RolledBack else Committed).Done?)
            && (forall p | p in w'.workers && w'.workers[p].at.Quarantining? ::
                  FinishTx(w'.db, w'.workers[p].op, None, Quarantined).Done?)
  {
    hide LockFree, FirstPending, TickOn, CallSimulationStep, MintStep, SpawnStep, ParentTimeoutStep, ReadBackStep,
      FailStep, CheckResultStep, FinishStep, CompensateStep, QuarantineStep, Gone, ClaimStep, ArmStep, InspectStep,
      JournalStep, ClearStep, StartCommandStep, CommandReturnsStep, ReinspectStep, SettleStep, ConfirmStep,
      ReportStep, KillExecutorStep, Unanswered, DaemonOf, ClientStep, EnrollStep, TickStep, WorkerStep, ExecutorStep,
      LateEffectStep, FlapStep, AdvanceStep, ForeignStep, ValidHost, Dispatch, ProbeFor, Admits, AlreadyDone;
    ReachableSafe(w, labels);
    var w' := Run(w, labels);
    forall o, enabled | Pending(w'.db, o)
      ensures ReserveTx(w'.db, o, enabled).Done?
    {
      ReserveKeepsCoupling(w'.db, o, enabled);
    }
    forall p | p in w'.workers
      ensures WorkerOk(w'.db, w'.workers[p])
    {}
  }

  /** Accepted operations are pending or completed; recovery admits one again. */
  lemma OperationsAreConserved(w: World, labels: seq<Label>)
    requires Initial(w)
    ensures var w' := Run(w, labels); |PendingSet(w'.db)| + |w'.history.completions| == w'.history.admitted
  {
    InitialSafe(w);
    assert PendingSet(w.db) == {};
    RunKeepsBalanced(w, labels);
  }

  // ------------------------------------------------------------------ quarantine

  /** However an executor that owns an intent record stops, nothing else happens. */
  lemma StoppingIsExit(w: World, e: Pid, act: ExecutorAct)
    requires e in w.executors && Owns(w.executors[e].at) && e !in ExecutorStep(w, e, act).executors
    ensures ExecutorStep(w, e, act) == Exit(w, e, false)
  {
    match act
    case Clear =>
    case StartCommand =>
    case CommandReturns(_) =>
    case Settle =>
    case KillExecutor =>
    case _ =>
  }

  /** An executor that dies, is killed, or fails with its intent recorded stops every
      later command for the instance, whatever runs, requests and foreign writes follow. */
  lemma LostExecutorQuarantinesForever(w: World, before: seq<Label>, e: Pid, act: ExecutorAct, after: seq<Label>)
    requires Initial(w) && e in Run(w, before).executors && Owns(Run(w, before).executors[e].at)
    requires e !in ExecutorStep(Run(w, before), e, act).executors
    ensures var lost := ExecutorStep(Run(w, before), e, act);
            var id := Run(w, before).executors[e].at.claim.lease.instance;
            var w' := Run(lost, after);
            && Untouched(lost, w', id)
            && id in w'.db.instances && !w'.db.instances[id].state.Idle?
            && w'.db.instances[id].operation == Some(w'.db.effects[id].op)
  {
    hide DaemonOf, JournalTx, LaunchTx, ReportTx, SameRuntime, ValidHost, Dispatch, ProbeFor, Admits, AlreadyDone,
      LockFree, FirstPending, TickOn, CallSimulationStep, MintStep, SpawnStep, ParentTimeoutStep, ReadBackStep,
      FailStep, CheckResultStep, FinishStep, CompensateStep, QuarantineStep, Gone, Unanswered, Owned, RuntimeIn,
      Admissible, Target, ReinspectStep, SettleStep, ConfirmStep, ReportStep, KillExecutorStep, ClientStep,
      EnrollStep, TickStep, WorkerStep, LateEffectStep, FlapStep, AdvanceStep, ForeignStep, ClaimTx, PutE, ClaimStep,
      ArmStep, InspectStep, JournalStep, ClearStep, StartCommandStep, CommandReturnsStep, ExecutorStep, Untouched,
      Exit, Step;
    ReachableSafe(w, before);
    var v := Run(w, before);
    var id := v.executors[e].at.claim.lease.instance;
    StoppingIsExit(v, e, act);
    LostExecutorLeavesUnknown(v, e);
    ExitKeepsSafe(v, e, false);
    UnknownOutcomeIsPermanent(Exit(v, e, false), after, id);
  }
}
