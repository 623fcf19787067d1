/**
 Every operation that shows a final phase has ended in it: as a completion of a worker, or
 on admission because its desired state was already there.
 */
module LifecycleEndings {
  import opened Schema
  import opened LifecycleModel
  import opened LifecycleMachine
  import opened LifecycleFrames
  import opened LifecycleInvariants

  /** The very operation ended in this phase. */
  ghost predicate Records(c: Completion, op: Operation) { c.phase == op.phase && c.op.(phase := op.phase) == op }

  ghost predicate Recorded(log: seq<Completion>, op: Operation) { exists c | c in log :: Records(c, op) }

  /** An operation that was done when it came in: its baseline was its desired state, and was
      what the resource showed. */
  ghost predicate WasDone(c: Completion) {
    c.phase == Committed && c.actual == c.op.baseline && c.actual.state == c.op.desired
  }

  ghost predicate Ended(operations: map<OpId, Operation>, completions: seq<Completion>, already: seq<Completion>) {
    && (forall o | o in operations && operations[o].phase == Committed :: Recorded(completions + already, operations[o]))
    && (forall o | o in operations && operations[o].phase == RolledBack :: Recorded(completions, operations[o]))
    && (forall c | c in already :: WasDone(c))
  }

  ghost predicate Closed(w: World) { Ended(w.db.operations, w.history.completions, w.history.already) }

  lemma MoreRecords(log: seq<Completion>, more: seq<Completion>, op: Operation)
    requires Recorded(log, op) && forall c | c in log :: c in more
    ensures Recorded(more, op)
  {}

  /** Final phases only come with a record; records only become more. */
  lemma EndedGrows(operations: map<OpId, Operation>, completions: seq<Completion>, already: seq<Completion>,
                   operations': map<OpId, Operation>, completions': seq<Completion>, already': seq<Completion>)
    requires Ended(operations, completions, already)
    requires (forall c | c in completions :: c in completions') && (forall c | c in already :: c in already')
    requires forall c | c in already' :: c in already || WasDone(c)
    requires forall o | o in operations' && operations'[o].phase in {Committed, RolledBack} ::
      || (o in operations && operations'[o] == operations[o])
      || (operations'[o].phase == Committed && Recorded(completions' + already', operations'[o]))
      || (operations'[o].phase == RolledBack && Recorded(completions', operations'[o]))
    ensures Ended(operations', completions', already')
  {
    hide Recorded, WasDone;
    forall o | o in operations' && operations'[o].phase in {Committed, RolledBack} && o in operations && operations'[o] == operations[o]
      ensures operations[o].phase == Committed ==> Recorded(completions' + already', operations[o])
      ensures operations[o].phase == RolledBack ==> Recorded(completions', operations[o])
    {
      if operations[o].phase == Committed { MoreRecords(completions + already, completions' + already', operations[o]); }
      else { MoreRecords(completions, completions', operations[o]); }
    }
  }

  // ------------------------------------------------------------------ admission

  /** What a request may add: one operation from what was just observed. */
  ghost predicate News(db: Db, db': Db, id: InstanceId, probe: Probe) {
    forall o | o in db'.operations && o !in db.operations ::
      && o == probe.op && id in db.instances && probe.inspected.Some?
      && var op := db'.operations[o];
         && op.instance == id && op.baseline == probe.inspected.value && op.policy == db.instances[id].policy
         && (op.phase == Committed ==> op.baseline.state == op.desired) && op.phase in {Committed, Queued}
  }

  lemma ChangeNews(db: Db, uid: Uid, id: InstanceId, desired: RunState, host: Host, probe: Probe)
    requires id in db.instances
    ensures News(db, After(ChangeTx(db, uid, id, db.instances[id], desired, host, probe), db), id, probe)
  {}

  lemma RecoverNews(db: Db, id: InstanceId, probe: Probe)
    requires Coupling(db) && id in db.instances
    ensures News(db, After(RecoverTx(db, db.instances[id]), db), id, probe)
  {
    var i := db.instances[id];
    if i.operation.Some? && i.operation.value in db.operations { assert OperationOk(db, i.operation.value); }
  }

  lemma ActionNews(db: Db, uid: Uid, req: Request, host: Host, probe: Probe)
    requires Coupling(db) && !req.action.Create? && req.instance in db.instances
    ensures News(db, After(ActionTx(db, uid, req, db.instances[req.instance], host, probe), db), req.instance, probe)
  {
    hide Coupling, ChangeTx, RecoverTx;
    match req.action
    case Recover(_) => RecoverNews(db, req.instance, probe);
    case Start(_) => ChangeNews(db, uid, req.instance, Running, host, probe);
    case Stop(_) => ChangeNews(db, uid, req.instance, Stopped, host, probe);
    case _ =>
  }

  lemma AdmitNews(db: Db, uid: Uid, req: Request, host: Host, probe: Probe)
    requires Coupling(db)
    ensures News(db, After(AdmitTx(db, uid, req, host, probe), db), req.instance, probe)
  {
    hide Coupling, ActionTx;
    if !req.action.Create? && req.instance in db.instances { ActionNews(db, uid, req, host, probe); }
  }

  lemma DispatchNews(db: Db, uid: Uid, req: Request, host: Host, probe: Probe, busy: bool, auditBusy: bool)
    requires Coupling(db)
    ensures News(db, Dispatch(db, uid, req, host, probe, busy, auditBusy).0, req.instance, probe)
  {
    hide Coupling, AdmitTx;
    AdmitNews(db, uid, req, host, probe);
  }

  lemma AlreadyWasDone(w: World, l: Label, db: Db)
    requires l.Client? && l.uuid !in w.db.operations && News(w.db, db, l.req.instance, ProbeFor(w, l))
    ensures forall c | c in AlreadyDone(w, db, l.uuid) :: WasDone(c)
    ensures forall o | o in db.operations && o !in w.db.operations && db.operations[o].phase == Committed ::
      Recorded(AlreadyDone(w, db, l.uuid), db.operations[o])
  {
    if l.uuid in db.operations && db.operations[l.uuid].phase == Committed {
      assert Records(AlreadyDone(w, db, l.uuid)[0], db.operations[l.uuid]);
    }
  }

  lemma ClientKeepsClosed(w: World, l: Label)
    requires Safe(w) && Closed(w) && l.Client?
    ensures Closed(ClientStep(w, l))
  {
    hide Coupling, Journaling, Processes, Exclusive, Dispatch, Ended, Recorded, WasDone, News, AlreadyDone;
    if ValidHost(l.host) && l.uuid !in w.db.operations {
      var probe := ProbeFor(w, l);
      var db' := Dispatch(w.db, l.uid, l.req, l.host, probe, l.busy, l.auditBusy).0;
      DispatchNews(w.db, l.uid, l.req, l.host, probe, l.busy, l.auditBusy);
      DispatchKeeps(w.db, l.uid, l.req, l.host, probe, l.busy, l.auditBusy);
      AlreadyWasDone(w, l, db');
      NewsEnds(w.db, db', l.req.instance, probe);
      var w' := ClientStep(w, l);
      var more := AlreadyDone(w, db', l.uuid);
      forall o | o in db'.operations && o !in w.db.operations && db'.operations[o].phase == Committed
        ensures Recorded(w.history.completions + (w.history.already + more), db'.operations[o])
      {
        MoreRecords(more, w.history.completions + (w.history.already + more), db'.operations[o]);
      }
      EndedGrows(w.db.operations, w.history.completions, w.history.already,
                 w'.db.operations, w'.history.completions, w'.history.already);
    }
  }

  lemma NewsEnds(db: Db, db': Db, id: InstanceId, probe: Probe)
    requires News(db, db', id, probe) && (db' == db || Undisturbed(db, db'))
    ensures forall o | o in db'.operations && db'.operations[o].phase in {Committed, RolledBack} ::
      || (o in db.operations && db'.operations[o] == db.operations[o])
      || (o !in db.operations && db'.operations[o].phase == Committed)
  {}

  // -------------------------------------------------------------------- workers

  /** Nothing ends, and no record goes. */
  lemma QuietKeepsClosed(w: World, w': World)
    requires Closed(w) && w'.history.completions == w.history.completions && w'.history.already == w.history.already
    requires forall o | o in w'.db.operations && w'.db.operations[o].phase in {Committed, RolledBack} ::
      o in w.db.operations && w'.db.operations[o] == w.db.operations[o]
    ensures Closed(w')
  {
    hide Ended;
    EndedGrows(w.db.operations, w.history.completions, w.history.already,
               w'.db.operations, w'.history.completions, w'.history.already);
  }

  lemma ReserveEndsNothing(db: Db, o: OpId, enabled: bool)
    requires o in db.operations
    ensures var db' := After(ReserveTx(db, o, enabled), db);
            forall p | p in db'.operations && db'.operations[p].phase in {Committed, RolledBack} ::
              p in db.operations && db'.operations[p] == db.operations[p]
  {}

  lemma TickKeepsClosed(w: World, pid: Pid, enabled: bool)
    requires Closed(w)
    ensures Closed(TickStep(w, pid, enabled))
  {
    hide Closed, TickStep, ReserveTx;
    TickFrame(w, pid, enabled);
    var o := TickPicks(w, pid, enabled);
    if TickStep(w, pid, enabled) != w {
      ReserveEndsNothing(w.db, o, enabled);
      QuietKeepsClosed(w, TickStep(w, pid, enabled));
    }
  }

  /** A finished operation is recorded as it ends. */
  lemma FinishedIsRecorded(w: World, k: Worker, phase: Phase, observation: Option<Obs>, db': Db)
    requires phase in {Committed, RolledBack, Quarantined}
    requires db'.operations == w.db.operations[k.op.id := k.op.(phase := phase)] && Closed(w)
    ensures Ended(db'.operations, Completed(w, k, phase, observation).completions, w.history.already)
  {
    var more := Completed(w, k, phase, observation).completions;
    var c := more[|more| - 1];
    assert c in more && c in more + w.history.already && Records(c, db'.operations[k.op.id]);
    assert Recorded(more, db'.operations[k.op.id]) && Recorded(more + w.history.already, db'.operations[k.op.id]);
    hide Ended, Recorded;
    EndedGrows(w.db.operations, w.history.completions, w.history.already, db'.operations, more, w.history.already);
  }

  lemma FinishWrites(db: Db, op: Operation, observation: Option<Obs>, phase: Phase)
    requires phase != Quarantined ==> observation.Some?
    ensures var tx := FinishTx(db, op, observation, phase);
            tx.Done? ==> tx.docs.operations == db.operations[op.id := op.(phase := phase)]
  {}

  lemma FinishKeepsClosed(w: World, pid: Pid, busy: bool)
    requires Closed(w)
    ensures Closed(FinishStep(w, pid, busy))
  {
    hide FinishTx, Ended, Actual;
    if pid in w.workers && w.workers[pid].at.Checked? && !busy {
      var k := w.workers[pid];
      var phase := if k.restore then RolledBack else Committed;
      var tx := FinishTx(w.db, k.op, Some(k.at.result), phase);
      FinishWrites(w.db, k.op, Some(k.at.result), phase);
      if tx.Done? { FinishedIsRecorded(w, k, phase, Some(k.at.result), tx.docs); }
    }
  }

  lemma QuarantineKeepsClosed(w: World, pid: Pid, busy: bool)
    requires Closed(w)
    ensures Closed(QuarantineStep(w, pid, busy))
  {
    hide FinishTx, Ended, Actual;
    if pid in w.workers && w.workers[pid].at.Quarantining? && !busy {
      var k := w.workers[pid];
      var tx := FinishTx(w.db, k.op, None, Quarantined);
      FinishWrites(w.db, k.op, None, Quarantined);
      if tx.Done? { FinishedIsRecorded(w, k, Quarantined, None, tx.docs); }
    }
  }

  lemma CompensateKeepsClosed(w: World, pid: Pid, busy: bool)
    requires Closed(w)
    ensures Closed(CompensateStep(w, pid, busy))
  {
    hide Closed;
    QuietKeepsClosed(w, CompensateStep(w, pid, busy));
  }

  lemma WorkerKeepsClosed(w: World, pid: Pid, work: WorkerAct)
    requires Closed(w)
    ensures Closed(WorkerStep(w, pid, work))
  {
    hide Closed, SimChangeTx, Put, Failed, MintTx, ReadBackTx, Actual, Target, FinishTx, Completed, CompensateTx,
      Records, SimOf, Owned, PutOnce, DaemonOf, FailStep, CheckResultStep, FinishStep, CompensateStep, QuarantineStep,
      Gone, Recorded, WasDone;
    match work
    case Finish(busy) => FinishKeepsClosed(w, pid, busy);
    case Quarantine(busy) => QuarantineKeepsClosed(w, pid, busy);
    case Compensate(busy) => CompensateKeepsClosed(w, pid, busy);
    case _ =>
      WorkerFrame(w, pid, work);
      QuietKeepsClosed(w, WorkerStep(w, pid, work));
  }

  lemma StepKeepsClosed(w: World, l: Label)
    requires Safe(w) && Closed(w)
    ensures Closed(Step(w, l))
  {
    hide Safe, Closed, ParentTimeoutStep, ReadBackStep, FailStep, CheckResultStep, FinishStep, CompensateStep,
      QuarantineStep, Gone, Unanswered, DaemonOf, ClaimTx, Exit, PutE, JournalTx, LaunchTx, ReportTx, SameRuntime,
      Live, Matches, KindOf, Target, Holds, HasNonce, WorkerLease, Proven, Current, ClaimOk, Owns, RecordOk,
      WroteSettled, Records, Distinct, AdmitTx, Actual, Pending, ReserveTx, Put, SimChangeTx, Failed, MintTx,
      ReadBackTx, FinishTx, Completed, CompensateTx, RuntimeIn, Owned, Admissible, SettleStep, ConfirmStep,
      ReportStep, KillExecutorStep, OperationOk, InstanceOk, LeaseOk, EffectOk, WorkerOk, ExecutorOk, Recorded,
      WasDone, ValidHost, Dispatch, ProbeFor, Admits, AlreadyDone, LockFree, FirstPending, TickOn, CallSimulationStep,
      MintStep, SpawnStep, LateEffectStep, FlapStep, AdvanceStep, ForeignStep, ClaimStep, ArmStep;
    match l
    case Client(_, _, _, _, _, _, _, _, _) => ClientKeepsClosed(w, l);
    case Enroll(id) => QuietKeepsClosed(w, EnrollStep(w, id));
    case Tick(pid, enabled) => TickKeepsClosed(w, pid, enabled);
    case ByWorker(pid, work) => WorkerKeepsClosed(w, pid, work);
    case ByExecutor(e, act) =>
      ExecutorFrame(w, e, act);
      QuietKeepsClosed(w, ExecutorStep(w, e, act));
    case _ =>
      EnvironmentFrame(w, l);
      QuietKeepsClosed(w, Step(w, l));
  }

  lemma {:induction false} RunKeepsClosed(w: World, labels: seq<Label>)
    requires Safe(w) && Closed(w)
    ensures Closed(Run(w, labels))
    decreases |labels|
  {
    hide Safe, Closed, Step;
    if labels != [] {
      var before := labels[..|labels| - 1];
      RunKeepsClosed(w, before);
      RunKeepsSafe(w, before);
      StepKeepsClosed(Run(w, before), labels[|labels| - 1]);
    }
  }
}
