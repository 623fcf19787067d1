/**
 What the steps of workers and executors leave alone.
 */
module LifecycleFrames {
  import opened Schema
  import opened LifecycleModel
  import opened LifecycleMachine

  /** The tables only clients and enrolment write. */
  ghost predicate SameAdmissions(w: World, w': World) {
    && w'.db.requests == w.db.requests && w'.db.resources == w.db.resources
    && w'.db.registrations == w.db.registrations
    && w'.history.admitted == w.history.admitted && w'.history.already == w.history.already
  }

  ghost predicate SameWork(w: World, w': World) {
    && w'.db.instances == w.db.instances && w'.db.operations == w.db.operations
    && w'.history.completions == w.history.completions
  }

  /** Nothing was journalled and no command was issued; an executor that is there holds
      the claim it held before, or has claimed nothing it could have journalled. */
  ghost predicate Silent(w: World, w': World) {
    && w'.db.effects == w.db.effects && w'.history.mutations == w.history.mutations
    && (forall e | e in w'.executors && Owns(w'.executors[e].at) ::
          e in w.executors && Owns(w.executors[e].at) && w'.executors[e].at.claim == w.executors[e].at.claim)
  }

  /** Past its intent transaction and before its settled one. */
  ghost predicate Owns(at: ExecutorAt) {
    at.Journaled? || at.Cleared? || at.Mutating? || at.Acknowledged? || at.Reinspected?
  }

  ghost predicate Writes(work: WorkerAct) { work.Finish? || work.Compensate? || work.Quarantine? }

  lemma CallSimulationFrame(w: World, pid: Pid, fault: bool)
    ensures var w' := CallSimulationStep(w, pid, fault); SameAdmissions(w, w') && SameWork(w, w') && Silent(w, w')
  {
    hide SimChangeTx;
  }

  lemma MintFrame(w: World, pid: Pid, enabled: bool, bound: bool, nonce: Nonce, binding: nat)
    ensures var w' := MintStep(w, pid, enabled, bound, nonce, binding); SameAdmissions(w, w') && SameWork(w, w') && Silent(w, w')
  {
    hide Owned, Failed, Owns, PutOnce;
  }

  lemma SpawnFrame(w: World, pid: Pid, child: Pid)
    ensures var w' := SpawnStep(w, pid, child); SameAdmissions(w, w') && SameWork(w, w') && Silent(w, w')
  {}

  lemma ParentTimeoutFrame(w: World, pid: Pid)
    ensures var w' := ParentTimeoutStep(w, pid); SameAdmissions(w, w') && SameWork(w, w') && Silent(w, w')
  {}

  lemma ReadBackFrame(w: World, pid: Pid)
    ensures var w' := ReadBackStep(w, pid); SameAdmissions(w, w') && SameWork(w, w') && Silent(w, w')
  {}

  lemma FailFrame(w: World, pid: Pid)
    ensures var w' := FailStep(w, pid); SameAdmissions(w, w') && SameWork(w, w') && Silent(w, w')
  {}

  lemma CheckResultFrame(w: World, pid: Pid)
    ensures var w' := CheckResultStep(w, pid); SameAdmissions(w, w') && SameWork(w, w') && Silent(w, w')
  {
    hide Actual;
  }

  lemma FinishFrame(w: World, pid: Pid, busy: bool)
    ensures var w' := FinishStep(w, pid, busy); SameAdmissions(w, w') && Silent(w, w')
  {
    hide Actual;
  }

  lemma CompensateFrame(w: World, pid: Pid, busy: bool)
    ensures var w' := CompensateStep(w, pid, busy); SameAdmissions(w, w') && Silent(w, w')
  {}

  lemma QuarantineFrame(w: World, pid: Pid, busy: bool)
    ensures var w' := QuarantineStep(w, pid, busy); SameAdmissions(w, w') && Silent(w, w')
  {
    hide Actual;
  }

  lemma WorkerFrame(w: World, pid: Pid, work: WorkerAct)
    ensures var w' := WorkerStep(w, pid, work);
            SameAdmissions(w, w') && Silent(w, w') && (!Writes(work) ==> SameWork(w, w'))
  {
    hide SpawnStep, ParentTimeoutStep, ReadBackStep, FailStep, CheckResultStep, FinishStep, CompensateStep,
      QuarantineStep, Target, FinishTx, Completed, CompensateTx, SimOf, Owned, PutOnce, DaemonOf;
    match work
    case CallSimulation(fault) => CallSimulationFrame(w, pid, fault);
    case MintLease(enabled, bound, nonce, binding) => MintFrame(w, pid, enabled, bound, nonce, binding);
    case Spawn(child) => SpawnFrame(w, pid, child);
    case ParentTimeout => ParentTimeoutFrame(w, pid);
    case ReadBack => ReadBackFrame(w, pid);
    case Fail => FailFrame(w, pid);
    case CheckResult => CheckResultFrame(w, pid);
    case Finish(busy) => FinishFrame(w, pid, busy);
    case Compensate(busy) => CompensateFrame(w, pid, busy);
    case Quarantine(busy) => QuarantineFrame(w, pid, busy);
    case KillWorker =>
  }

  ghost predicate Journals(act: ExecutorAct) { act.Journal? || act.StartCommand? || act.Settle? || act.Report? }

  lemma ExitFrame(w: World, e: Pid, ok: bool)
    ensures var w' := Exit(w, e, ok); SameAdmissions(w, w') && SameWork(w, w') && Silent(w, w')
  {}

  lemma PutFrame(w: World, e: Pid, at: ExecutorAt)
    requires e in w.executors
    requires Owns(at) ==> Owns(w.executors[e].at) && at.claim == w.executors[e].at.claim
    ensures var w' := PutE(w, e, at); SameAdmissions(w, w') && SameWork(w, w') && Silent(w, w')
  {}

  lemma ClaimFrame(w: World, e: Pid, binding: nat, bound: bool, enabled: bool)
    ensures var w' := ClaimStep(w, e, binding, bound, enabled); SameAdmissions(w, w') && SameWork(w, w') && Silent(w, w')
  {
    if e in w.executors && w.executors[e].at.Unclaimed? {
      var tx := ClaimTx(w.db, w.executors[e].nonce, w.now, binding, bound, enabled);
      if tx.Raise? { ExitFrame(w, e, false); } else { PutFrame(w.(db := tx.docs), e, Claimed(tx.value)); }
    }
  }

  lemma ArmFrame(w: World, e: Pid)
    ensures var w' := ArmStep(w, e); SameAdmissions(w, w') && SameWork(w, w') && Silent(w, w')
  {
    if e in w.executors && w.executors[e].at.Claimed? {
      var x := w.executors[e].at;
      if x.claim.lease.instance in w.timeouts { PutFrame(w, e, Armed(x.claim, w.now + w.timeouts[x.claim.lease.instance])); } else { ExitFrame(w, e, false); }
    }
  }

  lemma InspectFrame(w: World, e: Pid)
    ensures var w' := InspectStep(w, e); SameAdmissions(w, w') && SameWork(w, w') && Silent(w, w')
  {
    if e in w.executors && w.executors[e].at.Armed? {
      var x := w.executors[e].at;
      PutFrame(w, e, Inspected(x.claim, x.deadline, DaemonOf(w, x.claim.lease.instance)));
    }
  }

  lemma ClearFrame(w: World, e: Pid)
    ensures var w' := ClearStep(w, e); SameAdmissions(w, w') && SameWork(w, w') && Silent(w, w')
  {
    if e in w.executors && w.executors[e].at.Journaled? {
      var x := w.executors[e].at;
      if LaunchTx(w.db, x.claim, w.now).Done? { PutFrame(w, e, Cleared(x.claim, x.deadline, x.record)); } else { ExitFrame(w, e, false); }
    }
  }

  lemma CommandReturnsFrame(w: World, e: Pid, outcome: Obs)
    ensures var w' := CommandReturnsStep(w, e, outcome); SameAdmissions(w, w') && SameWork(w, w') && Silent(w, w')
  {
    if e in w.executors && w.executors[e].at.Mutating? {
      var x := w.executors[e].at;
      if w.now <= x.deadline { PutFrame(w.(daemon := w.daemon[x.claim.lease.instance := outcome]), e, Acknowledged(x.claim, x.deadline, x.record)); } else { ExitFrame(w, e, false); }
    }
  }

  lemma ReinspectFrame(w: World, e: Pid)
    ensures var w' := ReinspectStep(w, e); SameAdmissions(w, w') && SameWork(w, w') && Silent(w, w')
  {
    if e in w.executors && w.executors[e].at.Acknowledged? {
      var x := w.executors[e].at;
      PutFrame(w, e, Reinspected(x.claim, x.deadline, x.record, DaemonOf(w, x.claim.lease.instance)));
    }
  }

  lemma ConfirmFrame(w: World, e: Pid)
    ensures var w' := ConfirmStep(w, e); SameAdmissions(w, w') && SameWork(w, w') && Silent(w, w')
  {
    hide DaemonOf, SameRuntime;
    if e in w.executors && w.executors[e].at.Confirming? {
      var x := w.executors[e].at;
      var w' := ConfirmStep(w, e);
      if e in w'.executors { PutFrame(w, e, w'.executors[e].at); } else { ExitFrame(w, e, false); }
    }
  }

  lemma JournalWrites(db: Db, claim: Claim, before: Obs, now: real)
    ensures var tx := JournalTx(db, claim, before, now);
            tx.Done? ==> tx.docs == db.(effects := tx.docs.effects, events := tx.docs.events)
  {}

  lemma JournalFrame(w: World, e: Pid)
    ensures var w' := JournalStep(w, e); SameAdmissions(w, w') && SameWork(w, w')
  {
    hide JournalTx;
    if e in w.executors && w.executors[e].at.Inspected? {
      JournalWrites(w.db, w.executors[e].at.claim, w.executors[e].at.before, w.now);
    }
  }

  lemma StartCommandFrame(w: World, e: Pid)
    ensures var w' := StartCommandStep(w, e); SameAdmissions(w, w') && SameWork(w, w')
  {
    if e in w.executors && w.executors[e].at.Cleared? && w.now >= w.executors[e].at.deadline { ExitFrame(w, e, false); }
    hide Exit;
  }

  lemma ReportWrites(db: Db, claim: Claim, record: Effect, observed: Obs, phase: EffectPhase)
    ensures var tx := ReportTx(db, claim, record, observed, phase);
            tx.Done? ==> tx.docs == db.(effects := tx.docs.effects, events := tx.docs.events)
  {}

  lemma SettleFrame(w: World, e: Pid)
    ensures var w' := SettleStep(w, e); SameAdmissions(w, w') && SameWork(w, w')
  {
    hide ReportTx;
    if e in w.executors && w.executors[e].at.Reinspected? {
      var x := w.executors[e].at;
      ReportWrites(w.db, x.claim, x.record, x.seen, Settled);
    }
  }

  lemma ReportFrame(w: World, e: Pid)
    ensures var w' := ReportStep(w, e); SameAdmissions(w, w') && SameWork(w, w')
  {
    hide ReportTx;
    if e in w.executors && w.executors[e].at.Confirmed? {
      var x := w.executors[e].at;
      ReportWrites(w.db, x.claim, x.record, x.seen, Verified);
    }
  }

  lemma ExecutorFrame(w: World, e: Pid, act: ExecutorAct)
    ensures var w' := ExecutorStep(w, e, act);
            SameAdmissions(w, w') && SameWork(w, w') && (!Journals(act) ==> Silent(w, w'))
  {
    match act
    case ClaimLease(binding, bound, enabled) => ClaimFrame(w, e, binding, bound, enabled);
    case Arm => ArmFrame(w, e);
    case Inspect => InspectFrame(w, e);
    case Journal => JournalFrame(w, e);
    case Clear => ClearFrame(w, e);
    case StartCommand => StartCommandFrame(w, e);
    case CommandReturns(outcome) => CommandReturnsFrame(w, e, outcome);
    case Reinspect => ReinspectFrame(w, e);
    case Settle => SettleFrame(w, e);
    case Confirm => ConfirmFrame(w, e);
    case Report => ReportFrame(w, e);
    case KillExecutor => ExitFrame(w, e, false);
  }

  /** The operation a tick picks, if it does anything. */
  lemma TickPicks(w: World, pid: Pid, enabled: bool) returns (o: OpId)
    ensures TickStep(w, pid, enabled) == w || (Pending(w.db, o) && LockFree(w) && TickStep(w, pid, enabled) == TickOn(w, pid, o, enabled))
  {
    hide TickOn;
    if LockFree(w) && exists p :: FirstPending(w.db, p) {
      o :| FirstPending(w.db, o) && TickStep(w, pid, enabled) == TickOn(w, pid, o, enabled);
    } else {
      o := 0;
    }
  }

  lemma TickOnFrame(w: World, pid: Pid, o: OpId, enabled: bool)
    requires o in w.db.operations
    ensures var w' := TickOn(w, pid, o, enabled);
            SameAdmissions(w, w') && Silent(w, w') && w'.history.completions == w.history.completions
  {}

  lemma TickFrame(w: World, pid: Pid, enabled: bool)
    ensures var w' := TickStep(w, pid, enabled);
            SameAdmissions(w, w') && Silent(w, w') && w'.history.completions == w.history.completions
  {
    hide TickStep, TickOn;
    var o := TickPicks(w, pid, enabled);
    if TickStep(w, pid, enabled) != w { TickOnFrame(w, pid, o, enabled); }
  }

  lemma EnvironmentFrame(w: World, l: Label)
    requires l.LateEffect? || l.Flap? || l.Advance? || l.Foreign?
    ensures Step(w, l).db == w.db && Step(w, l).history == w.history
    ensures Step(w, l).workers == w.workers && Step(w, l).executors == w.executors
  {
    hide FirstPending, TickOn, CallSimulationStep, MintStep, SpawnStep, ParentTimeoutStep, ReadBackStep, FailStep,
      CheckResultStep, FinishStep, CompensateStep, QuarantineStep, Gone, ClaimStep, ArmStep, InspectStep, JournalStep,
      ClearStep, StartCommandStep, CommandReturnsStep, ReinspectStep, SettleStep, ConfirmStep, ReportStep,
      KillExecutorStep;
  }
}
