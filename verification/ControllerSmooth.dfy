/**
 Processes of the controller machine that nothing disturbs: an execution commits, and a
 rollback of what was touched restores.
 */
module ControllerSmooth {
  import opened ControllerModel
  import opened ControllerMachine
  import opened ControllerInvariants
  import opened ControllerOutcomes

  /** Everything the environment answers is in favour, and the deployment takes. */
  ghost predicate Favourable(a: Answers) {
    !a.busy && a.gate && a.qualified && a.owns && a.sound && a.takes && !a.raises
  }

  ghost function Steps(w: World, pid: Pid, a: Answers, n: nat): World {
    if n == 0 then w else ProcessStep(Steps(w, pid, a, n - 1), pid, a)
  }

  /** The process works on an operation it owns, on a running service. */
  ghost predicate Owning(w: World, pid: Pid, op: Operation) {
    && Sound(w.db) && pid in w.processes
    && var t := w.processes[pid].token;
       Disowned(w.db, t).None? && w.db.operations[t.id] == op && op.instance in w.runtimes && op.id == t.id
  }

  /** The same answers at every step of one attempt. */
  ghost function Same(a: Answers, now: real): Attempt { Attempt(a, now, false, a, now, false, a) }

  /** What a step that only enters a phase leaves. */
  ghost predicate Entered(w: World, w': World, pid: Pid, op: Operation, at: At) {
    && pid in w.processes && Owning(w', pid, op) && w'.processes == w.processes[pid := Process(w.processes[pid].token, at)]
    && w'.runtimes == w.runtimes && w'.serial == w.serial && w'.now == w.now
    && w'.history.deploys == w.history.deploys && w'.history.completions == w.history.completions
  }

  lemma PhaseDone(db: Db, t: Token, phase: Phase)
    requires Sound(db) && Disowned(db, t).None? && MayMove(db.operations[t.id].phase, phase)
    ensures var tx := PhaseTx(db, t, phase);
            && tx.Done? && Sound(tx.docs) && Disowned(tx.docs, t).None?
            && tx.docs.operations[t.id] == db.operations[t.id].(phase := phase)
  {
    hide Sound;
    PhaseKeeps(db, t, phase);
  }

  lemma Starts(w: World, pid: Pid, a: Answers, op: Operation)
    requires Owning(w, pid, op) && w.processes[pid].at == Starting && op.phase == Reserved && !a.busy
    ensures Entered(w, ProcessStep(w, pid, a), pid, op.(phase := Applying), Deploying(false))
  {
    hide PhaseTx, Sound;
    PhaseDone(w.db, w.processes[pid].token, Applying);
  }

  lemma Verifies(w: World, pid: Pid, a: Answers, op: Operation)
    requires Owning(w, pid, op) && w.processes[pid].at == Deployed && op.phase == Applying && !a.busy
    ensures Entered(w, ProcessStep(w, pid, a), pid, op.(phase := Verifying), Inspecting(false))
  {
    hide PhaseTx, Sound;
    PhaseDone(w.db, w.processes[pid].token, Verifying);
  }

  lemma GoesBack(w: World, pid: Pid, a: Answers, op: Operation)
    requires Owning(w, pid, op) && w.processes[pid].at == Retreating && !a.busy
    requires op.phase in {Reserved, Applying, Verifying, Recovering}
    ensures Entered(w, ProcessStep(w, pid, a), pid, op.(phase := RollingBack), Deploying(true))
  {
    hide PhaseTx, Sound;
    PhaseDone(w.db, w.processes[pid].token, RollingBack);
  }

  /** The check of something that was touched. */
  lemma Checks(w: World, pid: Pid, a: Answers, op: Operation)
    requires Owning(w, pid, op) && w.processes[pid].at == Checking && !a.busy && !AsPlanned(op, w.runtimes[op.instance])
    ensures Entered(w, ProcessStep(w, pid, a), pid, op, ControllerMachine.Retreating)
  {
    hide UnchangedTx, Sound;
    CheckExactly(w.db, w.processes[pid].token, w.runtimes[op.instance], Course(false, Same(a, w.now), a, false, Same(a, w.now), false));
  }

  /** The deployment: new processes run the target. */
  lemma DeploysTarget(w: World, pid: Pid, a: Answers, op: Operation, restore: bool)
    requires Owning(w, pid, op) && w.processes[pid].at == Deploying(restore) && Favourable(a)
    requires w.now < DeadlineOf(op, restore) && (!restore ==> AsPlanned(op, w.runtimes[op.instance]))
    ensures var w' := ProcessStep(w, pid, a);
            && Owning(w', pid, op) && w'.now == w.now && w'.history.completions == w.history.completions
            && w'.processes[pid] == Process(w.processes[pid].token, if restore then Inspecting(true) else Deployed)
            && w'.runtimes == w.runtimes[op.instance := Runtime(TargetOf(op, restore), w.serial)]
            && w'.history.deploys ==
                 w.history.deploys + [Deploy(op.id, op.instance, restore, TargetOf(op, restore), true)]
  {
    hide EffectTx, Sound;
    EffectExactly(w.db, w.processes[pid].token, restore, w.runtimes[op.instance], Same(a, w.now));
  }

  /** Inspection and record find it. */
  lemma Inspects(w: World, pid: Pid, a: Answers, op: Operation, restore: bool)
    requires Owning(w, pid, op) && w.processes[pid].at == Inspecting(restore) && Favourable(a)
    requires w.now < DeadlineOf(op, restore)
    requires w.runtimes[op.instance].spec == TargetOf(op, restore) && w.runtimes[op.instance].identity != op.plan.plan.identity
    ensures Entered(w, ProcessStep(w, pid, a), pid, op, Recording(restore, w.runtimes[op.instance]))
  {
    hide VerifyTx, Sound;
    var seen := w.runtimes[op.instance];
    VerifyExactly(w.db, w.processes[pid].token, restore, seen, Same(a, w.now));
    VerifyGivesSeen(w.db, w.processes[pid].token, restore, seen, w.now, a.owns, a.sound);
  }

  lemma VerifyGivesSeen(db: Db, t: Token, restore: bool, seen: Runtime, now: real, owns: bool, sound: bool)
    requires VerifyTx(db, t, restore, seen, now, owns, sound).Done?
    ensures VerifyTx(db, t, restore, seen, now, owns, sound).value == seen
  {}

  lemma Notes(w: World, pid: Pid, a: Answers, op: Operation, restore: bool, seen: Runtime)
    requires Owning(w, pid, op) && w.processes[pid].at == Recording(restore, seen) && !a.busy
    ensures Entered(w, ProcessStep(w, pid, a), pid, op, Committing(restore, seen))
  {
    hide Sound;
    EvidenceKeeps(w.db, w.processes[pid].token, seen);
  }

  /** And the commit completes the operation. */
  lemma Commits(w: World, pid: Pid, a: Answers, op: Operation, restore: bool)
    requires Owning(w, pid, op) && w.processes[pid].at == Committing(restore, w.runtimes[op.instance]) && Favourable(a)
    ensures var w' := ProcessStep(w, pid, a);
            && pid !in w'.processes && w'.runtimes == w.runtimes && w'.history.deploys == w.history.deploys
            && w'.history.completions ==
                 w.history.completions + [Completion(op, if restore then RolledBack else Committed, w.runtimes[op.instance])]
  {
    hide CommitTx, Sound;
    CommitExactly(w.db, w.processes[pid].token, restore, w.runtimes[op.instance], a.owns, a.sound);
  }

  // --------------------------------------------------------------------- theorems

  /** An undisturbed execution of a reserved operation, in time and on the service as planned:
      one deployment, new processes on the candidate, and a commit. */
  lemma UndisturbedProcessCommits(w: World, pid: Pid, a: Answers, op: Operation)
    requires Owning(w, pid, op) && w.processes[pid].at == Starting && op.phase == Reserved && Favourable(a)
    requires w.now < op.deadline && AsPlanned(op, w.runtimes[op.instance]) && w.serial != op.plan.plan.identity
    ensures var w' := Steps(w, pid, a, 6);
            && pid !in w'.processes && w'.runtimes == w.runtimes[op.instance := Runtime(op.candidate, w.serial)]
            && w'.history.deploys == w.history.deploys + [Deploy(op.id, op.instance, false, op.candidate, true)]
            && w'.history.completions ==
                 w.history.completions + [Completion(op.(phase := Verifying), Committed, Runtime(op.candidate, w.serial))]
  {
    hide ProcessStep, Owning, AsPlanned, Sound;
    var op1, op3 := op.(phase := Applying), op.(phase := Verifying);
    SixSteps(w, pid, a);
    var w1 := ProcessStep(w, pid, a);
    var w2 := ProcessStep(w1, pid, a);
    var w3 := ProcessStep(w2, pid, a);
    var w4 := ProcessStep(w3, pid, a);
    Starts(w, pid, a, op);
    OwnsRunning(w, pid, op);
    SamePlan(op, op1, w.runtimes[op.instance]);
    DeploysTarget(w1, pid, a, op1, false);
    Verifies(w2, pid, a, op1);
    Inspects(w3, pid, a, op3, false);
    Notes(w4, pid, a, op3, false, Runtime(op.candidate, w.serial));
    Commits(ProcessStep(w4, pid, a), pid, a, op3, false);
  }

  lemma SixSteps(w: World, pid: Pid, a: Answers)
    ensures Steps(w, pid, a, 6) ==
      ProcessStep(ProcessStep(ProcessStep(ProcessStep(ProcessStep(ProcessStep(w, pid, a), pid, a), pid, a), pid, a), pid, a), pid, a)
  {
    hide ProcessStep;
    assert Steps(w, pid, a, 1) == ProcessStep(Steps(w, pid, a, 0), pid, a);
    assert Steps(w, pid, a, 2) == ProcessStep(Steps(w, pid, a, 1), pid, a);
    assert Steps(w, pid, a, 3) == ProcessStep(Steps(w, pid, a, 2), pid, a);
    assert Steps(w, pid, a, 4) == ProcessStep(Steps(w, pid, a, 3), pid, a);
    assert Steps(w, pid, a, 5) == ProcessStep(Steps(w, pid, a, 4), pid, a);
  }

  lemma OwnsRunning(w: World, pid: Pid, op: Operation)
    requires Owning(w, pid, op)
    ensures op.instance in w.runtimes
  {}

  lemma SamePlan(op: Operation, op': Operation, seen: Runtime)
    requires AsPlanned(op, seen) && op' == op.(phase := op'.phase)
    ensures AsPlanned(op', seen)
  {}

  /** An undisturbed rollback, in time, of a service that is not as planned: one restore, new
      processes on the baseline, and the operation rolled back. */
  lemma UndisturbedProcessRestores(w: World, pid: Pid, a: Answers, op: Operation)
    requires Owning(w, pid, op) && w.processes[pid].at == Checking && Favourable(a)
    requires op.phase in {Reserved, Applying, Verifying, Recovering}
    requires w.now < op.recoveryDeadline && !AsPlanned(op, w.runtimes[op.instance]) && w.serial != op.plan.plan.identity
    ensures var w' := Steps(w, pid, a, 6);
            && pid !in w'.processes && w'.runtimes == w.runtimes[op.instance := Runtime(op.baseline, w.serial)]
            && w'.history.deploys == w.history.deploys + [Deploy(op.id, op.instance, true, op.baseline, true)]
            && w'.history.completions ==
                 w.history.completions + [Completion(op.(phase := RollingBack), RolledBack, Runtime(op.baseline, w.serial))]
  {
    hide ProcessStep, Owning, AsPlanned, Sound;
    var op2 := op.(phase := RollingBack);
    SixSteps(w, pid, a);
    var w1 := ProcessStep(w, pid, a);
    var w2 := ProcessStep(w1, pid, a);
    var w3 := ProcessStep(w2, pid, a);
    var w4 := ProcessStep(w3, pid, a);
    Checks(w, pid, a, op);
    GoesBack(w1, pid, a, op);
    DeploysTarget(w2, pid, a, op2, true);
    Inspects(w3, pid, a, op2, true);
    Notes(w4, pid, a, op2, true, Runtime(op.baseline, w.serial));
    Commits(ProcessStep(w4, pid, a), pid, a, op2, true);
  }
}
