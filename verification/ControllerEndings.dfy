/**
 Every operation that shows a terminal phase has a completion saying so, foreign writers
 or not.
 */
module ControllerEndings {
  import opened Schema
  import opened ControllerModel
  import opened ControllerMachine

  /** This very operation ended, in the phase it shows. */
  ghost predicate Records(c: Completion, op: Operation) { c.phase == op.phase && c.op.(phase := op.phase) == op }

  ghost predicate Recorded(log: seq<Completion>, op: Operation) { exists c | c in log :: Records(c, op) }

  ghost predicate Closed(w: World) {
    forall o | o in w.db.operations && Terminal(w.db.operations[o].phase) :: Recorded(w.history.completions, w.db.operations[o])
  }

  /** Nothing came to an end. */
  ghost predicate EndsNothing(operations: map<OpId, Operation>, operations': map<OpId, Operation>) {
    forall o | o in operations' && Terminal(operations'[o].phase) :: o in operations && operations'[o] == operations[o]
  }

  lemma SameEndsNothing(operations: map<OpId, Operation>)
    ensures EndsNothing(operations, operations)
  {}

  lemma QuietKeepsClosed(w: World, w': World)
    requires Closed(w) && w'.history.completions == w.history.completions && EndsNothing(w.db.operations, w'.db.operations)
    ensures Closed(w')
  {
    hide Recorded;
  }

  lemma EndingKeepsClosed(w: World, w': World, o: OpId, phase: Phase, runtime: Runtime)
    requires Closed(w) && o in w.db.operations
    requires w'.db.operations == w.db.operations[o := w.db.operations[o].(phase := phase)]
    requires w'.history.completions == w.history.completions + [Completion(w.db.operations[o], phase, runtime)]
    ensures Closed(w')
  {
    var log, log' := w.history.completions, w'.history.completions;
    forall q | q in w'.db.operations && Terminal(w'.db.operations[q].phase)
      ensures Recorded(log', w'.db.operations[q])
    {
      if q == o {
        assert Records(log'[|log|], w'.db.operations[q]);
      } else {
        assert Recorded(log, w.db.operations[q]);
        var c :| c in log && Records(c, w.db.operations[q]);
        assert c in log';
      }
    }
  }

  // ---------------------------------------------------------------- transactions

  lemma PhaseEndsNothing(db: Db, t: Token, phase: Phase)
    requires !Terminal(phase)
    ensures EndsNothing(db.operations, After(PhaseTx(db, t, phase), db).operations)
  {}

  lemma GiveUpEndsNothing(db: Db, t: Token)
    ensures EndsNothing(db.operations, After(GiveUpTx(db, t), db).operations)
  {}

  lemma EvidenceEndsNothing(db: Db, t: Token, seen: Runtime)
    ensures After(EvidenceTx(db, t, seen), db).operations == db.operations
  {}

  lemma CommitEnds(db: Db, t: Token, restore: bool, observed: Runtime, latest: Runtime, owns: bool, sound: bool)
    requires CommitTx(db, t, restore, observed, latest, owns, sound).Done?
    ensures t.id in db.operations
    ensures CommitTx(db, t, restore, observed, latest, owns, sound).docs.operations ==
            db.operations[t.id := db.operations[t.id].(phase := if restore then RolledBack else Committed)]
  {
    hide Confirms, TargetOf;
  }

  lemma UnchangedEnds(db: Db, t: Token, seen: Runtime, owns: bool, sound: bool)
    requires UnchangedTx(db, t, seen, owns, sound).Done?
    ensures t.id in db.operations
    ensures var tx := UnchangedTx(db, t, seen, owns, sound);
            tx.docs.operations ==
              if tx.value then db.operations[t.id := db.operations[t.id].(phase := Unchanged)] else db.operations
  {}

  lemma BeginEndsNothing(db: Db, p: PlanId, nonce: Nonce, expected: Option<Action>, seen: Runtime, sound: bool,
                         o: OpId, executor: Executor, now: real)
    ensures EndsNothing(db.operations, After(BeginTx(db, p, nonce, expected, seen, sound, o, executor, now), db).operations)
  {}

  lemma RecoverEndsNothing(db: Db, o: OpId, nonce: Nonce, executor: Executor, quiescent: bool, now: real)
    ensures EndsNothing(db.operations, After(RecoverTx(db, o, nonce, executor, quiescent, now), db).operations)
  {}

  // ----------------------------------------------------------------------- steps

  lemma DeployEndsNothing(w: World, pid: Pid, restore: bool, a: Answers)
    requires pid in w.processes
    ensures var w' := DeployStep(w, pid, restore, a);
            w'.db == w.db && w'.history.completions == w.history.completions
  {
    hide EffectTx;
  }

  lemma CommitKeepsClosed(w: World, pid: Pid, restore: bool, seen: Runtime, a: Answers)
    requires Closed(w) && pid in w.processes
    ensures Closed(CommitStep(w, pid, restore, seen, a))
  {
    hide CommitTx, Closed;
    var w', t := CommitStep(w, pid, restore, seen, a), w.processes[pid].token;
    if !a.busy && t.id in w.db.operations && w.db.operations[t.id].instance in w.runtimes {
      var latest := w.runtimes[w.db.operations[t.id].instance];
      if CommitTx(w.db, t, restore, seen, latest, a.owns, a.sound).Done? {
        CommitEnds(w.db, t, restore, seen, latest, a.owns, a.sound);
        EndingKeepsClosed(w, w', t.id, if restore then RolledBack else Committed, latest);
        return;
      }
    }
    SameEndsNothing(w.db.operations);
    QuietKeepsClosed(w, w');
  }

  lemma CheckKeepsClosed(w: World, pid: Pid, a: Answers)
    requires Closed(w) && pid in w.processes
    ensures Closed(CheckStep(w, pid, a))
  {
    hide UnchangedTx, Closed;
    var w', t := CheckStep(w, pid, a), w.processes[pid].token;
    if !a.busy && t.id in w.db.operations && w.db.operations[t.id].instance in w.runtimes {
      var seen := w.runtimes[w.db.operations[t.id].instance];
      var tx := UnchangedTx(w.db, t, seen, a.owns, a.sound);
      if tx.Done? && tx.value {
        UnchangedEnds(w.db, t, seen, a.owns, a.sound);
        EndingKeepsClosed(w, w', t.id, Unchanged, seen);
        return;
      }
    }
    SameEndsNothing(w.db.operations);
    QuietKeepsClosed(w, w');
  }

  lemma PhaseKeepsClosed(w: World, w': World, t: Token, phase: Phase)
    requires Closed(w) && !Terminal(phase) && w'.history == w.history
    requires w'.db == w.db || w'.db == After(PhaseTx(w.db, t, phase), w.db)
    ensures Closed(w')
  {
    hide PhaseTx, Closed;
    SameEndsNothing(w.db.operations);
    PhaseEndsNothing(w.db, t, phase);
    QuietKeepsClosed(w, w');
  }

  lemma RecordKeepsClosed(w: World, pid: Pid, restore: bool, seen: Runtime, a: Answers)
    requires Closed(w) && pid in w.processes
    ensures Closed(RecordStep(w, pid, restore, seen, a))
  {
    hide EvidenceTx, Closed;
    SameEndsNothing(w.db.operations);
    EvidenceEndsNothing(w.db, w.processes[pid].token, seen);
    QuietKeepsClosed(w, RecordStep(w, pid, restore, seen, a));
  }

  lemma GiveUpKeepsClosed(w: World, pid: Pid, a: Answers)
    requires Closed(w) && pid in w.processes
    ensures Closed(GiveUpStep(w, pid, a))
  {
    hide GiveUpTx, Closed;
    SameEndsNothing(w.db.operations);
    GiveUpEndsNothing(w.db, w.processes[pid].token);
    QuietKeepsClosed(w, GiveUpStep(w, pid, a));
  }

  lemma StayKeepsClosed(w: World, w': World)
    requires Closed(w) && w'.db.operations == w.db.operations && w'.history.completions == w.history.completions
    ensures Closed(w')
  {}

  lemma ProcessKeepsClosed(w: World, pid: Pid, a: Answers)
    requires Closed(w)
    ensures Closed(ProcessStep(w, pid, a))
  {
    hide Closed, PhaseTx, CommitStep, CheckStep, RecordStep, GiveUpStep, DeployStep, VerifyTx;
    if pid !in w.processes { return; }
    var w', t := ProcessStep(w, pid, a), w.processes[pid].token;
    match w.processes[pid].at
    case Starting => PhaseKeepsClosed(w, w', t, Applying);
    case Deploying(restore) => DeployEndsNothing(w, pid, restore, a); StayKeepsClosed(w, w');
    case Deployed => PhaseKeepsClosed(w, w', t, Verifying);
    case Inspecting(restore) => StayKeepsClosed(w, w');
    case Recording(restore, seen) => RecordKeepsClosed(w, pid, restore, seen, a);
    case Committing(restore, seen) => CommitKeepsClosed(w, pid, restore, seen, a);
    case Checking => CheckKeepsClosed(w, pid, a);
    case Retreating => PhaseKeepsClosed(w, w', t, RollingBack);
    case GivingUp => GiveUpKeepsClosed(w, pid, a);
  }

  lemma BeginKeepsClosed(w: World, l: Label)
    requires Closed(w) && l.Begin?
    ensures Closed(BeginStep(w, l))
  {
    hide Closed, BeginTx;
    SameEndsNothing(w.db.operations);
    if l.plan in w.db.plans && w.db.plans[l.plan].instance in w.runtimes {
      BeginEndsNothing(w.db, l.plan, l.nonce, l.expected, w.runtimes[w.db.plans[l.plan].instance], l.sound, l.op, l.executor, w.now);
    }
    QuietKeepsClosed(w, BeginStep(w, l));
  }

  lemma RecoverKeepsClosed(w: World, l: Label)
    requires Closed(w) && l.Recover?
    ensures Closed(RecoverStep(w, l))
  {
    hide Closed, RecoverTx;
    SameEndsNothing(w.db.operations);
    RecoverEndsNothing(w.db, l.op, l.nonce, l.executor, l.quiescent, w.now);
    QuietKeepsClosed(w, RecoverStep(w, l));
  }

  /** Everybody else leaves the operations alone. */
  ghost predicate SameOperations(w: World, w': World) {
    w'.db.operations == w.db.operations && w'.history.completions == w.history.completions
  }

  lemma DeskEndsNothing(w: World, l: Label)
    ensures l.Register? ==> SameOperations(w, RegisterStep(w, l))
    ensures l.MakePlan? ==> SameOperations(w, PlanStep(w, l))
    ensures l.Approve? ==> SameOperations(w, ApproveStep(w, l))
    ensures l.Cancel? ==> SameOperations(w, CancelStep(w, l))
    ensures l.ApproveRecovery? ==> SameOperations(w, ApproveRecoveryStep(w, l))
  {}

  lemma LeaseEndsNothing(w: World, l: Label)
    ensures l.Mint? ==> SameOperations(w, MintStep(w, l))
    ensures l.Claim? ==> SameOperations(w, ClaimStep(w, l))
    ensures l.Retire? ==> SameOperations(w, RetireStep(w, l))
  {}

  lemma OthersEndNothing(w: World, l: Label)
    requires !l.Begin? && !l.Recover? && !l.ByProcess?
    ensures SameOperations(w, Step(w, l))
  {
    hide ProcessStep, BeginStep, RecoverStep, RegisterStep, PlanStep, ApproveStep, CancelStep, ApproveRecoveryStep,
      MintStep, ClaimStep, RetireStep;
    DeskEndsNothing(w, l);
    LeaseEndsNothing(w, l);
  }

  lemma StepKeepsClosed(w: World, l: Label)
    requires Closed(w)
    ensures Closed(Step(w, l))
  {
    hide Closed, BeginStep, RecoverStep, ProcessStep;
    if l.Begin? { BeginKeepsClosed(w, l); }
    else if l.Recover? { RecoverKeepsClosed(w, l); }
    else if l.ByProcess? { ProcessKeepsClosed(w, l.pid, l.answers); }
    else {
      OthersEndNothing(w, l);
      StayKeepsClosed(w, Step(w, l));
    }
  }

  lemma {:induction false} RunKeepsClosed(w: World, labels: seq<Label>)
    requires Closed(w)
    ensures Closed(Run(w, labels))
    decreases |labels|
  {
    hide Closed, Step;
    if labels != [] {
      var before := labels[..|labels| - 1];
      RunKeepsClosed(w, before);
      StepKeepsClosed(Run(w, before), labels[|labels| - 1]);
    }
  }
}
