/**
 Agreement between the controller and the host, over runs in which only its own
 deployments change the runtime.
 */
module ControllerAgreement {
  import opened Schema
  import opened ControllerModel
  import opened ControllerMachine
  import opened ControllerInvariants
  import opened ControllerFrames
  import opened ControllerSafety
  import opened ControllerEndings

  /** A resting instance is recorded as it runs; a changing one runs its operation's
      baseline or candidate, and the baseline as long as its processes are the old ones. */
  ghost predicate RowTrue(w: World, id: InstanceId)
    requires id in w.db.instances
  {
    && id in w.runtimes
    && var i := w.db.instances[id];
       var r := w.runtimes[id];
       && i.observation.identity < w.serial
       && match i.operation
          case None => r == i.observation
          case Some(o) =>
            && o in w.db.operations
            && (r.spec == w.db.operations[o].baseline || r.spec == w.db.operations[o].candidate)
            && (r.identity == i.observation.identity ==> r == i.observation)
  }

  /** How an operation ended, and what ran then. */
  ghost predicate CompletionTrue(c: Completion) {
    match c.phase
    case Committed => c.runtime.spec == c.op.candidate
    case RolledBack => c.runtime.spec == c.op.baseline
    case Unchanged => c.runtime.spec == c.op.baseline && c.runtime.identity == c.op.plan.plan.identity
    case _ => false
  }

  ghost predicate Faithful(w: World) {
    && (forall id | id in w.db.instances :: RowTrue(w, id))
    && (forall id | id in w.runtimes :: w.runtimes[id].identity < w.serial)
    && (forall c | c in w.history.completions :: CompletionTrue(c))
  }

  /** Neither runtimes nor rows nor completions move. */
  lemma StillKeepsFaithful(w: World, w': World)
    requires Faithful(w) && SameHost(w, w') && SameRows(w, w') && SameEnds(w, w') && OperationsAge(w.db.operations, w'.db.operations)
    ensures Faithful(w')
  {
    forall id | id in w'.db.instances
      ensures RowTrue(w', id)
    {
      assert RowTrue(w, id);
      var i := w.db.instances[id];
      if i.operation.Some? { assert Ages(w.db.operations[i.operation.value], w'.db.operations[i.operation.value]); }
    }
  }

  /** One row changes under an unchanged host. */
  lemma OneRowKeepsFaithful(w: World, w': World, id: InstanceId)
    requires Faithful(w) && SameHost(w, w') && OperationsAge(w.db.operations, w'.db.operations)
    requires id in w'.db.instances && w'.db.instances == w.db.instances[id := w'.db.instances[id]] && RowTrue(w', id)
    requires forall c | c in w'.history.completions :: c in w.history.completions || CompletionTrue(c)
    ensures Faithful(w')
  {
    forall j | j in w'.db.instances
      ensures RowTrue(w', j)
    {
      if j != id {
        assert RowTrue(w, j);
        var i := w.db.instances[j];
        if i.operation.Some? { assert Ages(w.db.operations[i.operation.value], w'.db.operations[i.operation.value]); }
      }
    }
  }

  // ------------------------------------------------------------------------ desk

  lemma RegisterRow(db: Db, id: InstanceId, registration: Registration, baseline: Spec, seen: Runtime,
                    qualified: bool, sound: bool, elsewhere: bool)
    requires RegisterTx(db, id, registration, baseline, seen, qualified, sound, elsewhere).Done?
    ensures var db' := RegisterTx(db, id, registration, baseline, seen, qualified, sound, elsewhere).docs;
            && id in db'.instances && db'.instances == db.instances[id := db'.instances[id]]
            && db'.instances[id].operation == None && db'.instances[id].observation == seen
  {}

  lemma RegisterKeepsFaithful(w: World, l: Label)
    requires Safe(w) && Faithful(w) && l.Register?
    ensures Faithful(RegisterStep(w, l))
  {
    hide RegisterTx, Sound;
    var w' := RegisterStep(w, l);
    if l.permitted && l.id in w.runtimes
       && RegisterTx(w.db, l.id, l.registration, l.baseline, w.runtimes[l.id], l.qualified, l.sound, l.elsewhere).Done? {
      RegisterRow(w.db, l.id, l.registration, l.baseline, w.runtimes[l.id], l.qualified, l.sound, l.elsewhere);
      RegisterFrame(w, l);
      RegisterLawful(w, l);
      OneRowKeepsFaithful(w, w', l.id);
    }
  }

  lemma BeginRow(db: Db, p: PlanId, nonce: Nonce, expected: Option<Action>, seen: Runtime, sound: bool,
                 o: OpId, executor: Executor, now: real)
    requires BeginTx(db, p, nonce, expected, seen, sound, o, executor, now).Done?
    ensures var tx := BeginTx(db, p, nonce, expected, seen, sound, o, executor, now);
            var id := db.plans[p].instance;
            && id in db.instances && id in tx.docs.instances
            && tx.docs.instances == db.instances[id := tx.docs.instances[id]]
            && db.instances[id].operation == None && tx.docs.instances[id].operation == Some(o)
            && tx.docs.instances[id].observation == db.instances[id].observation
            && o in tx.docs.operations && tx.docs.operations[o].baseline == seen.spec
  {}

  lemma BeginKeepsFaithful(w: World, l: Label)
    requires Safe(w) && Faithful(w) && l.Begin?
    ensures Faithful(BeginStep(w, l))
  {
    hide Sound, BeginTx;
    var w' := BeginStep(w, l);
    BeginFrame(w, l);
    BeginLawful(w, l);
    if l.permitted && l.op !in w.db.operations && l.plan in w.db.plans && w.db.plans[l.plan].instance in w.runtimes {
      var id := w.db.plans[l.plan].instance;
      if BeginTx(w.db, l.plan, l.nonce, l.expected, w.runtimes[id], l.sound, l.op, l.executor, w.now).Done? {
        BeginRow(w.db, l.plan, l.nonce, l.expected, w.runtimes[id], l.sound, l.op, l.executor, w.now);
        assert RowTrue(w, id);
        OneRowKeepsFaithful(w, w', id);
      }
    }
  }

  lemma RecoverKeepsFaithful(w: World, l: Label)
    requires Safe(w) && Faithful(w) && l.Recover?
    ensures Faithful(RecoverStep(w, l))
  {
    hide Sound, Faithful;
    RecoverFrame(w, l);
    RecoverLawful(w, l);
    StillKeepsFaithful(w, RecoverStep(w, l));
  }

  // ------------------------------------------------------------------- processes

  /** What `_effect` deploys is the operation's own baseline or candidate. */
  lemma EffectIsTarget(db: Db, t: Token, restore: bool, seen: Runtime, now: real, gate: bool, qualified: bool, owns: bool, sound: bool)
    requires Sound(db) && EffectTx(db, t, restore, seen, now, gate, qualified, owns, sound).Done?
    ensures Digest(EffectTx(db, t, restore, seen, now, gate, qualified, owns, sound).value) == TargetOf(db.operations[t.id], restore)
    ensures db.instances[db.operations[t.id].instance].operation == Some(t.id)
  {
    hide Enrolled, FromPlans, Coupled, OneShot, TicketsOk, GrantsOk;
  }

  lemma DeployedKeepsFaithful(w: World, w': World, t: Token, restore: bool)
    requires Faithful(w) && Disowned(w.db, t).None? && w'.db == w.db && SameEnds(w, w')
    requires var id := w.db.operations[t.id].instance;
             w'.runtimes == w.runtimes[id := Runtime(TargetOf(w.db.operations[t.id], restore), w.serial)]
    requires w'.serial == w.serial + 1
    ensures Faithful(w')
  {
    forall j | j in w'.db.instances
      ensures RowTrue(w', j)
    {
      assert RowTrue(w, j);
    }
  }

  lemma DeployChanges(w: World, pid: Pid, restore: bool, a: Answers)
    requires pid in w.processes
    ensures var w' := DeployStep(w, pid, restore, a);
            var t := w.processes[pid].token;
            && w'.db == w.db && SameEnds(w, w')
            && (|| (w'.runtimes == w.runtimes && w'.serial == w.serial)
                || (&& t.id in w.db.operations && w.db.operations[t.id].instance in w.runtimes
                    && var id := w.db.operations[t.id].instance;
                       var tx := EffectTx(w.db, t, restore, w.runtimes[id], w.now, a.gate, a.qualified, a.owns, a.sound);
                       && tx.Done? && w'.serial == w.serial + 1
                       && w'.runtimes == w.runtimes[id := Runtime(Digest(tx.value), w.serial)]))
  {
    hide EffectTx;
  }

  lemma EffectNeedsOwner(db: Db, t: Token, restore: bool, seen: Runtime, now: real, gate: bool, qualified: bool, owns: bool, sound: bool)
    requires EffectTx(db, t, restore, seen, now, gate, qualified, owns, sound).Done?
    ensures Disowned(db, t).None?
  {}

  lemma DeployKeepsFaithful(w: World, pid: Pid, restore: bool, a: Answers)
    requires Safe(w) && Faithful(w) && pid in w.processes
    ensures Faithful(DeployStep(w, pid, restore, a))
  {
    hide DeployStep, EffectTx, Sound;
    var w' := DeployStep(w, pid, restore, a);
    var t := w.processes[pid].token;
    DeployChanges(w, pid, restore, a);
    if w'.runtimes != w.runtimes || w'.serial != w.serial {
      var id := w.db.operations[t.id].instance;
      EffectIsTarget(w.db, t, restore, w.runtimes[id], w.now, a.gate, a.qualified, a.owns, a.sound);
      EffectNeedsOwner(w.db, t, restore, w.runtimes[id], w.now, a.gate, a.qualified, a.owns, a.sound);
      DeployedKeepsFaithful(w, w', t, restore);
    } else {
      SameWorldFaithful(w, w');
    }
  }

  lemma SameWorldFaithful(w: World, w': World)
    requires Faithful(w) && w'.db == w.db && w'.runtimes == w.runtimes && w'.serial == w.serial && SameEnds(w, w')
    ensures Faithful(w')
  {
    forall j | j in w'.db.instances
      ensures RowTrue(w', j)
    {
      assert RowTrue(w, j);
    }
  }

  lemma CommitRow(db: Db, t: Token, restore: bool, observed: Runtime, latest: Runtime, owns: bool, sound: bool)
    requires CommitTx(db, t, restore, observed, latest, owns, sound).Done?
    ensures latest == observed
    ensures var db' := CommitTx(db, t, restore, observed, latest, owns, sound).docs;
            var id := db.operations[t.id].instance;
            && id in db.instances && id in db'.instances && db'.instances == db.instances[id := db'.instances[id]]
            && db'.instances[id].operation == None && db'.instances[id].observation == observed
  {}

  lemma CommitKeepsFaithful(w: World, pid: Pid, restore: bool, seen: Runtime, a: Answers)
    requires Safe(w) && Faithful(w) && pid in w.processes && w.processes[pid].at == Committing(restore, seen)
    ensures Faithful(CommitStep(w, pid, restore, seen, a))
  {
    hide Sound, CommitTx;
    var w' := CommitStep(w, pid, restore, seen, a);
    var t := w.processes[pid].token;
    assert ProcessOk(w.db.operations, w.processes[pid]);
    CommitFrame(w, pid, restore, seen, a);
    CommitLawful(w, pid, restore, seen, a);
    if !a.busy && t.id in w.db.operations && w.db.operations[t.id].instance in w.runtimes {
      var id := w.db.operations[t.id].instance;
      if CommitTx(w.db, t, restore, seen, w.runtimes[id], a.owns, a.sound).Done? {
        CommitRow(w.db, t, restore, seen, w.runtimes[id], a.owns, a.sound);
        assert RowTrue(w, id);
        OneRowKeepsFaithful(w, w', id);
        return;
      }
    }
    SameWorldFaithful(w, w');
  }

  lemma UnchangedRow(db: Db, t: Token, seen: Runtime, owns: bool, sound: bool)
    requires Sound(db) && UnchangedTx(db, t, seen, owns, sound).Done? && UnchangedTx(db, t, seen, owns, sound).value
    ensures var db' := UnchangedTx(db, t, seen, owns, sound).docs;
            var op := db.operations[t.id];
            var id := op.instance;
            && id in db.instances && id in db'.instances && db'.instances == db.instances[id := db'.instances[id]]
            && db'.instances[id].operation == None && db'.instances[id].observation == seen
            && seen.spec == op.baseline && seen.identity == op.plan.plan.identity
  {
    assert db.operations[t.id].plan in db.plans;
  }

  lemma CheckKeepsFaithful(w: World, pid: Pid, a: Answers)
    requires Safe(w) && Faithful(w) && pid in w.processes
    ensures Faithful(CheckStep(w, pid, a))
  {
    hide Sound, UnchangedTx, TicketsOk, GrantsOk, Consumed, Disowned, SetPhase, Holding, TargetOf, PlanOk,
      OperationOk, InstanceOk, TicketOk, GrantOk, LeaseOk, Terminal, Bound;
    var w' := CheckStep(w, pid, a);
    var t := w.processes[pid].token;
    CheckFrame(w, pid, a);
    CheckLawful(w, pid, a);
    if !a.busy && t.id in w.db.operations && w.db.operations[t.id].instance in w.runtimes {
      var id := w.db.operations[t.id].instance;
      var tx := UnchangedTx(w.db, t, w.runtimes[id], a.owns, a.sound);
      if tx.Done? && tx.value {
        UnchangedRow(w.db, t, w.runtimes[id], a.owns, a.sound);
        OneRowKeepsFaithful(w, w', id);
        return;
      }
    }
    SameWorldFaithful(w, w');
  }

  lemma ProcessKeepsFaithful(w: World, pid: Pid, a: Answers)
    requires Safe(w) && Faithful(w)
    ensures Faithful(ProcessStep(w, pid, a))
  {
    hide Sound, Faithful, SameFences, SameShelf, SameHost, SameRows, SameEnds;
    if pid !in w.processes { return; }
    ProcessLawful(w, pid, a);
    var w' := ProcessStep(w, pid, a);
    match w.processes[pid].at
    case Starting => StartFrame(w, pid, a); StillKeepsFaithful(w, w');
    case Deploying(restore) => DeployKeepsFaithful(w, pid, restore, a);
    case Deployed => VerifyingFrame(w, pid, a); StillKeepsFaithful(w, w');
    case Inspecting(restore) => InspectFrame(w, pid, restore, a); StillKeepsFaithful(w, w');
    case Recording(restore, seen) => RecordFrame(w, pid, restore, seen, a); StillKeepsFaithful(w, w');
    case Committing(restore, seen) => CommitKeepsFaithful(w, pid, restore, seen, a);
    case Checking => CheckKeepsFaithful(w, pid, a);
    case Retreating => RetreatFrame(w, pid, a); StillKeepsFaithful(w, w');
    case GivingUp => GiveUpFrame(w, pid, a); StillKeepsFaithful(w, w');
  }

  lemma StillStep(w: World, l: Label)
    requires !l.Register? && !l.Begin? && !l.Recover? && !l.ByProcess? && !l.Foreign?
    ensures SameHost(w, Step(w, l)) && SameRows(w, Step(w, l)) && SameEnds(w, Step(w, l))
  {
    hide SameFences, SameShelf, SameHost, SameRows, SameEnds;
    match l
    case MakePlan(_, _, _, _, _, _, _, _) => PlanFrame(w, l);
    case Approve(_, _, _) => ApproveFrame(w, l);
    case Cancel(_, _) => CancelFrame(w, l);
    case ApproveRecovery(_, _, _, _) => ApproveRecoveryFrame(w, l);
    case Mint(_, _, _, _, _, _) => MintFrame(w, l);
    case Claim(_, _, _, _, _) => ClaimFrame(w, l);
    case Retire(_, _, _) => RetireFrame(w, l);
    case Execute(_, _) => PassiveFrame(w, l);
    case Kill(_) => PassiveFrame(w, l);
    case Advance(_) => PassiveFrame(w, l);
  }

  lemma StepKeepsFaithful(w: World, l: Label)
    requires Safe(w) && Faithful(w) && !l.Foreign?
    ensures Faithful(Step(w, l))
  {
    hide Sound, Faithful, SameHost, SameRows, SameEnds;
    if l.Register? { RegisterKeepsFaithful(w, l); }
    else if l.Begin? { BeginKeepsFaithful(w, l); }
    else if l.Recover? { RecoverKeepsFaithful(w, l); }
    else if l.ByProcess? { ProcessKeepsFaithful(w, l.pid, l.answers); }
    else {
      StepLawful(w, l);
      StillStep(w, l);
      StillKeepsFaithful(w, Step(w, l));
    }
  }

  lemma {:induction false} RunKeepsFaithful(w: World, labels: seq<Label>)
    requires Safe(w) && Faithful(w) && NoForeign(labels)
    ensures Faithful(Run(w, labels))
    decreases |labels|
  {
    if labels != [] {
      var before := labels[..|labels| - 1];
      RunKeepsFaithful(w, before);
      RunKeepsSafe(w, before);
      StepKeepsFaithful(Run(w, before), labels[|labels| - 1]);
    }
  }

  /** An instance is ready exactly when it has no operation, and is then recorded with
      the specification and identity it runs; a changing one runs the baseline or the
      candidate of its operation, which is not terminal. */
  ghost predicate Agrees(w: World, id: InstanceId)
    requires id in w.db.instances
  {
    var i := w.db.instances[id];
    && id in w.runtimes
    && (i.status == Ready <==> i.operation == None)
    && (i.status == Ready ==> i.observation == w.runtimes[id] && i.spec == w.runtimes[id].spec)
    && (i.status != Ready ==>
          && i.operation.value in w.db.operations
          && var op := w.db.operations[i.operation.value];
             !Terminal(op.phase) && w.runtimes[id].spec in {op.baseline, op.candidate})
  }

  lemma SafeRow(w: World, id: InstanceId)
    requires Safe(w) && id in w.db.instances
    ensures InstanceOk(w.db.operations, id, w.db.instances[id])
  {}

  lemma RowAgrees(w: World, id: InstanceId)
    requires Safe(w) && Faithful(w) && id in w.db.instances
    ensures Agrees(w, id)
  {
    hide Safe;
    SafeRow(w, id);
    assert RowTrue(w, id);
  }

  /** An operation in a terminal phase: the completion it ended with, and what ran then. */
  ghost predicate EndedTrue(completions: seq<Completion>, op: Operation) {
    exists c | c in completions :: Records(c, op) && CompletionTrue(c)
  }

  lemma TerminalEndedTrue(w: World, o: OpId)
    requires Closed(w) && Faithful(w) && o in w.db.operations && Terminal(w.db.operations[o].phase)
    ensures EndedTrue(w.history.completions, w.db.operations[o])
  {
    hide RowTrue, CompletionTrue;
    assert Recorded(w.history.completions, w.db.operations[o]);
  }

  /** Whatever crashes, races, failed deployments and recoveries happen, every instance
      agrees with the host, and every operation in a terminal phase ended, as it is, on the
      specification its phase names. */
  lemma ControllerAgreesWithHost(w: World, labels: seq<Label>)
    requires Initial(w) && NoForeign(labels)
    ensures forall id | id in Run(w, labels).db.instances :: Agrees(Run(w, labels), id)
    ensures forall c | c in Run(w, labels).history.completions :: CompletionTrue(c)
    ensures var w' := Run(w, labels);
            forall o | o in w'.db.operations && Terminal(w'.db.operations[o].phase) ::
              EndedTrue(w'.history.completions, w'.db.operations[o])
  {
    var w' := Run(w, labels);
    InitialSafe(w);
    RunKeepsSafe(w, labels);
    RunKeepsFaithful(w, labels);
    RunKeepsClosed(w, labels);
    hide Safe, Agrees, EndedTrue, Closed;
    forall id | id in w'.db.instances
      ensures Agrees(w', id)
    {
      RowAgrees(w', id);
    }
    forall o | o in w'.db.operations && Terminal(w'.db.operations[o].phase)
      ensures EndedTrue(w'.history.completions, w'.db.operations[o])
    {
      TerminalEndedTrue(w', o);
    }
  }
}
