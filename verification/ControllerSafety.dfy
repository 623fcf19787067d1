/**
 Runs of the controller machine keep the store sound, foreign writers included.
 */
module ControllerSafety {
  import opened Schema
  import opened ControllerModel
  import opened ControllerMachine
  import opened ControllerInvariants
  import opened ControllerFrames

  // ------------------------------------------------------------- a sound store

  ghost predicate Holding(at: At) { at.Recording? || at.Committing? }

  /** A process about to record or commit saw its target, run by new processes. */
  ghost predicate ProcessOk(operations: Operations, k: Process) {
    Holding(k.at) ==>
      && k.token.id in operations
      && var op := operations[k.token.id];
         k.at.seen.spec == TargetOf(op, k.at.restore) && k.at.seen.identity != op.plan.plan.identity
  }

  ghost predicate Safe(w: World) {
    Sound(w.db) && forall p | p in w.processes :: ProcessOk(w.db.operations, w.processes[p])
  }

  lemma InitialSafe(w: World)
    requires Initial(w)
    ensures Safe(w)
  {
    EmptySound();
  }

  lemma ProcessesStayOk(w: World, w': World)
    requires OperationsAge(w.db.operations, w'.db.operations)
    requires forall p | p in w.processes :: ProcessOk(w.db.operations, w.processes[p])
    requires forall p | p in w'.processes ::
      (p in w.processes && w'.processes[p] == w.processes[p]) || ProcessOk(w'.db.operations, w'.processes[p])
    ensures forall p | p in w'.processes :: ProcessOk(w'.db.operations, w'.processes[p])
  {
    forall p | p in w'.processes
      ensures ProcessOk(w'.db.operations, w'.processes[p])
    {
      if p in w.processes { assert ProcessOk(w.db.operations, w.processes[p]); }
    }
  }

  /** The step kept the store sound, let it grow, and left other processes alone. */
  ghost predicate Lawful(w: World, w': World) {
    && Sound(w'.db) && Extends(w.db, w'.db)
    && (forall p | p in w'.processes ::
          || (p in w.processes && w'.processes[p] == w.processes[p])
          || !Holding(w'.processes[p].at)
          || ProcessOk(w'.db.operations, w'.processes[p]))
  }

  lemma LawfulKeepsSafe(w: World, w': World)
    requires Safe(w) && Lawful(w, w')
    ensures Safe(w')
  {
    ProcessesStayOk(w, w');
  }

  lemma ExtendsItself(db: Db)
    ensures Extends(db, db)
  {}

  lemma GotoLawful(w: World, db: Db, pid: Pid, at: At)
    requires Sound(db) && Extends(w.db, db) && pid in w.processes
    requires ProcessOk(db.operations, Process(w.processes[pid].token, at))
    ensures Lawful(w, Goto(w.(db := db), pid, at))
  {}

  lemma GoneLawful(w: World, w': World, pid: Pid)
    requires Sound(w'.db) && Extends(w.db, w'.db) && w'.processes == w.processes - {pid}
    ensures Lawful(w, w')
  {}

  /** The process moves on, and the store stays. */
  lemma StayLawful(w: World, w': World, pid: Pid)
    requires Sound(w.db) && w'.db == w.db && pid in w'.processes
    requires w'.processes == w.processes[pid := w'.processes[pid]] && ProcessOk(w.db.operations, w'.processes[pid])
    ensures Lawful(w, w')
  {
    ExtendsItself(w.db);
  }

  lemma StartLawful(w: World, pid: Pid, a: Answers)
    requires Sound(w.db) && pid in w.processes
    ensures Lawful(w, StartStep(w, pid, a))
  {
    hide Sound, Extends;
    var tx := PhaseTx(w.db, w.processes[pid].token, Applying);
    PhaseKeeps(w.db, w.processes[pid].token, Applying);
    ExtendsItself(w.db);
    if a.busy || tx.Raise? { GoneLawful(w, Gone(w, pid), pid); } else { GotoLawful(w, tx.docs, pid, Deploying(false)); }
  }

  lemma DeployLawful(w: World, pid: Pid, restore: bool, a: Answers)
    requires Sound(w.db) && pid in w.processes
    ensures Lawful(w, DeployStep(w, pid, restore, a))
  {
    hide Sound, Extends;
    DeployFrame(w, pid, restore, a);
    DeployMoves(w, pid, restore, a);
    StayLawful(w, DeployStep(w, pid, restore, a), pid);
  }

  lemma DeployMoves(w: World, pid: Pid, restore: bool, a: Answers)
    requires pid in w.processes
    ensures var w' := DeployStep(w, pid, restore, a);
            && pid in w'.processes && w'.processes == w.processes[pid := w'.processes[pid]]
            && w'.processes[pid].token == w.processes[pid].token
            && w'.processes[pid].at in {Checking, GivingUp, Deployed, Inspecting(true)}
  {}

  lemma VerifyingLawful(w: World, pid: Pid, a: Answers)
    requires Sound(w.db) && pid in w.processes
    ensures Lawful(w, VerifyingStep(w, pid, a))
  {
    hide Sound, Extends, RowsGrow, OperationsAge, Disowned, MayMove, SetPhase, PlanOk, OperationOk, InstanceOk,
      TicketOk, GrantOk, LeaseOk, TargetOf, Grows, Ages, Terminal, Bound, Coupled, OneShot, TicketsOk, GrantsOk,
      SpecsOk, PlansOk, Enrolled, FromPlans;
    var tx := PhaseTx(w.db, w.processes[pid].token, Verifying);
    PhaseKeeps(w.db, w.processes[pid].token, Verifying);
    if a.busy || tx.Raise? { StayLawful(w, Raised(w, pid, false), pid); } else { GotoLawful(w, tx.docs, pid, Inspecting(false)); }
  }

  /** What `_verify` lets through is the operation's target, run by new processes. */
  lemma VerifiedIsTarget(db: Db, t: Token, restore: bool, seen: Runtime, now: real, owns: bool, sound: bool)
    requires VerifyTx(db, t, restore, seen, now, owns, sound).Done? && Sound(db)
    ensures VerifyTx(db, t, restore, seen, now, owns, sound).value == seen
    ensures ProcessOk(db.operations, Process(t, Recording(restore, seen)))
  {
    hide TicketsOk, GrantsOk, Consumed, Holding, PlanOk, OperationOk, InstanceOk, TicketOk, GrantOk, LeaseOk,
      Terminal, Bound, FromPlans, Coupled, OneShot, SpecsOk;
    assert db.operations[t.id].plan in db.plans;
  }

  lemma InspectLawful(w: World, pid: Pid, restore: bool, a: Answers)
    requires Sound(w.db) && pid in w.processes
    ensures Lawful(w, InspectStep(w, pid, restore, a))
  {
    hide Sound, Extends;
    var t := w.processes[pid].token;
    var w' := InspectStep(w, pid, restore, a);
    if !a.busy && t.id in w.db.operations && w.db.operations[t.id].instance in w.runtimes {
      var seen := w.runtimes[w.db.operations[t.id].instance];
      if VerifyTx(w.db, t, restore, seen, w.now, a.owns, a.sound).Done? {
        VerifiedIsTarget(w.db, t, restore, seen, w.now, a.owns, a.sound);
        GotoLawful(w, w.db, pid, Recording(restore, seen));
        assert w' == Goto(w, pid, Recording(restore, seen));
        return;
      }
    }
    StayLawful(w, Raised(w, pid, restore), pid);
  }

  lemma RecordLawful(w: World, pid: Pid, restore: bool, seen: Runtime, a: Answers)
    requires Sound(w.db) && pid in w.processes && ProcessOk(w.db.operations, w.processes[pid])
    requires w.processes[pid].at == Recording(restore, seen)
    ensures Lawful(w, RecordStep(w, pid, restore, seen, a))
  {
    hide Sound, Extends;
    var t := w.processes[pid].token;
    var tx := EvidenceTx(w.db, t, seen);
    EvidenceKeeps(w.db, t, seen);
    EvidenceRows(w.db, t, seen);
    if a.busy || tx.Raise? { StayLawful(w, Raised(w, pid, restore), pid); }
    else { GotoLawful(w, tx.docs, pid, Committing(restore, seen)); }
  }

  lemma CommitLawful(w: World, pid: Pid, restore: bool, seen: Runtime, a: Answers)
    requires Sound(w.db) && pid in w.processes && ProcessOk(w.db.operations, w.processes[pid])
    requires w.processes[pid].at == Committing(restore, seen)
    ensures Lawful(w, CommitStep(w, pid, restore, seen, a))
  {
    hide Sound, Extends, Completed, RowsGrow, OperationsAge, Disowned;
    var t := w.processes[pid].token;
    if !a.busy && w.db.operations[t.id].instance in w.runtimes {
      var latest := w.runtimes[w.db.operations[t.id].instance];
      var tx := CommitTx(w.db, t, restore, seen, latest, a.owns, a.sound);
      CommitKeeps(w.db, t, restore, seen, latest, a.owns, a.sound);
      if tx.Done? {
        GoneLawful(w, CommitStep(w, pid, restore, seen, a), pid);
        return;
      }
    }
    StayLawful(w, Raised(w, pid, restore), pid);
  }

  lemma CheckLawful(w: World, pid: Pid, a: Answers)
    requires Sound(w.db) && pid in w.processes
    ensures Lawful(w, CheckStep(w, pid, a))
  {
    hide Sound, Extends;
    var t := w.processes[pid].token;
    if !a.busy && t.id in w.db.operations && w.db.operations[t.id].instance in w.runtimes {
      var seen := w.runtimes[w.db.operations[t.id].instance];
      var tx := UnchangedTx(w.db, t, seen, a.owns, a.sound);
      UnchangedKeeps(w.db, t, seen, a.owns, a.sound);
      if tx.Done? {
        if tx.value { GoneLawful(w, CheckStep(w, pid, a), pid); } else { StayLawful(w, Goto(w, pid, Retreating), pid); }
        return;
      }
    }
    StayLawful(w, Goto(w, pid, GivingUp), pid);
  }

  lemma RetreatLawful(w: World, pid: Pid, a: Answers)
    requires Sound(w.db) && pid in w.processes
    ensures Lawful(w, RetreatStep(w, pid, a))
  {
    hide Sound, Extends;
    var tx := PhaseTx(w.db, w.processes[pid].token, RollingBack);
    PhaseKeeps(w.db, w.processes[pid].token, RollingBack);
    if a.busy || tx.Raise? { StayLawful(w, Goto(w, pid, GivingUp), pid); } else { GotoLawful(w, tx.docs, pid, Deploying(true)); }
  }

  lemma GiveUpLawful(w: World, pid: Pid, a: Answers)
    requires Sound(w.db) && pid in w.processes
    ensures Lawful(w, GiveUpStep(w, pid, a))
  {
    hide Sound, Extends;
    GiveUpKeeps(w.db, w.processes[pid].token);
    ExtendsItself(w.db);
    GoneLawful(w, GiveUpStep(w, pid, a), pid);
  }

  lemma IdleLawful(w: World, w': World)
    requires Sound(w.db) && w'.db == w.db && w'.processes == w.processes
    ensures Lawful(w, w')
  {
    ExtendsItself(w.db);
  }

  lemma ProcessLawful(w: World, pid: Pid, a: Answers)
    requires Sound(w.db) && (pid in w.processes ==> ProcessOk(w.db.operations, w.processes[pid]))
    ensures Lawful(w, ProcessStep(w, pid, a))
  {
    hide Sound, Extends;
    if pid !in w.processes { IdleLawful(w, w); return; }
    match w.processes[pid].at
    case Starting => StartLawful(w, pid, a);
    case Deploying(restore) => DeployLawful(w, pid, restore, a);
    case Deployed => VerifyingLawful(w, pid, a);
    case Inspecting(restore) => InspectLawful(w, pid, restore, a);
    case Recording(restore, seen) => RecordLawful(w, pid, restore, seen, a);
    case Committing(restore, seen) => CommitLawful(w, pid, restore, seen, a);
    case Checking => CheckLawful(w, pid, a);
    case Retreating => RetreatLawful(w, pid, a);
    case GivingUp => GiveUpLawful(w, pid, a);
  }

  /** One document or row is written and no process moves. */
  lemma DeskLawful(w: World, w': World)
    requires Sound(w'.db) && Extends(w.db, w'.db) && w'.processes == w.processes
    ensures Lawful(w, w')
  {}

  lemma BeginLawful(w: World, l: Label)
    requires Sound(w.db) && l.Begin?
    ensures Lawful(w, BeginStep(w, l))
  {
    hide Sound, Extends;
    if l.permitted && l.plan in w.db.plans && w.db.plans[l.plan].instance in w.runtimes && l.op !in w.db.operations {
      BeginKeeps(w.db, l.plan, l.nonce, l.expected, w.runtimes[w.db.plans[l.plan].instance], l.sound, l.op, l.executor, w.now);
      DeskLawful(w, BeginStep(w, l));
    } else {
      IdleLawful(w, w);
    }
  }

  lemma RegisterLawful(w: World, l: Label)
    requires Sound(w.db) && l.Register?
    ensures Lawful(w, RegisterStep(w, l))
  {
    hide Sound, Extends;
    if l.permitted && l.id in w.runtimes {
      RegisterKeeps(w.db, l.id, l.registration, l.baseline, w.runtimes[l.id], l.qualified, l.sound, l.elsewhere);
      DeskLawful(w, RegisterStep(w, l));
    } else {
      IdleLawful(w, w);
    }
  }

  lemma RecoverLawful(w: World, l: Label)
    requires Sound(w.db) && l.Recover?
    ensures Lawful(w, RecoverStep(w, l))
  {
    hide Sound, Extends;
    var w' := RecoverStep(w, l);
    if l.permitted && l.pid !in w.processes && l.op in w.db.operations
       && RecoverTx(w.db, l.op, l.nonce, l.executor, l.quiescent, w.now).Done? {
      var tx := RecoverTx(w.db, l.op, l.nonce, l.executor, l.quiescent, w.now);
      RecoverKeeps(w.db, l.op, l.nonce, l.executor, l.quiescent, w.now);
      assert w'.db == tx.docs && w'.processes == w.processes[l.pid := Process(tx.value, Checking)];
    } else {
      IdleLawful(w, w);
    }
  }

  lemma PlanLawful(w: World, l: Label)
    requires Sound(w.db) && l.MakePlan?
    ensures Lawful(w, PlanStep(w, l))
  {
    hide Sound, Extends;
    PlanKeeps(w.db, l.id, l.action, l.candidate, l.seen, l.budget, w.now, l.qualified, l.sound);
    if l.permitted { DeskLawful(w, PlanStep(w, l)); } else { IdleLawful(w, w); }
  }

  lemma ApproveLawful(w: World, l: Label)
    requires Sound(w.db) && l.Approve?
    ensures Lawful(w, ApproveStep(w, l))
  {
    hide Sound, Extends;
    if l.permitted && l.nonce !in w.db.approvals {
      ApproveKeeps(w.db, l.plan, l.nonce, w.now);
      DeskLawful(w, ApproveStep(w, l));
    } else {
      IdleLawful(w, w);
    }
  }

  lemma CancelLawful(w: World, l: Label)
    requires Sound(w.db) && l.Cancel?
    ensures Lawful(w, CancelStep(w, l))
  {
    hide Sound, Extends;
    CancelKeeps(w.db, l.plan);
    if l.permitted { DeskLawful(w, CancelStep(w, l)); } else { IdleLawful(w, w); }
  }

  lemma ApproveRecoveryLawful(w: World, l: Label)
    requires Sound(w.db) && l.ApproveRecovery?
    ensures Lawful(w, ApproveRecoveryStep(w, l))
  {
    hide Sound, Extends;
    if l.permitted && l.nonce !in w.db.tickets {
      ApproveRecoveryKeeps(w.db, l.op, l.nonce, l.ttl, w.now);
      DeskLawful(w, ApproveRecoveryStep(w, l));
    } else {
      IdleLawful(w, w);
    }
  }

  lemma MintLawful(w: World, l: Label)
    requires Sound(w.db) && l.Mint?
    ensures Lawful(w, MintStep(w, l))
  {
    hide Sound, Extends;
    if l.permitted && l.nonce !in w.db.grants {
      MintKeeps(w.db, l.token, l.nonce, l.command, l.owner, l.ttl, w.now);
      DeskLawful(w, MintStep(w, l));
    } else {
      IdleLawful(w, w);
    }
  }

  lemma ClaimLawful(w: World, l: Label)
    requires Sound(w.db) && l.Claim?
    ensures Lawful(w, ClaimStep(w, l))
  {
    hide Sound, Extends;
    if l.permitted && l.lease !in w.db.leases {
      ClaimKeeps(w.db, l.nonce, l.peer, l.command, l.lease, w.now);
      DeskLawful(w, ClaimStep(w, l));
    } else {
      IdleLawful(w, w);
    }
  }

  lemma RetireLawful(w: World, l: Label)
    requires Sound(w.db) && l.Retire?
    ensures Lawful(w, RetireStep(w, l))
  {
    hide Sound, Extends;
    RetireKeeps(w.db, l.lease, l.peer);
    if l.permitted { DeskLawful(w, RetireStep(w, l)); } else { IdleLawful(w, w); }
  }

  lemma PassiveLawful(w: World, l: Label)
    requires Sound(w.db) && (l.Execute? || l.Kill? || l.Advance? || l.Foreign?)
    ensures Lawful(w, Step(w, l))
  {
    hide Sound, Extends, After, PlanTx, ApproveTx, CancelTx, BeginTx, StartStep, DeployStep, VerifyingStep,
      InspectStep, RecordStep, CommitStep, CheckStep, RetreatStep, GiveUpStep, ApproveRecoveryTx, RecoverTx, MintTx,
      ClaimTx, RetireTx, Grows, Ages, Terminal, Bound, Confirms, PutOnce, ValidBudget, Used, PhaseTx, Goto, Raised,
      EffectTx, VerifyTx, EvidenceTx, CommitTx, Completed, UnchangedTx, GiveUpTx, TokenOf, GuardTx, RowsGrow,
      OperationsAge, PlanOk, OperationOk, InstanceOk, TicketOk, GrantOk, LeaseOk, TargetOf, RegisterTx, Enrolled,
      FromPlans, Coupled, OneShot, TicketsOk;
    ExtendsItself(w.db);
    if l.Advance? || l.Foreign? { IdleLawful(w, Step(w, l)); }
    else if l.Kill? { GoneLawful(w, Step(w, l), l.pid); }
    else if l.pid in w.processes { IdleLawful(w, Step(w, l)); }
    else { StayLawful(w, Step(w, l), l.pid); }
  }

  lemma StepLawful(w: World, l: Label)
    requires Safe(w)
    ensures Lawful(w, Step(w, l))
  {
    hide Sound, Extends;
    match l
    case Register(_, _, _, _, _, _, _) => RegisterLawful(w, l);
    case MakePlan(_, _, _, _, _, _, _, _) => PlanLawful(w, l);
    case Approve(_, _, _) => ApproveLawful(w, l);
    case Cancel(_, _) => CancelLawful(w, l);
    case Begin(_, _, _, _, _, _, _) => BeginLawful(w, l);
    case ByProcess(pid, a) => ProcessLawful(w, pid, a);
    case ApproveRecovery(_, _, _, _) => ApproveRecoveryLawful(w, l);
    case Recover(_, _, _, _, _, _) => RecoverLawful(w, l);
    case Mint(_, _, _, _, _, _) => MintLawful(w, l);
    case Claim(_, _, _, _, _) => ClaimLawful(w, l);
    case Retire(_, _, _) => RetireLawful(w, l);
    case _ => PassiveLawful(w, l);
  }

  lemma {:induction false} RunKeepsSafe(w: World, labels: seq<Label>)
    requires Safe(w)
    ensures Safe(Run(w, labels)) && Extends(w.db, Run(w, labels).db)
    decreases |labels|
  {
    if labels == [] {
      ExtendsItself(w.db);
    } else {
      var mid := Run(w, labels[..|labels| - 1]);
      RunKeepsSafe(w, labels[..|labels| - 1]);
      StepLawful(mid, labels[|labels| - 1]);
      LawfulKeepsSafe(mid, Run(w, labels));
      ExtendsTransitively(w.db, mid.db, Run(w, labels).db);
    }
  }

  lemma ExtendsTransitively(a: Db, b: Db, c: Db)
    requires Extends(a, b) && Extends(b, c)
    ensures Extends(a, c)
  {}
}
