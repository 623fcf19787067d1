/**
 What the steps of the controller machine leave alone.
 */
module ControllerFrames {
  import opened Schema
  import opened ControllerModel
  import opened ControllerMachine

  /** The host's runtimes and what was deployed on them. */
  ghost predicate SameHost(w: World, w': World) {
    && w'.runtimes == w.runtimes && w'.serial == w.serial
    && w'.history.deploys == w.history.deploys && w'.history.ran == w.history.ran
  }

  /** Operations, and the fences and executors they hold. */
  ghost predicate SameFences(w: World, w': World) {
    && w'.history.fences == w.history.fences
    && (forall o | o in w'.db.operations ::
          && o in w.db.operations && w'.db.operations[o].fence == w.db.operations[o].fence
          && w'.db.operations[o].executor == w.db.operations[o].executor)
  }

  /** What every instance is recorded to run and to be doing. */
  ghost predicate SameRows(w: World, w': World) {
    && w'.db.instances.Keys == w.db.instances.Keys
    && (forall id | id in w.db.instances ::
          && w'.db.instances[id].spec == w.db.instances[id].spec
          && w'.db.instances[id].operation == w.db.instances[id].operation
          && w'.db.instances[id].observation == w.db.instances[id].observation)
  }

  ghost predicate SameShelf(w: World, w': World) {
    w'.db.registrations == w.db.registrations && w'.db.plans == w.db.plans && w'.db.retained == w.db.retained && w'.history.enrolled == w.history.enrolled
  }

  ghost predicate SameEnds(w: World, w': World) { w'.history.completions == w.history.completions }

  ghost predicate Same(w: World, w': World) {
    SameHost(w, w') && SameFences(w, w') && SameRows(w, w') && SameShelf(w, w') && SameEnds(w, w')
  }

  lemma RegisterFrame(w: World, l: Label)
    requires l.Register?
    ensures var w' := RegisterStep(w, l); SameHost(w, w') && SameFences(w, w') && SameEnds(w, w')
    ensures RegisterStep(w, l).db.plans == w.db.plans
  {}

  lemma PlanFrame(w: World, l: Label)
    requires l.MakePlan?
    ensures var w' := PlanStep(w, l); SameHost(w, w') && SameFences(w, w') && SameRows(w, w') && SameEnds(w, w')
    ensures PlanStep(w, l).db.registrations == w.db.registrations
  {}

  lemma ApproveFrame(w: World, l: Label)
    requires l.Approve?
    ensures var w' := ApproveStep(w, l); Same(w, w')
  {}

  lemma CancelFrame(w: World, l: Label)
    requires l.Cancel?
    ensures var w' := CancelStep(w, l); Same(w, w')
  {}

  lemma ApproveRecoveryFrame(w: World, l: Label)
    requires l.ApproveRecovery?
    ensures var w' := ApproveRecoveryStep(w, l); Same(w, w')
  {}

  lemma MintFrame(w: World, l: Label)
    requires l.Mint?
    ensures var w' := MintStep(w, l); Same(w, w')
  {}

  lemma ClaimFrame(w: World, l: Label)
    requires l.Claim?
    ensures var w' := ClaimStep(w, l); Same(w, w')
  {}

  lemma RetireFrame(w: World, l: Label)
    requires l.Retire?
    ensures var w' := RetireStep(w, l); Same(w, w')
  {}

  lemma BeginFrame(w: World, l: Label)
    requires l.Begin?
    ensures var w' := BeginStep(w, l); SameHost(w, w') && SameEnds(w, w')
    ensures BeginStep(w, l).db.plans == w.db.plans
    ensures BeginStep(w, l).db.registrations == w.db.registrations && BeginStep(w, l).db.instances.Keys == w.db.instances.Keys
  {}

  lemma RecoverFrame(w: World, l: Label)
    requires l.Recover?
    ensures var w' := RecoverStep(w, l); SameHost(w, w') && SameRows(w, w') && SameShelf(w, w') && SameEnds(w, w')
  {
    hide Terminal, TokenOf;
  }

  lemma StartFrame(w: World, pid: Pid, a: Answers)
    requires pid in w.processes
    ensures var w' := StartStep(w, pid, a); Same(w, w')
  {}

  lemma DeployFrame(w: World, pid: Pid, restore: bool, a: Answers)
    requires pid in w.processes
    ensures var w' := DeployStep(w, pid, restore, a); w'.db == w.db && SameFences(w, w') && SameRows(w, w') && SameShelf(w, w') && SameEnds(w, w')
  {
    hide DeadlineOf, TargetOf, Confirms, Terminal, EffectTx;
  }

  lemma VerifyingFrame(w: World, pid: Pid, a: Answers)
    requires pid in w.processes
    ensures var w' := VerifyingStep(w, pid, a); Same(w, w')
  {}

  lemma InspectFrame(w: World, pid: Pid, restore: bool, a: Answers)
    requires pid in w.processes
    ensures var w' := InspectStep(w, pid, restore, a); w'.db == w.db && Same(w, w')
  {}

  lemma RecordFrame(w: World, pid: Pid, restore: bool, seen: Runtime, a: Answers)
    requires pid in w.processes
    ensures var w' := RecordStep(w, pid, restore, seen, a); Same(w, w')
  {}

  lemma CommitFrame(w: World, pid: Pid, restore: bool, seen: Runtime, a: Answers)
    requires pid in w.processes
    ensures var w' := CommitStep(w, pid, restore, seen, a); SameHost(w, w') && SameFences(w, w') && SameShelf(w, w')
    ensures CommitStep(w, pid, restore, seen, a).db.instances.Keys == w.db.instances.Keys
  {
    hide Confirms, TargetOf;
  }

  lemma CheckFrame(w: World, pid: Pid, a: Answers)
    requires pid in w.processes
    ensures var w' := CheckStep(w, pid, a); SameHost(w, w') && SameFences(w, w') && SameShelf(w, w')
  {
    hide Disowned;
  }

  lemma CheckKeys(db: Db, t: Token, seen: Runtime, owns: bool, sound: bool)
    ensures After(UnchangedTx(db, t, seen, owns, sound), db).instances.Keys == db.instances.Keys
  {}

  lemma CheckLeavesRegistry(w: World, pid: Pid, a: Answers)
    requires pid in w.processes
    ensures SameRegistry(w, CheckStep(w, pid, a)) && CheckStep(w, pid, a).db.plans == w.db.plans
  {
    hide SameHost, SameFences, UnchangedTx;
    CheckFrame(w, pid, a);
    var t := w.processes[pid].token;
    if t.id in w.db.operations && w.db.operations[t.id].instance in w.runtimes {
      CheckKeys(w.db, t, w.runtimes[w.db.operations[t.id].instance], a.owns, a.sound);
    }
  }

  lemma RetreatFrame(w: World, pid: Pid, a: Answers)
    requires pid in w.processes
    ensures var w' := RetreatStep(w, pid, a); Same(w, w')
  {}

  lemma GiveUpFrame(w: World, pid: Pid, a: Answers)
    requires pid in w.processes
    ensures var w' := GiveUpStep(w, pid, a); Same(w, w')
  {}

  lemma PassiveFrame(w: World, l: Label)
    requires l.Execute? || l.Kill? || l.Advance?
    ensures var w' := Step(w, l); w'.db == w.db && Same(w, w')
  {
    hide DeployStep, VerifyingStep, InspectStep, RecordStep, CommitStep, CheckStep, RetreatStep, GiveUpStep,
      ApproveRecoveryTx, RecoverTx, MintTx, ClaimTx, RetireTx, Confirms, PutOnce, ValidBudget, Used, PhaseTx, Goto,
      Raised, EffectTx, VerifyTx, EvidenceTx, CommitTx, Completed, UnchangedTx, GiveUpTx, Terminal, TokenOf, GuardTx,
      PlanStep, ApproveStep, CancelStep, BeginStep;
  }

  ghost predicate SameRegistry(w: World, w': World) {
    w'.db.registrations == w.db.registrations && w'.db.instances.Keys == w.db.instances.Keys
  }

  lemma ProcessLeavesRegistry(w: World, pid: Pid, a: Answers)
    ensures SameRegistry(w, ProcessStep(w, pid, a)) && ProcessStep(w, pid, a).db.plans == w.db.plans
  {
    hide StartStep, DeployStep, VerifyingStep, InspectStep, RecordStep, CommitStep, CheckStep, RetreatStep, GiveUpStep,
      SameHost, SameFences, SameEnds;
    if pid !in w.processes { return; }
    match w.processes[pid].at
    case Starting => StartFrame(w, pid, a);
    case Deploying(restore) => DeployFrame(w, pid, restore, a);
    case Deployed => VerifyingFrame(w, pid, a);
    case Inspecting(restore) => InspectFrame(w, pid, restore, a);
    case Recording(restore, seen) => RecordFrame(w, pid, restore, seen, a);
    case Committing(restore, seen) => CommitFrame(w, pid, restore, seen, a);
    case Checking => CheckLeavesRegistry(w, pid, a);
    case Retreating => RetreatFrame(w, pid, a);
    case GivingUp => GiveUpFrame(w, pid, a);
  }

  lemma SameIsSameRegistry(w: World, w': World)
    requires SameRows(w, w') && SameShelf(w, w')
    ensures SameRegistry(w, w') && w'.db.plans == w.db.plans
  {}

  lemma OthersLeaveRegistry(w: World, l: Label)
    requires l.Approve? || l.Cancel? || l.ApproveRecovery? || l.Recover? || l.Mint? || l.Claim? || l.Retire?
    ensures SameRegistry(w, Step(w, l)) && Step(w, l).db.plans == w.db.plans
  {
    hide ApproveStep, CancelStep, ApproveRecoveryStep, RecoverStep, MintStep, ClaimStep, RetireStep, SameHost, SameFences,
      SameEnds, SameRows, SameShelf, SameRegistry;
    match l {
      case Approve(_, _, _) => ApproveFrame(w, l);
      case Cancel(_, _) => CancelFrame(w, l);
      case ApproveRecovery(_, _, _, _) => ApproveRecoveryFrame(w, l);
      case Recover(_, _, _, _, _, _) => RecoverFrame(w, l);
      case Mint(_, _, _, _, _, _) => MintFrame(w, l);
      case Claim(_, _, _, _, _) => ClaimFrame(w, l);
      case Retire(_, _, _) => RetireFrame(w, l);
    }
    SameIsSameRegistry(w, Step(w, l));
  }

  /** Only a registration writes the registration table or adds an instance. */
  lemma RegistryStays(w: World, l: Label)
    requires !l.Register?
    ensures SameRegistry(w, Step(w, l))
  {
    hide PlanStep, ApproveStep, CancelStep, BeginStep, ApproveRecoveryStep, RecoverStep, ProcessStep, MintStep, ClaimStep,
      RetireStep, RegisterStep, SameHost, SameFences, SameEnds, SameShelf;
    match l
    case MakePlan(_, _, _, _, _, _, _, _) => PlanFrame(w, l);
    case Begin(_, _, _, _, _, _, _) => BeginFrame(w, l);
    case ByProcess(pid, a) => ProcessLeavesRegistry(w, pid, a);
    case Execute(_, _) =>
    case Kill(_) =>
    case Advance(_) =>
    case Foreign(_, _) =>
    case _ => OthersLeaveRegistry(w, l);
  }

  /** Only `plan` writes plans. */
  lemma PlansStay(w: World, l: Label)
    requires !l.MakePlan?
    ensures Step(w, l).db.plans == w.db.plans
  {
    hide PlanStep, ApproveStep, CancelStep, BeginStep, ApproveRecoveryStep, RecoverStep, ProcessStep, MintStep, ClaimStep,
      RetireStep, RegisterStep, SameHost, SameFences, SameEnds, SameShelf, SameRegistry;
    match l
    case Register(_, _, _, _, _, _, _) => RegisterFrame(w, l);
    case Begin(_, _, _, _, _, _, _) => BeginFrame(w, l);
    case ByProcess(pid, a) => ProcessLeavesRegistry(w, pid, a);
    case Execute(_, _) =>
    case Kill(_) =>
    case Advance(_) =>
    case Foreign(_, _) =>
    case _ => OthersLeaveRegistry(w, l);
  }
}
