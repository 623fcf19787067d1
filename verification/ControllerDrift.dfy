/**
 What never drifts over a run, foreign writers included: model and resources stay those
 of the registered baseline, and a rollback goes to something the instance once ran.
 */
module ControllerDrift {
  import opened Schema
  import opened ControllerModel
  import opened ControllerMachine
  import opened ControllerInvariants
  import opened ControllerFrames
  import opened ControllerSafety

  type Baselines = map<InstanceId, Spec>

  /** The specification has the model and the resources `id` was registered with. */
  ghost predicate Fits(enrolled: Baselines, id: InstanceId, h: SpecHash) {
    id in enrolled && h.content.shape == enrolled[id].shape
  }

  ghost predicate Shaped(w: World) {
    && w.history.enrolled.Keys == w.db.instances.Keys
    && (forall id | id in w.db.instances :: Fits(w.history.enrolled, id, w.db.instances[id].spec))
    && (forall p | p in w.db.plans ::
          Fits(w.history.enrolled, p.plan.instance, p.plan.baseline) && Fits(w.history.enrolled, p.plan.instance, p.plan.candidate))
    && (forall d | d in w.history.deploys :: Fits(w.history.enrolled, d.instance, d.spec))
  }

  /** Whatever runs, is recorded as live, is retained, or is the target of a rollback
      plan, has run. */
  ghost predicate Remembered(w: World) {
    && (forall id | id in w.runtimes :: (id, w.runtimes[id].spec) in w.history.ran)
    && (forall pair | pair in w.db.retained :: pair in w.history.ran)
    && (forall p | p in w.db.plans && p.plan.action == Rollback :: (p.plan.instance, p.plan.candidate) in w.history.ran)
  }

  ghost predicate Steady(w: World) { Shaped(w) && Remembered(w) }

  // ---------------------------------------------------------------- quiet steps

  lemma QuietKeepsSteady(w: World, w': World)
    requires Steady(w) && SameRows(w, w') && SameShelf(w, w') && SameHost(w, w')
    ensures Steady(w')
  {}

  lemma RegisterWrites(db: Db, id: InstanceId, registration: Registration, baseline: Spec, seen: Runtime,
                       qualified: bool, sound: bool, elsewhere: bool)
    requires RegisterTx(db, id, registration, baseline, seen, qualified, sound, elsewhere).Done?
    ensures var db' := RegisterTx(db, id, registration, baseline, seen, qualified, sound, elsewhere).docs;
            && id !in db.instances && db'.plans == db.plans && db'.retained == db.retained
            && id in db'.instances && db'.instances == db.instances[id := db'.instances[id]]
            && db'.instances[id].spec == Digest(baseline)
  {}

  /** The new instance fits its own baseline, and the others what they fitted. */
  lemma FitsMore(enrolled: Baselines, id: InstanceId, baseline: Spec, j: InstanceId, h: SpecHash)
    requires Fits(enrolled, j, h) && id !in enrolled
    ensures Fits(enrolled[id := baseline], j, h)
  {}

  lemma NewInstanceShaped(w: World, w': World, id: InstanceId, baseline: Spec)
    requires Shaped(w) && id !in w.db.instances && w'.db.plans == w.db.plans
    requires w'.history == w.history.(enrolled := w.history.enrolled[id := baseline])
    requires id in w'.db.instances && w'.db.instances == w.db.instances[id := w'.db.instances[id]]
    requires w'.db.instances[id].spec == Digest(baseline)
    ensures Shaped(w')
  {
    var enrolled := w.history.enrolled;
    assert Fits(enrolled[id := baseline], id, Digest(baseline));
    hide Fits;
    forall j | j in w.db.instances
      ensures Fits(enrolled[id := baseline], j, w.db.instances[j].spec)
    {
      FitsMore(enrolled, id, baseline, j, w.db.instances[j].spec);
    }
    forall p | p in w.db.plans
      ensures Fits(enrolled[id := baseline], p.plan.instance, p.plan.baseline)
      ensures Fits(enrolled[id := baseline], p.plan.instance, p.plan.candidate)
    {
      FitsMore(enrolled, id, baseline, p.plan.instance, p.plan.baseline);
      FitsMore(enrolled, id, baseline, p.plan.instance, p.plan.candidate);
    }
    forall d | d in w.history.deploys
      ensures Fits(enrolled[id := baseline], d.instance, d.spec)
    {
      FitsMore(enrolled, id, baseline, d.instance, d.spec);
    }
  }

  lemma NewInstanceFits(w: World, w': World, id: InstanceId, baseline: Spec)
    requires Steady(w) && w'.runtimes == w.runtimes && id !in w.db.instances
    requires w'.db.plans == w.db.plans && w'.db.retained == w.db.retained
    requires w'.history == w.history.(enrolled := w.history.enrolled[id := baseline])
    requires id in w'.db.instances && w'.db.instances == w.db.instances[id := w'.db.instances[id]]
    requires w'.db.instances[id].spec == Digest(baseline)
    ensures Steady(w')
  {
    hide Shaped;
    NewInstanceShaped(w, w', id, baseline);
  }

  lemma RegisterKeepsSteady(w: World, l: Label)
    requires Steady(w) && l.Register?
    ensures Steady(RegisterStep(w, l))
  {
    hide RegisterTx, Steady;
    if l.permitted && l.id in w.runtimes
       && RegisterTx(w.db, l.id, l.registration, l.baseline, w.runtimes[l.id], l.qualified, l.sound, l.elsewhere).Done? {
      RegisterWrites(w.db, l.id, l.registration, l.baseline, w.runtimes[l.id], l.qualified, l.sound, l.elsewhere);
      NewInstanceFits(w, RegisterStep(w, l), l.id, l.baseline);
    }
  }

  /** The checks of `plan` that make the difference. */
  lemma PlanWrites(db: Db, id: InstanceId, action: Action, candidate: Spec, seen: Runtime, budget: Budget,
                   now: real, qualified: bool, sound: bool)
    requires SpecsOk(db.specs) && PlanTx(db, id, action, candidate, seen, budget, now, qualified, sound).Done?
    ensures var tx := PlanTx(db, id, action, candidate, seen, budget, now, qualified, sound);
            var p := tx.value;
            && tx.docs.instances == db.instances && tx.docs.retained == db.retained && tx.docs.plans == db.plans[p := p.plan]
            && p.plan.instance in db.instances && p.plan.baseline == db.instances[p.plan.instance].spec
            && p.plan.candidate.content.shape == p.plan.baseline.content.shape
            && (p.plan.action == Rollback ==> (p.plan.instance, p.plan.candidate) in db.retained)
  {}

  lemma PlanKeepsSteady(w: World, l: Label)
    requires Sound(w.db) && Steady(w) && l.MakePlan?
    ensures Steady(PlanStep(w, l))
  {
    hide PlanTx, Sound;
    KnownSpecs(w.db);
    var tx := PlanTx(w.db, l.id, l.action, l.candidate, l.seen, l.budget, w.now, l.qualified, l.sound);
    if l.permitted && tx.Done? {
      PlanWrites(w.db, l.id, l.action, l.candidate, l.seen, l.budget, w.now, l.qualified, l.sound);
      NewPlanFits(w, PlanStep(w, l), tx.value);
    }
  }

  lemma KnownSpecs(db: Db)
    requires Sound(db)
    ensures SpecsOk(db.specs)
  {}

  lemma NewPlanFits(w: World, w': World, p: PlanId)
    requires Steady(w) && w'.db.instances == w.db.instances && w'.db.retained == w.db.retained && w'.runtimes == w.runtimes
    requires w'.history == w.history && w'.db.plans == w.db.plans[p := p.plan]
    requires p.plan.instance in w.db.instances && p.plan.baseline == w.db.instances[p.plan.instance].spec
    requires p.plan.candidate.content.shape == p.plan.baseline.content.shape
    requires p.plan.action == Rollback ==> (p.plan.instance, p.plan.candidate) in w.db.retained
    ensures Steady(w')
  {}

  lemma BeginWrites(db: Db, p: PlanId, nonce: Nonce, expected: Option<Action>, seen: Runtime, sound: bool,
                    o: OpId, executor: Executor, now: real)
    requires BeginTx(db, p, nonce, expected, seen, sound, o, executor, now).Done?
    ensures var db' := BeginTx(db, p, nonce, expected, seen, sound, o, executor, now).docs;
            var plan := db.plans[p];
            && db'.plans == db.plans && db'.retained == db.retained + {(plan.instance, seen.spec)}
            && db'.instances.Keys == db.instances.Keys
            && (forall id | id in db.instances :: db'.instances[id].spec == db.instances[id].spec)
  {}

  lemma BeginKeepsSteady(w: World, l: Label)
    requires Steady(w) && l.Begin?
    ensures Steady(BeginStep(w, l))
  {
    hide BeginTx, Confirms, Fits;
    BeginFrame(w, l);
    if l.permitted && l.op !in w.db.operations && l.plan in w.db.plans && w.db.plans[l.plan].instance in w.runtimes {
      var id := w.db.plans[l.plan].instance;
      if BeginTx(w.db, l.plan, l.nonce, l.expected, w.runtimes[id], l.sound, l.op, l.executor, w.now).Done? {
        BeginWrites(w.db, l.plan, l.nonce, l.expected, w.runtimes[id], l.sound, l.op, l.executor, w.now);
      }
    }
  }

  /** An operation's target fits its instance, because its plan does. */
  lemma TargetFits(w: World, o: OpId, restore: bool)
    requires Safe(w) && Shaped(w) && o in w.db.operations
    ensures Fits(w.history.enrolled, w.db.operations[o].instance, TargetOf(w.db.operations[o], restore))
  {
    assert OperationOk(w.db.instances, w.db.operations[o]) && w.db.operations[o].plan in w.db.plans;
  }

  lemma EffectIsTarget(db: Db, t: Token, restore: bool, seen: Runtime, now: real, gate: bool, qualified: bool, owns: bool, sound: bool)
    requires SpecsOk(db.specs) && EffectTx(db, t, restore, seen, now, gate, qualified, owns, sound).Done?
    ensures t.id in db.operations
    ensures Digest(EffectTx(db, t, restore, seen, now, gate, qualified, owns, sound).value) == TargetOf(db.operations[t.id], restore)
  {}

  /** What a deployment that was asked for adds to the history and to the host. */
  ghost predicate Adds(w: World, w': World, d: Deploy) {
    && w'.history.deploys == w.history.deploys + [d]
    && (|| (w'.history.ran == w.history.ran && w'.runtimes == w.runtimes)
        || (w'.history.ran == w.history.ran + {(d.instance, d.spec)}
            && w'.runtimes == w.runtimes[d.instance := Runtime(d.spec, w.serial)]))
  }

  ghost predicate AddsNothing(w: World, w': World) {
    w'.history.deploys == w.history.deploys && w'.history.ran == w.history.ran && w'.runtimes == w.runtimes
  }

  lemma DeployAdds(w: World, pid: Pid, restore: bool, a: Answers)
    requires SpecsOk(w.db.specs) && pid in w.processes
    ensures var w' := DeployStep(w, pid, restore, a);
            var t := w.processes[pid].token;
            && w'.db == w.db && w'.history.enrolled == w.history.enrolled
            && (|| AddsNothing(w, w')
                || (t.id in w.db.operations
                    && Adds(w, w', Deploy(t.id, w.db.operations[t.id].instance, restore, TargetOf(w.db.operations[t.id], restore), a.takes))))
  {
    hide EffectTx;
    var t := w.processes[pid].token;
    if !a.busy && t.id in w.db.operations && w.db.operations[t.id].instance in w.runtimes {
      var seen := w.runtimes[w.db.operations[t.id].instance];
      if EffectTx(w.db, t, restore, seen, w.now, a.gate, a.qualified, a.owns, a.sound).Done? {
        EffectIsTarget(w.db, t, restore, seen, w.now, a.gate, a.qualified, a.owns, a.sound);
      }
    }
  }

  lemma OneDeployFits(w: World, w': World, d: Deploy)
    requires Steady(w) && w'.db == w.db && w'.history.enrolled == w.history.enrolled
    requires w'.history.deploys == w.history.deploys + [d] && Fits(w.history.enrolled, d.instance, d.spec)
    requires || (w'.history.ran == w.history.ran && w'.runtimes == w.runtimes)
             || (w'.history.ran == w.history.ran + {(d.instance, d.spec)}
                 && w'.runtimes == w.runtimes[d.instance := Runtime(d.spec, w.serial)])
    ensures Steady(w')
  {}

  lemma DeployKeepsSteady(w: World, pid: Pid, restore: bool, a: Answers)
    requires Safe(w) && Steady(w) && pid in w.processes
    ensures Steady(DeployStep(w, pid, restore, a))
  {
    hide Sound, Steady, DeployStep;
    KnownSpecs(w.db);
    DeployAdds(w, pid, restore, a);
    var w', t := DeployStep(w, pid, restore, a), w.processes[pid].token;
    if !AddsNothing(w, w') {
      SteadyShapes(w);
      TargetFits(w, t.id, restore);
      OneDeployFits(w, w', Deploy(t.id, w.db.operations[t.id].instance, restore, TargetOf(w.db.operations[t.id], restore), a.takes));
    } else {
      SteadyStays(w, w');
    }
  }

  lemma SteadyShapes(w: World)
    requires Steady(w)
    ensures Shaped(w)
  {}

  lemma SteadyStays(w: World, w': World)
    requires Steady(w) && w'.db == w.db && w'.runtimes == w.runtimes && w'.history.enrolled == w.history.enrolled
    requires w'.history.deploys == w.history.deploys && w'.history.ran == w.history.ran
    ensures Steady(w')
  {}

  lemma CommitWrites(db: Db, t: Token, restore: bool, observed: Runtime, latest: Runtime, owns: bool, sound: bool)
    requires CommitTx(db, t, restore, observed, latest, owns, sound).Done?
    ensures var db' := CommitTx(db, t, restore, observed, latest, owns, sound).docs;
            && t.id in db.operations && db'.plans == db.plans && db'.retained == db.retained && db'.instances.Keys == db.instances.Keys
            && (forall id | id in db.instances ::
                  || db'.instances[id].spec == db.instances[id].spec
                  || (id == db.operations[t.id].instance && db'.instances[id].spec == TargetOf(db.operations[t.id], restore)))
  {}

  lemma CommitKeepsSteady(w: World, pid: Pid, restore: bool, seen: Runtime, a: Answers)
    requires Safe(w) && Steady(w) && pid in w.processes
    ensures Steady(CommitStep(w, pid, restore, seen, a))
  {
    hide CommitTx, Sound, Completed, Disowned, Confirms, TargetOf, SetPhase, SpecsOk, PlansOk, Enrolled, FromPlans,
      Coupled, OneShot, TicketsOk, GrantsOk, Consumed, Holding, Fits;
    var t := w.processes[pid].token;
    CommitFrame(w, pid, restore, seen, a);
    if !a.busy && t.id in w.db.operations && w.db.operations[t.id].instance in w.runtimes {
      var latest := w.runtimes[w.db.operations[t.id].instance];
      if CommitTx(w.db, t, restore, seen, latest, a.owns, a.sound).Done? {
        CommitWrites(w.db, t, restore, seen, latest, a.owns, a.sound);
        TargetFits(w, t.id, restore);
      }
    }
  }

  lemma CheckKeepsSpecs(w: World, pid: Pid, a: Answers)
    requires pid in w.processes
    ensures var w' := CheckStep(w, pid, a);
            w'.db.instances.Keys == w.db.instances.Keys && forall id | id in w.db.instances :: w'.db.instances[id].spec == w.db.instances[id].spec
  {}

  lemma CheckKeepsSteady(w: World, pid: Pid, a: Answers)
    requires Steady(w) && pid in w.processes
    ensures Steady(CheckStep(w, pid, a))
  {
    CheckFrame(w, pid, a);
    CheckKeepsSpecs(w, pid, a);
    hide CheckStep;
  }

  lemma ProcessKeepsSteady(w: World, pid: Pid, a: Answers)
    requires Safe(w) && Steady(w)
    ensures Steady(ProcessStep(w, pid, a))
  {
    hide Sound, Steady, SameFences, SameShelf, SameHost, SameRows, SameEnds;
    if pid !in w.processes { return; }
    var w' := ProcessStep(w, pid, a);
    match w.processes[pid].at
    case Starting => StartFrame(w, pid, a); QuietKeepsSteady(w, w');
    case Deploying(restore) => DeployKeepsSteady(w, pid, restore, a);
    case Deployed => VerifyingFrame(w, pid, a); QuietKeepsSteady(w, w');
    case Inspecting(restore) => InspectFrame(w, pid, restore, a); QuietKeepsSteady(w, w');
    case Recording(restore, seen) => RecordFrame(w, pid, restore, seen, a); QuietKeepsSteady(w, w');
    case Committing(restore, seen) => CommitKeepsSteady(w, pid, restore, seen, a);
    case Checking => CheckKeepsSteady(w, pid, a);
    case Retreating => RetreatFrame(w, pid, a); QuietKeepsSteady(w, w');
    case GivingUp => GiveUpFrame(w, pid, a); QuietKeepsSteady(w, w');
  }

  lemma StepKeepsSteady(w: World, l: Label)
    requires Safe(w) && Steady(w)
    ensures Steady(Step(w, l))
  {
    hide Sound, Steady, SameFences, SameShelf, SameHost, SameRows, SameEnds, StartStep, DeployStep, VerifyingStep,
      InspectStep, RecordStep, CommitStep, CheckStep, RetreatStep, GiveUpStep, ApproveRecoveryTx, RecoverTx, MintTx,
      ClaimTx, RetireTx, PlanOk, OperationOk, InstanceOk, TicketOk, GrantOk, LeaseOk, Confirms, PutOnce, ValidBudget,
      Used, PhaseTx, Goto, Raised, EffectTx, VerifyTx, EvidenceTx, CommitTx, Completed, UnchangedTx, GiveUpTx,
      Terminal, TokenOf, GuardTx, Bound, ForeignStep, SpecsOk, PlansOk, Enrolled, FromPlans, Coupled, OneShot,
      TicketsOk, GrantsOk, Consumed, Holding, TargetOf, Fits, RegisterTx, After, PlanTx, ApproveTx, CancelTx, BeginTx,
      BeginStep, ExecuteStep, ProcessStep, Gone, ApproveRecoveryStep, RecoverStep, MintStep, ClaimStep, RetireStep,
      AdvanceStep, ProcessOk, Shaped;
    match l
    case Register(_, _, _, _, _, _, _) => RegisterKeepsSteady(w, l);
    case MakePlan(_, _, _, _, _, _, _, _) => PlanKeepsSteady(w, l);
    case Begin(_, _, _, _, _, _, _) => BeginKeepsSteady(w, l);
    case ByProcess(pid, a) => ProcessKeepsSteady(w, pid, a);
    case Foreign(_, _) => ForeignKeepsSteady(w, l);
    case Approve(_, _, _) => ApproveFrame(w, l); QuietKeepsSteady(w, Step(w, l));
    case Cancel(_, _) => CancelFrame(w, l); QuietKeepsSteady(w, Step(w, l));
    case ApproveRecovery(_, _, _, _) => ApproveRecoveryFrame(w, l); QuietKeepsSteady(w, Step(w, l));
    case Recover(_, _, _, _, _, _) => RecoverFrame(w, l); QuietKeepsSteady(w, Step(w, l));
    case Mint(_, _, _, _, _, _) => MintFrame(w, l); QuietKeepsSteady(w, Step(w, l));
    case Claim(_, _, _, _, _) => ClaimFrame(w, l); QuietKeepsSteady(w, Step(w, l));
    case Retire(_, _, _) => RetireFrame(w, l); QuietKeepsSteady(w, Step(w, l));
    case _ => PassiveFrame(w, l); QuietKeepsSteady(w, Step(w, l));
  }

  lemma ForeignKeepsSteady(w: World, l: Label)
    requires Steady(w) && l.Foreign?
    ensures Steady(Step(w, l))
  {
    hide VerifyingStep, InspectStep, RecordStep, CommitStep, CheckStep, RetreatStep, GiveUpStep, ApproveRecoveryTx,
      RecoverTx, MintTx, ClaimTx, RetireTx, Confirms, PutOnce, ValidBudget, Used, PhaseTx, Goto, Raised, EffectTx,
      VerifyTx, EvidenceTx, CommitTx, Completed, UnchangedTx, GiveUpTx, Terminal, TokenOf, GuardTx, CancelStep,
      BeginStep, ExecuteStep, ProcessStep, Gone, ApproveRecoveryStep, RecoverStep, After, PlanTx, ApproveTx, CancelTx,
      BeginTx, StartStep, DeployStep;
  }

  lemma {:induction false} RunKeepsSteady(w: World, labels: seq<Label>)
    requires Safe(w) && Steady(w)
    ensures Steady(Run(w, labels))
    decreases |labels|
  {
    if labels != [] {
      var before := labels[..|labels| - 1];
      RunKeepsSteady(w, before);
      RunKeepsSafe(w, before);
      StepKeepsSteady(Run(w, before), labels[|labels| - 1]);
    }
  }

  /** Every specification ever recorded as live or deployed has the model and resources
      its instance was registered with, and every accepted rollback plan names a
      specification that ran on that instance. */
  lemma ModelAndResourcesNeverDrift(w: World, labels: seq<Label>)
    requires Initial(w)
    ensures var w' := Run(w, labels);
            && (forall id | id in w'.db.instances ::
                  id in w'.history.enrolled && w'.db.instances[id].spec.content.shape == w'.history.enrolled[id].shape)
            && (forall d | d in w'.history.deploys ::
                  d.instance in w'.history.enrolled && d.spec.content.shape == w'.history.enrolled[d.instance].shape)
            && (forall p | p in w'.db.plans && p.plan.action == Rollback :: (p.plan.instance, p.plan.candidate) in w'.history.ran)
  {
    hide After, PlanTx, ApproveTx, CancelTx, BeginTx, StartStep, DeployStep, VerifyingStep, InspectStep, RecordStep,
      CommitStep, CheckStep, RetreatStep, GiveUpStep, ApproveRecoveryTx, RecoverTx, MintTx, ClaimTx, RetireTx,
      ProcessStep, Gone, ApproveRecoveryStep, RecoverStep, MintStep, ClaimStep, RetireStep, AdvanceStep, ForeignStep,
      RegisterTx, Step, RegisterStep;
    InitialSafe(w);
    RunKeepsSteady(w, labels);
  }

  // ------------------------------------------------------------------ one-shot plans

  /** However many approvals are minted, a plan reserves at most one operation, and none
      when it is cancelled; operations and consumed approvals are equal in number; and
      one recovery approval is consumed per fence. */
  lemma PlansAreOneShot(w: World, labels: seq<Label>)
    requires Initial(w)
    ensures var db := Run(w, labels).db;
            && (forall a, b | a in db.operations && b in db.operations && db.operations[a].plan == db.operations[b].plan :: a == b)
            && (forall o | o in db.operations :: db.operations[o].plan in db.plans && db.operations[o].plan !in db.cancelled)
            && |Consumed(db.approvals)| == |db.operations|
            && (forall a, b | a in db.tickets && b in db.tickets && db.tickets[a].consumed && db.tickets[b].consumed
                              && db.tickets[a].instance == db.tickets[b].instance && db.tickets[a].fence == db.tickets[b].fence :: a == b)
  {
    InitialSafe(w);
    RunKeepsSafe(w, labels);
  }
}
