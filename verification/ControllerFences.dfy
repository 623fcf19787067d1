/**
 Fences, tokens and forward deployments over runs, foreign writers included.
 */
module ControllerFences {
  import opened Schema
  import opened ControllerModel
  import opened ControllerMachine
  import opened ControllerInvariants
  import opened ControllerFrames
  import opened ControllerSafety

  // ------------------------------------------------------------ who owns a fence

  /** Every fence handed out has one owner, and every operation holds one of them. */
  ghost predicate Granted(fences: set<Fencing>, rows: Rows, operations: Operations) {
    && (forall f | f in fences ::
          && f.instance in rows && f.fence <= rows[f.instance].fence
          && f.op in operations && operations[f.op].instance == f.instance)
    && (forall f, g | f in fences && g in fences && f.instance == g.instance && f.fence == g.fence :: f == g)
    && (forall o | o in operations ::
          Fencing(operations[o].instance, operations[o].fence, o, operations[o].executor) in fences)
  }

  ghost predicate Fenced(w: World) { Granted(w.history.fences, w.db.instances, w.db.operations) }

  lemma QuietKeepsFenced(w: World, w': World)
    requires Fenced(w) && Extends(w.db, w'.db) && SameFences(w, w')
    ensures Fenced(w')
  {
    forall f | f in w'.history.fences
      ensures f.op in w'.db.operations && w'.db.operations[f.op].instance == f.instance
    {
      assert Ages(w.db.operations[f.op], w'.db.operations[f.op]);
    }
    forall o | o in w'.db.operations
      ensures Fencing(w'.db.operations[o].instance, w'.db.operations[o].fence, o, w'.db.operations[o].executor) in w'.history.fences
    {
      assert Ages(w.db.operations[o], w'.db.operations[o]);
    }
  }

  /** A new fence is one above anything the instance has seen. */
  lemma NewFence(fences: set<Fencing>, rows: Rows, operations: Operations, rows': Rows, operations': Operations, f: Fencing)
    requires Granted(fences, rows, operations) && RowsGrow(rows, rows')
    requires f.instance in rows && f.fence == rows[f.instance].fence + 1 && f.fence <= rows'[f.instance].fence
    requires f.op in operations' && operations' == operations[f.op := operations'[f.op]]
    requires operations'[f.op].instance == f.instance && operations'[f.op].fence == f.fence && operations'[f.op].executor == f.executor
    requires f.op in operations ==> operations[f.op].instance == f.instance
    ensures Granted(fences + {f}, rows', operations')
  {}

  lemma BeginShape(db: Db, p: PlanId, nonce: Nonce, expected: Option<Action>, seen: Runtime, sound: bool,
                   o: OpId, executor: Executor, now: real)
    requires BeginTx(db, p, nonce, expected, seen, sound, o, executor, now).Done?
    ensures var tx := BeginTx(db, p, nonce, expected, seen, sound, o, executor, now);
            var op := tx.value;
            && op.id == o && op.executor == executor && tx.docs.operations == db.operations[o := op]
            && op.instance in db.instances && op.fence == db.instances[op.instance].fence + 1
            && op.instance in tx.docs.instances && tx.docs.instances[op.instance].fence == op.fence
  {}

  lemma BeginKeepsFenced(w: World, l: Label)
    requires Safe(w) && Fenced(w) && l.Begin?
    ensures Fenced(BeginStep(w, l))
  {
    hide Sound, Granted, BeginTx;
    BeginLawful(w, l);
    if l.permitted && l.op !in w.db.operations && l.plan in w.db.plans && w.db.plans[l.plan].instance in w.runtimes {
      var seen := w.runtimes[w.db.plans[l.plan].instance];
      var tx := BeginTx(w.db, l.plan, l.nonce, l.expected, seen, l.sound, l.op, l.executor, w.now);
      if tx.Done? {
        BeginShape(w.db, l.plan, l.nonce, l.expected, seen, l.sound, l.op, l.executor, w.now);
        NewFence(w.history.fences, w.db.instances, w.db.operations, tx.docs.instances, tx.docs.operations,
                 Fencing(tx.value.instance, tx.value.fence, tx.value.id, tx.value.executor));
      }
    }
  }

  lemma RecoverToken(db: Db, o: OpId, nonce: Nonce, executor: Executor, quiescent: bool, now: real)
    requires RecoverTx(db, o, nonce, executor, quiescent, now).Done? && db.operations[o].id == o
    ensures var tx := RecoverTx(db, o, nonce, executor, quiescent, now);
            tx.value == Token(o, db.operations[o].fence + 1, executor)
  {}

  lemma RecoverKeepsFenced(w: World, l: Label)
    requires Safe(w) && Fenced(w) && l.Recover?
    ensures Fenced(RecoverStep(w, l))
  {
    hide Granted, RecoverTx, TicketsOk, GrantsOk, Consumed, Holding, TargetOf, PlanOk, OperationOk, InstanceOk,
      TicketOk, GrantOk, LeaseOk, Bound, SpecsOk, PlansOk, Enrolled;
    RecoverLawful(w, l);
    if l.permitted && l.pid !in w.processes && l.op in w.db.operations {
      var tx := RecoverTx(w.db, l.op, l.nonce, l.executor, l.quiescent, w.now);
      if tx.Done? {
        RecoverShape(w.db, l.op, l.nonce, l.executor, l.quiescent, w.now);
        RecoverToken(w.db, l.op, l.nonce, l.executor, l.quiescent, w.now);
        hide Sound;
        NewFence(w.history.fences, w.db.instances, w.db.operations, tx.docs.instances, tx.docs.operations,
                 Fencing(w.db.operations[l.op].instance, tx.value.fence, l.op, l.executor));
      }
    }
  }

  lemma ProcessFences(w: World, pid: Pid, a: Answers)
    ensures SameFences(w, ProcessStep(w, pid, a))
  {
    hide SameFences, SameHost, SameRows, SameShelf, SameEnds;
    if pid !in w.processes { SameFencesItself(w); return; }
    match w.processes[pid].at
    case Starting => StartFrame(w, pid, a);
    case Deploying(restore) => DeployFrame(w, pid, restore, a);
    case Deployed => VerifyingFrame(w, pid, a);
    case Inspecting(restore) => InspectFrame(w, pid, restore, a);
    case Recording(restore, seen) => RecordFrame(w, pid, restore, seen, a);
    case Committing(restore, seen) => CommitFrame(w, pid, restore, seen, a);
    case Checking => CheckFrame(w, pid, a);
    case Retreating => RetreatFrame(w, pid, a);
    case GivingUp => GiveUpFrame(w, pid, a);
  }

  lemma SameFencesItself(w: World)
    ensures SameFences(w, w)
  {}

  lemma StepKeepsFenced(w: World, l: Label)
    requires Safe(w) && Fenced(w)
    ensures Fenced(Step(w, l))
  {
    hide Sound, Extends, Granted, SameFences, SameHost, SameRows, SameShelf, SameEnds;
    if l.Begin? { BeginKeepsFenced(w, l); return; }
    if l.Recover? { RecoverKeepsFenced(w, l); return; }
    StepLawful(w, l);
    StepFences(w, l);
    QuietKeepsFenced(w, Step(w, l));
  }

  lemma StepFences(w: World, l: Label)
    requires !l.Begin? && !l.Recover?
    ensures SameFences(w, Step(w, l))
  {
    hide SameFences, SameHost, SameRows, SameShelf, SameEnds;
    match l
    case Register(_, _, _, _, _, _, _) => RegisterFrame(w, l);
    case MakePlan(_, _, _, _, _, _, _, _) => PlanFrame(w, l);
    case Approve(_, _, _) => ApproveFrame(w, l);
    case Cancel(_, _) => CancelFrame(w, l);
    case ByProcess(pid, a) => ProcessFences(w, pid, a);
    case ApproveRecovery(_, _, _, _) => ApproveRecoveryFrame(w, l);
    case Mint(_, _, _, _, _, _) => MintFrame(w, l);
    case Claim(_, _, _, _, _) => ClaimFrame(w, l);
    case Retire(_, _, _) => RetireFrame(w, l);
    case Foreign(_, _) => ForeignFences(w, l);
    case _ => PassiveFrame(w, l);
  }

  lemma ForeignFences(w: World, l: Label)
    requires l.Foreign?
    ensures SameFences(w, Step(w, l))
  {
    hide RecordStep, CommitStep, CheckStep, RetreatStep, GiveUpStep, ApproveRecoveryTx, RecoverTx, MintTx, ClaimTx,
      RetireTx, Confirms, PutOnce, ValidBudget, Used, PhaseTx, Goto, Raised, EffectTx, VerifyTx, EvidenceTx, CommitTx,
      Completed, UnchangedTx, GiveUpTx, Terminal, TokenOf, GuardTx, BeginStep, ExecuteStep, ProcessStep, Gone,
      ApproveRecoveryStep, RecoverStep, MintStep, PlanStep, ApproveStep, CancelStep;
  }

  lemma {:induction false} RunKeepsFenced(w: World, labels: seq<Label>)
    requires Safe(w) && Fenced(w)
    ensures Fenced(Run(w, labels))
    decreases |labels|
  {
    if labels != [] {
      var before := labels[..|labels| - 1];
      RunKeepsFenced(w, before);
      RunKeepsSafe(w, before);
      StepKeepsFenced(Run(w, before), labels[|labels| - 1]);
    }
  }

  /** Over a whole run a fence value of an instance is handed to one executor of one
      operation, and what every operation holds was handed to it. */
  lemma FenceHasOneOwner(w: World, labels: seq<Label>, f: Fencing, g: Fencing)
    requires Initial(w) && f in Run(w, labels).history.fences && g in Run(w, labels).history.fences
    requires f.instance == g.instance && f.fence == g.fence
    ensures f == g
    ensures forall o | o in Run(w, labels).db.operations ::
      var op := Run(w, labels).db.operations[o]; Fencing(op.instance, op.fence, o, op.executor) in Run(w, labels).history.fences
  {
    InitialSafe(w);
    RunKeepsFenced(w, labels);
  }

  // ------------------------------------------------------------- replaced tokens

  /** Nothing a step could write or reach has changed. */
  ghost predicate Inert(w: World, w': World) { w'.db == w.db && w'.runtimes == w.runtimes && w'.history == w.history }

  lemma UnownedPhases(w: World, pid: Pid, a: Answers)
    requires pid in w.processes && Disowned(w.db, w.processes[pid].token).Some?
    ensures Inert(w, StartStep(w, pid, a)) && Inert(w, VerifyingStep(w, pid, a)) && Inert(w, RetreatStep(w, pid, a))
  {}

  lemma UnownedDeploys(w: World, pid: Pid, restore: bool, a: Answers)
    requires pid in w.processes && Disowned(w.db, w.processes[pid].token).Some?
    ensures Inert(w, DeployStep(w, pid, restore, a)) && Inert(w, InspectStep(w, pid, restore, a))
  {
    hide VerifyTx;
  }

  lemma UnownedCommits(w: World, pid: Pid, restore: bool, seen: Runtime, a: Answers)
    requires pid in w.processes && Disowned(w.db, w.processes[pid].token).Some?
    ensures Inert(w, RecordStep(w, pid, restore, seen, a)) && Inert(w, CommitStep(w, pid, restore, seen, a))
  {}

  lemma UnownedGivesUp(w: World, pid: Pid, a: Answers)
    requires pid in w.processes && Disowned(w.db, w.processes[pid].token).Some?
    ensures Inert(w, CheckStep(w, pid, a)) && Inert(w, GiveUpStep(w, pid, a))
  {}

  /** Without ownership no step of a process writes the store or reaches the backend. */
  lemma UnownedStepIsInert(w: World, pid: Pid, a: Answers)
    requires pid in w.processes && Disowned(w.db, w.processes[pid].token).Some?
    ensures Inert(w, ProcessStep(w, pid, a))
  {
    hide Inert, Disowned, StartStep, DeployStep, VerifyingStep, InspectStep, RecordStep, CommitStep, CheckStep,
      RetreatStep, GiveUpStep;
    UnownedPhases(w, pid, a);
    UnownedGivesUp(w, pid, a);
    match w.processes[pid].at
    case Deploying(restore) => UnownedDeploys(w, pid, restore, a);
    case Inspecting(restore) => UnownedDeploys(w, pid, restore, a);
    case Recording(restore, seen) => UnownedCommits(w, pid, restore, seen, a);
    case Committing(restore, seen) => UnownedCommits(w, pid, restore, seen, a);
    case _ =>
  }

  lemma ReplacedIsDisowned(db: Db, t: Token)
    requires t.id in db.operations && t.fence != db.operations[t.id].fence
    ensures Disowned(db, t).Some?
    ensures forall nonce, command, owner, ttl, now :: MintTx(db, t, nonce, command, owner, ttl, now).Raise?
  {}

  /** Once an operation has moved on to a higher fence, whoever still presents an older
      token changes neither store nor runtimes, at any later time. */
  lemma ReplacedTokenIsPowerless(w: World, before: seq<Label>, t: Token, after: seq<Label>, pid: Pid, a: Answers)
    requires Initial(w) && t.id in Run(w, before).db.operations && t.fence < Run(w, before).db.operations[t.id].fence
    ensures var v := Run(Run(w, before), after);
            && Disowned(v.db, t).Some?
            && (forall nonce, command, owner, ttl, now :: MintTx(v.db, t, nonce, command, owner, ttl, now).Raise?)
            && (pid in v.processes && v.processes[pid].token == t ==>
                  var v' := ProcessStep(v, pid, a);
                  v'.db == v.db && v'.runtimes == v.runtimes && v'.history == v.history)
  {
    hide Safe, ProcessStep;
    InitialSafe(w);
    RunKeepsSafe(w, before);
    RunKeepsSafe(Run(w, before), after);
    var v := Run(Run(w, before), after);
    assert Ages(Run(w, before).db.operations[t.id], v.db.operations[t.id]);
    ReplacedIsDisowned(v.db, t);
    if pid in v.processes && v.processes[pid].token == t { UnownedStepIsInert(v, pid, a); }
  }

  /** A recovery that commits outdates every token the operation ever had. */
  lemma RecoveryReplacesEveryToken(w: World, labels: seq<Label>, l: Label, f: Fencing)
    requires Initial(w) && l.Recover? && f in Run(w, labels).history.fences && f.op == l.op
    requires RecoverStep(Run(w, labels), l).db != Run(w, labels).db
    ensures var v' := RecoverStep(Run(w, labels), l);
            l.op in v'.db.operations && f.instance == v'.db.operations[l.op].instance && f.fence < v'.db.operations[l.op].fence
  {
    hide TicketsOk, GrantsOk, Consumed, Holding, TargetOf, RegisterTx, After, PlanTx, ApproveTx, CancelTx, BeginTx,
      StartStep, DeployStep, VerifyingStep, InspectStep, RecordStep, CommitStep, CheckStep, RetreatStep, GiveUpStep,
      ApproveRecoveryTx, MintTx, ClaimTx, RetireTx, PlanOk, OperationOk, InstanceOk, TicketOk, GrantOk, LeaseOk, Gone,
      ApproveRecoveryStep, MintStep, ClaimStep, RetireStep, AdvanceStep, ForeignStep, Terminal, TokenOf, SpecsOk,
      PlansOk, Enrolled, FromPlans, Coupled, OneShot, RegisterStep, PlanStep, ApproveStep, CancelStep, BeginStep,
      ExecuteStep, ProcessStep, Step, RecoverTx, Sound, ProcessOk;
    InitialSafe(w);
    RunKeepsFenced(w, labels);
    var v := Run(w, labels);
    hide Safe;
    RecoverShape(v.db, l.op, l.nonce, l.executor, l.quiescent, v.now);
  }

  /** A terminal operation never changes again, and its fence never comes back. */
  lemma TerminalIsAbsorbing(w: World, before: seq<Label>, o: OpId, after: seq<Label>)
    requires Initial(w) && o in Run(w, before).db.operations && Terminal(Run(w, before).db.operations[o].phase)
    ensures var v, v' := Run(w, before), Run(Run(w, before), after);
            && o in v'.db.operations && v'.db.operations[o] == v.db.operations[o]
            && (forall t: Token | t.id == o :: Disowned(v'.db, t).Some?)
  {
    hide Sound, Step;
    InitialSafe(w);
    RunKeepsSafe(w, before);
    RunKeepsSafe(Run(w, before), after);
    assert Ages(Run(w, before).db.operations[o], Run(Run(w, before), after).db.operations[o]);
  }

  // -------------------------------------------------------- one forward deployment

  /** Past `_phase(token, "applying")`, or handed its token by `recover`. */
  ghost predicate Entered(at: At) { !at.Starting? }

  ghost predicate Admitted(operations: Operations, k: Process) {
    Entered(k.at) ==>
      && k.token.id in operations
      && var op := operations[k.token.id];
         && op.phase != Reserved && k.token.fence <= op.fence
         && (k.token.fence == op.fence ==> k.token.executor == op.executor)
  }

  ghost predicate SameToken(a: Token, b: Token) { a.id == b.id && a.fence == b.fence }

  /** However many processes are started on one token, one gets past the first phase. */
  ghost predicate OnePerToken(processes: map<Pid, Process>) {
    forall p, q | p in processes && q in processes && Entered(processes[p].at) && Entered(processes[q].at)
                  && SameToken(processes[p].token, processes[q].token) :: p == q
  }

  ghost predicate OneDeployer(processes: map<Pid, Process>) {
    forall p, q | p in processes && q in processes && processes[p].at == Deploying(false) && processes[q].at == Deploying(false)
                  && processes[p].token.id == processes[q].token.id :: p == q
  }

  ghost predicate Undeployed(deploys: seq<Deploy>, o: OpId) { forall d | d in deploys :: d.restore || d.op != o }

  ghost predicate AtMostOnce(deploys: seq<Deploy>) {
    forall i, j | 0 <= i < j < |deploys| :: deploys[i].restore || deploys[j].restore || deploys[i].op != deploys[j].op
  }

  ghost predicate Started(operations: Operations, deploys: seq<Deploy>) {
    && (forall o | o in operations && operations[o].phase == Reserved :: Undeployed(deploys, o))
    && (forall d | d in deploys :: d.op in operations)
    && AtMostOnce(deploys)
  }

  /** The processes, operations and deployments concerned. */
  ghost predicate OnceIn(processes: map<Pid, Process>, operations: Operations, deploys: seq<Deploy>) {
    && (forall p | p in processes :: Admitted(operations, processes[p]))
    && OnePerToken(processes) && OneDeployer(processes)
    && (forall p | p in processes && processes[p].at == Deploying(false) :: Undeployed(deploys, processes[p].token.id))
    && Started(operations, deploys)
  }

  ghost predicate Once(w: World) { OnceIn(w.processes, w.db.operations, w.history.deploys) }

  lemma AgingKeepsAdmitted(operations: Operations, operations': Operations, k: Process)
    requires Admitted(operations, k) && OperationsAge(operations, operations')
    ensures Admitted(operations', k)
  {
    if k.token.id in operations { assert Ages(operations[k.token.id], operations'[k.token.id]); }
  }

  lemma AgingKeepsStarted(operations: Operations, operations': Operations, deploys: seq<Deploy>)
    requires Started(operations, deploys) && OperationsAge(operations, operations')
    ensures Started(operations', deploys)
  {
    forall o | o in operations' && operations'[o].phase == Reserved
      ensures Undeployed(deploys, o)
    {
      if o in operations { assert Ages(operations[o], operations'[o]); }
    }
  }

  /** Processes come, go, or move on, but none starts to deploy. */
  ghost predicate Onward(w: World, w': World) {
    forall p | p in w'.processes ::
      || !Entered(w'.processes[p].at)
      || (p in w.processes && w'.processes[p] == w.processes[p])
      || (p in w.processes && Entered(w.processes[p].at) && w'.processes[p].token == w.processes[p].token
          && w'.processes[p].at != Deploying(false))
  }

  lemma OnwardKeepsOnce(w: World, w': World)
    requires Once(w) && Onward(w, w') && OperationsAge(w.db.operations, w'.db.operations)
    requires w'.history.deploys == w.history.deploys
    ensures Once(w')
  {
    AgingKeepsStarted(w.db.operations, w'.db.operations, w.history.deploys);
    forall p | p in w'.processes
      ensures Admitted(w'.db.operations, w'.processes[p])
    {
      if Entered(w'.processes[p].at) { AgingKeepsAdmitted(w.db.operations, w'.db.operations, w.processes[p]); }
    }
  }

  /** Entering means leaving `reserved`, which happens once. */
  lemma FirstIn(processes: map<Pid, Process>, operations: Operations, deploys: seq<Deploy>, pid: Pid, t: Token)
    requires OnceIn(processes, operations, deploys)
    requires pid in processes && t.id in operations && operations[t.id].phase == Reserved
    requires operations[t.id].fence == t.fence && operations[t.id].executor == t.executor
    ensures OnceIn(processes[pid := Process(t, Deploying(false))], operations[t.id := operations[t.id].(phase := Applying)], deploys)
  {
    hide Undeployed, AtMostOnce;
    var processes' := processes[pid := Process(t, Deploying(false))];
    var operations' := operations[t.id := operations[t.id].(phase := Applying)];
    forall p | p in processes'
      ensures Admitted(operations', processes'[p])
      ensures p != pid && Entered(processes'[p].at) ==> processes'[p].token.id != t.id
    {
      if p != pid { assert Admitted(operations, processes[p]); }
    }
  }

  lemma StartShape(db: Db, t: Token)
    requires PhaseTx(db, t, Applying).Done?
    ensures t.id in db.operations
    ensures var op := db.operations[t.id];
            && op.phase == Reserved && op.fence == t.fence && op.executor == t.executor
            && PhaseTx(db, t, Applying).docs.operations == db.operations[t.id := op.(phase := Applying)]
  {}

  lemma StartKeepsOnce(w: World, pid: Pid, a: Answers)
    requires Safe(w) && Once(w) && pid in w.processes && w.processes[pid].at.Starting?
    ensures Once(StartStep(w, pid, a))
  {
    hide PhaseTx, Sound, OnceIn;
    var t := w.processes[pid].token;
    StartLawful(w, pid, a);
    if a.busy || PhaseTx(w.db, t, Applying).Raise? {
      OnwardKeepsOnce(w, StartStep(w, pid, a));
    } else {
      StartShape(w.db, t);
      FirstIn(w.processes, w.db.operations, w.history.deploys, pid, t);
    }
  }

  /** The call itself: the process is past it afterwards. */
  lemma DeployKeepsOnce(w: World, pid: Pid, restore: bool, a: Answers)
    requires Safe(w) && Once(w) && pid in w.processes && w.processes[pid].at == Deploying(restore)
    ensures Once(DeployStep(w, pid, restore, a))
  {
    hide Safe, EffectTx, Terminal, PlanOk, OperationOk, InstanceOk, TicketOk, GrantOk, LeaseOk, SameToken, AtMostOnce,
      Disowned, DeadlineOf, TargetOf, Confirms;
    var w' := DeployStep(w, pid, restore, a);
    DeployMoves(w, pid, restore, a);
    DeployFrame(w, pid, restore, a);
    OneMoreDeploy(w, pid, restore, a);
    var mid := w.(processes := w'.processes);
    OnwardKeepsOnce(w, mid);
    if w'.history.deploys != w.history.deploys {
      var d := w'.history.deploys[|w.history.deploys|];
      assert Admitted(w.db.operations, w.processes[pid]);
      DeployedOnce(w.db.operations, w.history.deploys, d);
      forall p | p in w'.processes && w'.processes[p].at == Deploying(false)
        ensures Undeployed(w'.history.deploys, w'.processes[p].token.id)
      {
        assert p != pid;
      }
    }
  }

  lemma OneMoreDeploy(w: World, pid: Pid, restore: bool, a: Answers)
    requires pid in w.processes
    ensures var ds := DeployStep(w, pid, restore, a).history.deploys;
            || ds == w.history.deploys
            || (exists d :: ds == w.history.deploys + [d] && d.op == w.processes[pid].token.id && d.restore == restore)
  {
    hide EffectTx;
    var t := w.processes[pid].token;
    if !a.busy && t.id in w.db.operations && w.db.operations[t.id].instance in w.runtimes {
      var id := w.db.operations[t.id].instance;
      var tx := EffectTx(w.db, t, restore, w.runtimes[id], w.now, a.gate, a.qualified, a.owns, a.sound);
      if tx.Done? {
        var d := Deploy(t.id, id, restore, Digest(tx.value), a.takes);
        assert DeployStep(w, pid, restore, a).history.deploys == w.history.deploys + [d];
      }
    }
  }

  lemma DeployedOnce(operations: Operations, deploys: seq<Deploy>, d: Deploy)
    requires Started(operations, deploys) && d.op in operations && operations[d.op].phase != Reserved
    requires d.restore || Undeployed(deploys, d.op)
    ensures Started(operations, deploys + [d])
    ensures forall o | Undeployed(deploys, o) && (d.restore || o != d.op) :: Undeployed(deploys + [d], o)
  {}

  lemma ProcessDeploysNothing(w: World, pid: Pid, a: Answers)
    requires pid in w.processes && !w.processes[pid].at.Deploying?
    ensures ProcessStep(w, pid, a).history.deploys == w.history.deploys
  {
    hide PhaseTx, VerifyTx, EvidenceTx, CommitTx, UnchangedTx, GiveUpTx;
  }

  lemma MoveOnward(w: World, w': World, pid: Pid)
    requires pid in w.processes && pid in w'.processes && w'.processes == w.processes[pid := w'.processes[pid]]
    requires Entered(w.processes[pid].at) && w'.processes[pid].token == w.processes[pid].token
    requires w'.processes[pid].at != Deploying(false)
    ensures Onward(w, w')
  {}

  lemma LeaveOnward(w: World, w': World, pid: Pid)
    requires w'.processes == w.processes - {pid}
    ensures Onward(w, w')
  {}

  /** The process is gone, or somewhere past its deployment under the same token. */
  ghost predicate Moved(w: World, w': World, pid: Pid)
    requires pid in w.processes
  {
    || w'.processes == w.processes - {pid}
    || (&& pid in w'.processes && w'.processes == w.processes[pid := w'.processes[pid]]
        && w'.processes[pid].token == w.processes[pid].token && w'.processes[pid].at != Deploying(false))
  }

  lemma ForwardMoves(w: World, pid: Pid, a: Answers)
    requires pid in w.processes
    requires var at := w.processes[pid].at; at.Deployed? || at.Inspecting? || at.Recording?
    ensures Moved(w, ProcessStep(w, pid, a), pid)
  {
    hide PhaseTx, VerifyTx, EvidenceTx, CommitStep, CheckStep, RetreatStep, GiveUpStep, StartStep, DeployStep;
  }

  lemma LateMoves(w: World, pid: Pid, a: Answers)
    requires pid in w.processes
    requires var at := w.processes[pid].at; at.Committing? || at.Checking? || at.Retreating? || at.GivingUp?
    ensures Moved(w, ProcessStep(w, pid, a), pid)
  {
    hide PhaseTx, CommitTx, UnchangedTx, GiveUpTx, VerifyingStep, InspectStep, RecordStep, StartStep, DeployStep;
  }

  lemma ProcessOnward(w: World, pid: Pid, a: Answers)
    requires pid in w.processes && Entered(w.processes[pid].at) && !w.processes[pid].at.Deploying?
    ensures Onward(w, ProcessStep(w, pid, a))
  {
    hide ProcessStep, Onward;
    var w', at := ProcessStep(w, pid, a), w.processes[pid].at;
    if at.Deployed? || at.Inspecting? || at.Recording? { ForwardMoves(w, pid, a); } else { LateMoves(w, pid, a); }
    if pid in w'.processes { MoveOnward(w, w', pid); } else { LeaveOnward(w, w', pid); }
  }

  /** The recovered token is newer than any process of the operation. */
  lemma RecoveredIn(processes: map<Pid, Process>, operations: Operations, operations': Operations, deploys: seq<Deploy>, pid: Pid, t: Token)
    requires OnceIn(processes, operations, deploys) && OperationsAge(operations, operations')
    requires pid !in processes && t.id in operations && t.fence == operations[t.id].fence + 1
    requires operations'[t.id].phase == Recovering && operations'[t.id].fence == t.fence && operations'[t.id].executor == t.executor
    ensures OnceIn(processes[pid := Process(t, Checking)], operations', deploys)
  {
    var processes' := processes[pid := Process(t, Checking)];
    AgingKeepsStarted(operations, operations', deploys);
    hide Undeployed, AtMostOnce, Started;
    forall p | p in processes'
      ensures Admitted(operations', processes'[p])
      ensures p != pid && Entered(processes'[p].at) && processes'[p].token.id == t.id ==> processes'[p].token.fence < t.fence
    {
      if p != pid {
        assert Admitted(operations, processes[p]);
        AgingKeepsAdmitted(operations, operations', processes[p]);
      }
    }
  }

  lemma RecoverKeepsOnce(w: World, l: Label)
    requires Safe(w) && Once(w) && l.Recover?
    ensures Once(RecoverStep(w, l))
  {
    hide OnceIn, Sound, RecoverTx;
    RecoverLawful(w, l);
    if l.permitted && l.pid !in w.processes && l.op in w.db.operations
       && RecoverTx(w.db, l.op, l.nonce, l.executor, l.quiescent, w.now).Done? {
      RecoverShape(w.db, l.op, l.nonce, l.executor, l.quiescent, w.now);
      KnownById(w.db, l.op);
      RecoverToken(w.db, l.op, l.nonce, l.executor, l.quiescent, w.now);
      var tx := RecoverTx(w.db, l.op, l.nonce, l.executor, l.quiescent, w.now);
      RecoveredIn(w.processes, w.db.operations, tx.docs.operations, w.history.deploys, l.pid, tx.value);
    }
  }

  lemma KnownById(db: Db, o: OpId)
    requires Sound(db) && o in db.operations
    ensures db.operations[o].id == o
  {}

  lemma DeskKeepsOnce(w: World, l: Label)
    requires Safe(w) && Once(w) && !l.ByProcess? && !l.Recover?
    ensures Once(Step(w, l))
  {
    hide Sound, Once;
    StepLawful(w, l);
    DeskDeploysNothing(w, l);
    OnwardKeepsOnce(w, Step(w, l));
  }

  lemma DeskDeploysNothing(w: World, l: Label)
    requires !l.ByProcess? && !l.Recover?
    ensures Step(w, l).history.deploys == w.history.deploys && Onward(w, Step(w, l))
  {
    hide RegisterTx, PlanTx, ApproveTx, CancelTx, BeginTx, ApproveRecoveryTx, MintTx, ClaimTx, RetireTx;
  }

  lemma ProcessKeepsOnce(w: World, pid: Pid, a: Answers)
    requires Safe(w) && Once(w)
    ensures Once(ProcessStep(w, pid, a))
  {
    hide Sound, Once, Onward;
    if pid !in w.processes { return; }
    var at := w.processes[pid].at;
    if at.Starting? { StartKeepsOnce(w, pid, a); }
    else if at.Deploying? { DeployKeepsOnce(w, pid, at.restore, a); }
    else {
      ProcessLawful(w, pid, a);
      ProcessOnward(w, pid, a);
      ProcessDeploysNothing(w, pid, a);
      OnwardKeepsOnce(w, ProcessStep(w, pid, a));
    }
  }

  lemma StepKeepsOnce(w: World, l: Label)
    requires Safe(w) && Once(w)
    ensures Once(Step(w, l))
  {
    hide Safe, Once, ProcessStep, RecoverStep;
    if l.ByProcess? { ProcessKeepsOnce(w, l.pid, l.answers); }
    else if l.Recover? { RecoverKeepsOnce(w, l); }
    else { DeskKeepsOnce(w, l); }
  }

  lemma {:induction false} RunKeepsOnce(w: World, labels: seq<Label>)
    requires Safe(w) && Once(w)
    ensures Once(Run(w, labels))
    decreases |labels|
  {
    hide Safe, Once, Step;
    if labels != [] {
      var before := labels[..|labels| - 1];
      RunKeepsOnce(w, before);
      RunKeepsSafe(w, before);
      StepKeepsOnce(Run(w, before), labels[|labels| - 1]);
    }
  }

  /** Every operation reaches the forward deployment at most once over a whole run,
      however many processes execute its token, and at most one of those is past the
      first phase. */
  lemma OneForwardDeployment(w: World, labels: seq<Label>)
    requires Initial(w)
    ensures AtMostOnce(Run(w, labels).history.deploys) && OnePerToken(Run(w, labels).processes)
  {
    hide ForeignStep, RegisterTx, After, PlanTx, ApproveTx, CancelTx, BeginTx, StartStep, DeployStep, VerifyingStep,
      InspectStep, RecordStep, CommitStep, CheckStep, RetreatStep, GiveUpStep, ApproveRecoveryTx, RecoverTx, MintTx,
      ClaimTx, RetireTx;
    InitialSafe(w);
    RunKeepsOnce(w, labels);
  }
}
