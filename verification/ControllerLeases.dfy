/**
 Launch leases over runs of the controller and of the grant authority: when the fence
 test passes, and that it never passes again once it has failed.
 */
module ControllerLeases {
  import opened Schema
  import opened ControllerModel
  import opened ControllerMachine
  import opened ControllerInvariants
  import opened ControllerSafety

  /** The operation still holds the lease's fence and runs, or it committed forward and
      nothing has happened to the instance since. */
  ghost predicate Good(db: Db, l: Lease)
    requires l.op in db.operations && l.instance in db.instances
  {
    var op := db.operations[l.op];
    op.fence == l.fence && db.instances[l.instance].fence == l.fence && (!Terminal(op.phase) || op.phase == Committed)
  }

  lemma LeaseRow(db: Db, l: Lease)
    requires Sound(db) && LeaseOk(db.operations, l)
    ensures l.op in db.operations && l.instance in db.instances
    ensures var op := db.operations[l.op];
            && op.id == l.op && op.instance == l.instance && OperationOk(db.instances, op)
            && InstanceOk(db.operations, l.instance, db.instances[l.instance])
  {
    assert OperationOk(db.instances, db.operations[l.op]);
  }

  /** The fence test of the authority, said in terms of the operation alone. */
  lemma FenceTestMeans(db: Db, l: Lease)
    requires Sound(db) && LeaseOk(db.operations, l)
    ensures l.op in db.operations && l.instance in db.instances
    ensures Passes(db, l) <==> Good(db, l)
  {
    hide PlansOk, Enrolled, FromPlans, Coupled, OneShot, PlanOk, OperationOk, InstanceOk, TicketOk, GrantOk,
      TicketsOk, GrantsOk;
    LeaseRow(db, l);
    hide Sound;
  }

  lemma GoodOnlyFades(db: Db, db': Db, l: Lease)
    requires Sound(db) && Sound(db') && Extends(db, db') && LeaseOk(db.operations, l) && LeaseOk(db'.operations, l)
    requires Passes(db', l)
    ensures Passes(db, l)
  {
    FenceTestMeans(db, l);
    FenceTestMeans(db', l);
    LeaseRow(db, l);
    hide Sound;
    assert Ages(db.operations[l.op], db'.operations[l.op]) && Grows(db.instances[l.instance], db'.instances[l.instance]);
  }

  lemma AgingKeepsLease(operations: Operations, operations': Operations, l: Lease)
    requires LeaseOk(operations, l) && OperationsAge(operations, operations')
    ensures LeaseOk(operations', l)
  {
    assert Ages(operations[l.op], operations'[l.op]);
  }

  /** Once the fence test of a claimed lease has failed, it fails forever. */
  lemma RevocationIsPermanent(w: World, before: seq<Label>, id: LeaseId, after: seq<Label>)
    requires Initial(w) && id in Run(w, before).db.leases
    requires !Passes(Run(w, before).db, Run(w, before).db.leases[id])
    ensures !Passes(Run(Run(w, before), after).db, Run(w, before).db.leases[id])
  {
    hide AdvanceStep, ForeignStep, PlanOk, OperationOk, InstanceOk, TicketOk, GrantOk, RegisterTx, After, PlanTx,
      ApproveTx, CancelTx, BeginTx, StartStep, DeployStep, VerifyingStep, InspectStep, RecordStep, CommitStep,
      CheckStep, RetreatStep, GiveUpStep, ApproveRecoveryTx, RecoverTx, MintTx, ClaimTx, RetireTx, Terminal, Consumed,
      RegisterStep, PlanStep, ApproveStep, CancelStep, BeginStep, ExecuteStep, ProcessStep, Gone, ApproveRecoveryStep,
      RecoverStep, MintStep, ClaimStep, RetireStep, Initial, Run, Passes, LeaseOk, Step, Bound, SpecsOk, PlansOk,
      Enrolled, FromPlans, Coupled, OneShot, TicketsOk;
    InitialSafe(w);
    RunKeepsSafe(w, before);
    RunKeepsSafe(Run(w, before), after);
    var v, v' := Run(w, before), Run(Run(w, before), after);
    var l := v.db.leases[id];
    assert LeaseOk(v.db.operations, l);
    hide Sound;
    AgingKeepsLease(v.db.operations, v'.db.operations, l);
    if Passes(v'.db, l) { GoodOnlyFades(v.db, v'.db, l); }
  }

  /** When a claimed lease passes, in any reachable store. */
  lemma LeasePassesExactlyWhileGood(w: World, labels: seq<Label>, id: LeaseId)
    requires Initial(w) && id in Run(w, labels).db.leases
    ensures var db := Run(w, labels).db;
            var l := db.leases[id];
            l.op in db.operations && l.instance in db.instances && (Passes(db, l) <==> Good(db, l))
  {
    hide Initial, Run, Passes, Good, LeaseOk, Step, Terminal, Bound, RegisterStep, PlanStep, ApproveStep, CancelStep,
      BeginStep, ExecuteStep, ProcessStep, Gone, ApproveRecoveryStep, RecoverStep, MintStep, ClaimStep, RetireStep,
      AdvanceStep, ForeignStep, RegisterTx, After, PlanTx, ApproveTx, CancelTx, BeginTx, StartStep, DeployStep,
      VerifyingStep, InspectStep, RecordStep, CommitStep, CheckStep, RetreatStep, GiveUpStep, ApproveRecoveryTx,
      RecoverTx, MintTx, ClaimTx, RetireTx;
    InitialSafe(w);
    RunKeepsSafe(w, labels);
    var db := Run(w, labels).db;
    assert LeaseOk(db.operations, db.leases[id]);
    FenceTestMeans(db, db.leases[id]);
  }

  /** A lease passes as soon as it is claimed. */
  lemma ClaimedLeasePasses(db: Db, nonce: Nonce, peer: Peer, command: string, id: LeaseId, now: real)
    requires ClaimTx(db, nonce, peer, command, id, now).Done?
    ensures var db' := ClaimTx(db, nonce, peer, command, id, now).docs;
            id in db'.leases && Passes(db', db'.leases[id]) && GuardTx(db', id, peer).Done?
  {}

  lemma CommitEnds(db: Db, t: Token, restore: bool, observed: Runtime, latest: Runtime, owns: bool, sound: bool)
    requires CommitTx(db, t, restore, observed, latest, owns, sound).Done?
    ensures Disowned(db, t).None?
    ensures var db' := CommitTx(db, t, restore, observed, latest, owns, sound).docs;
            var op := db.operations[t.id];
            && db'.operations == db.operations[t.id := op.(phase := if restore then RolledBack else Committed)]
            && db'.instances.Keys == db.instances.Keys && db'.instances[op.instance].fence == t.fence
  {}

  /** The forward commit of its own operation keeps a passing lease; the way back, the
      untouched baseline, a recovery and a later operation on the instance end it. */
  lemma OnlyTheForwardCommitKeepsIt(db: Db, l: Lease, t: Token, restore: bool, observed: Runtime, latest: Runtime, owns: bool, sound: bool)
    requires Sound(db) && LeaseOk(db.operations, l) && Passes(db, l) && t.id == l.op
    requires CommitTx(db, t, restore, observed, latest, owns, sound).Done?
    requires observed.spec == TargetOf(db.operations[t.id], restore)
    ensures Passes(CommitTx(db, t, restore, observed, latest, owns, sound).docs, l) <==> !restore
  {
    hide Sound, CommitTx, LeaseOk, Passes;
    var db' := CommitTx(db, t, restore, observed, latest, owns, sound).docs;
    CommitEnds(db, t, restore, observed, latest, owns, sound);
    CommitKeeps(db, t, restore, observed, latest, owns, sound);
    FenceTestMeans(db, l);
    LeaseRow(db, l);
    AgingKeepsLease(db.operations, db'.operations, l);
    FenceTestMeans(db', l);
  }

  lemma UntouchedEnds(db: Db, t: Token, seen: Runtime, owns: bool, sound: bool)
    requires UnchangedTx(db, t, seen, owns, sound).Done? && UnchangedTx(db, t, seen, owns, sound).value
    ensures t.id in db.operations
    ensures UnchangedTx(db, t, seen, owns, sound).docs.operations == db.operations[t.id := db.operations[t.id].(phase := Unchanged)]
  {}

  lemma UntouchedBaselineEndsIt(db: Db, l: Lease, t: Token, seen: Runtime, owns: bool, sound: bool)
    requires Sound(db) && LeaseOk(db.operations, l) && t.id == l.op
    requires UnchangedTx(db, t, seen, owns, sound).Done? && UnchangedTx(db, t, seen, owns, sound).value
    ensures !Passes(UnchangedTx(db, t, seen, owns, sound).docs, l)
  {
    hide Sound, UnchangedTx, LeaseOk, Passes;
    var db' := UnchangedTx(db, t, seen, owns, sound).docs;
    UntouchedEnds(db, t, seen, owns, sound);
    UnchangedKeeps(db, t, seen, owns, sound);
    AgingKeepsLease(db.operations, db'.operations, l);
    FenceTestMeans(db', l);
  }

  lemma RecoveryEndsIt(db: Db, l: Lease, nonce: Nonce, executor: Executor, quiescent: bool, now: real)
    requires Sound(db) && LeaseOk(db.operations, l) && RecoverTx(db, l.op, nonce, executor, quiescent, now).Done?
    ensures !Passes(RecoverTx(db, l.op, nonce, executor, quiescent, now).docs, l)
  {
    LeaseRow(db, l);
    RecoverKeeps(db, l.op, nonce, executor, quiescent, now);
    RecoverShape(db, l.op, nonce, executor, quiescent, now);
    var db' := RecoverTx(db, l.op, nonce, executor, quiescent, now).docs;
    hide RecoverTx;
    AgingKeepsLease(db.operations, db'.operations, l);
    FenceTestMeans(db', l);
  }

  lemma LaterOperationEndsIt(db: Db, db': Db, l: Lease)
    requires Sound(db) && Sound(db') && Extends(db, db') && LeaseOk(db.operations, l)
    requires l.instance in db.instances && db'.instances[l.instance].fence > db.instances[l.instance].fence
    ensures !Passes(db', l)
  {
    LeaseRow(db, l);
    AgingKeepsLease(db.operations, db'.operations, l);
    FenceTestMeans(db', l);
    LeaseRow(db', l);
  }

  // ------------------------------------------------------------- one-use grants

  ghost function Spent(grants: map<Nonce, Grant>): set<Nonce> { set n | n in grants && grants[n].consumed }

  /** As many leases as consumed grants: no grant yields two. */
  ghost predicate Matched(db: Db) { |Spent(db.grants)| == |db.leases| }

  /** Leases are never rewritten, only added and retired, and a spent grant stays spent. */
  ghost predicate LeasesGrow(db: Db, db': Db) {
    && (forall id | id in db.leases :: id in db'.leases && db'.leases[id] in {db.leases[id], db.leases[id].(retired := true)})
    && (forall n | n in db.grants && db.grants[n].consumed :: n in db'.grants && db'.grants[n].consumed)
  }

  lemma MintMatches(db: Db, t: Token, nonce: Nonce, command: string, owner: Uid, ttl: nat, now: real)
    requires Matched(db) && nonce !in db.grants
    ensures var db' := After(MintTx(db, t, nonce, command, owner, ttl, now), db); Matched(db') && LeasesGrow(db, db')
  {
    var tx := MintTx(db, t, nonce, command, owner, ttl, now);
    if tx.Done? { assert Spent(tx.docs.grants) == Spent(db.grants); }
  }

  lemma ClaimWrites(db: Db, nonce: Nonce, peer: Peer, command: string, id: LeaseId, now: real)
    requires ClaimTx(db, nonce, peer, command, id, now).Done? && id !in db.leases
    ensures nonce in db.grants && !db.grants[nonce].consumed
    ensures var db' := ClaimTx(db, nonce, peer, command, id, now).docs;
            && db'.grants == db.grants[nonce := db.grants[nonce].(consumed := true)]
            && id in db'.leases && db'.leases == db.leases[id := db'.leases[id]]
  {}

  lemma ClaimMatches(db: Db, nonce: Nonce, peer: Peer, command: string, id: LeaseId, now: real)
    requires Matched(db) && id !in db.leases
    ensures var db' := After(ClaimTx(db, nonce, peer, command, id, now), db); Matched(db') && LeasesGrow(db, db')
  {
    hide ClaimTx;
    var tx := ClaimTx(db, nonce, peer, command, id, now);
    if tx.Done? {
      ClaimWrites(db, nonce, peer, command, id, now);
      assert Spent(tx.docs.grants) == Spent(db.grants) + {nonce};
      assert tx.docs.leases.Keys == db.leases.Keys + {id};
    }
  }

  lemma RetireMatches(db: Db, id: LeaseId, peer: Peer)
    requires Matched(db)
    ensures var db' := After(RetireTx(db, id, peer), db); Matched(db') && LeasesGrow(db, db')
  {
    var tx := RetireTx(db, id, peer);
    if tx.Done? { assert tx.docs.leases.Keys == db.leases.Keys; }
  }

  ghost predicate SameGrants(db: Db, db': Db) { db'.grants == db.grants && db'.leases == db.leases }

  lemma HeavyDeskLeavesGrants(w: World, l: Label)
    requires l.Register? || l.MakePlan? || l.Begin?
    ensures SameGrants(w.db, Step(w, l).db)
  {
    hide RecordStep, CommitStep, CheckStep, RetreatStep, GiveUpStep, ApproveRecoveryTx, RecoverTx, MintTx, ClaimTx,
      RetireTx, Confirms, PutOnce, ValidBudget, Used, PhaseTx, Goto, Raised, EffectTx, VerifyTx, EvidenceTx, CommitTx,
      Completed, UnchangedTx, GiveUpTx, Terminal, TokenOf, GuardTx, Gone, ApproveRecoveryStep, RecoverStep, MintStep;
  }

  lemma LightDeskLeavesGrants(w: World, l: Label)
    requires !l.Mint? && !l.Claim? && !l.Retire? && !l.ByProcess? && !l.Register? && !l.MakePlan? && !l.Begin?
    ensures SameGrants(w.db, Step(w, l).db)
  {
    hide Used, PhaseTx, Goto, Raised, EffectTx, VerifyTx, EvidenceTx, CommitTx, Completed, UnchangedTx, GiveUpTx,
      Terminal, TokenOf, GuardTx;
  }

  lemma CommitLeavesGrants(db: Db, t: Token, restore: bool, observed: Runtime, latest: Runtime, owns: bool, sound: bool)
    ensures SameGrants(db, After(CommitTx(db, t, restore, observed, latest, owns, sound), db))
  {}

  lemma UnchangedLeavesGrants(db: Db, t: Token, seen: Runtime, owns: bool, sound: bool)
    ensures SameGrants(db, After(UnchangedTx(db, t, seen, owns, sound), db))
  {}

  lemma PhaseLeavesGrants(db: Db, t: Token, phase: Phase)
    ensures SameGrants(db, After(PhaseTx(db, t, phase), db))
  {}

  lemma EvidenceLeavesGrants(db: Db, t: Token, seen: Runtime)
    ensures SameGrants(db, After(EvidenceTx(db, t, seen), db))
  {}

  lemma GiveUpLeavesGrants(db: Db, t: Token)
    ensures SameGrants(db, After(GiveUpTx(db, t), db))
  {}

  lemma SameGrantsItself(db: Db)
    ensures SameGrants(db, db)
  {}

  lemma ProcessLeavesGrants(w: World, pid: Pid, a: Answers)
    ensures SameGrants(w.db, ProcessStep(w, pid, a).db)
  {
    hide SameGrants, EffectTx, VerifyTx, PhaseTx, CommitTx, UnchangedTx, EvidenceTx, GiveUpTx;
    SameGrantsItself(w.db);
    if pid !in w.processes { return; }
    var t := w.processes[pid].token;
    match w.processes[pid].at
    case Starting => PhaseLeavesGrants(w.db, t, Applying);
    case Deployed => PhaseLeavesGrants(w.db, t, Verifying);
    case Retreating => PhaseLeavesGrants(w.db, t, RollingBack);
    case Recording(restore, seen) => EvidenceLeavesGrants(w.db, t, seen);
    case GivingUp => GiveUpLeavesGrants(w.db, t);
    case Committing(restore, seen) =>
      if t.id in w.db.operations && w.db.operations[t.id].instance in w.runtimes {
        CommitLeavesGrants(w.db, t, restore, seen, w.runtimes[w.db.operations[t.id].instance], a.owns, a.sound);
      }
    case Checking =>
      if t.id in w.db.operations && w.db.operations[t.id].instance in w.runtimes {
        UnchangedLeavesGrants(w.db, t, w.runtimes[w.db.operations[t.id].instance], a.owns, a.sound);
      }
    case _ =>
  }

  lemma StepMatches(w: World, l: Label)
    requires Matched(w.db)
    ensures Matched(Step(w, l).db) && LeasesGrow(w.db, Step(w, l).db)
  {
    hide Step;
    if l.Mint? { MintStepMatches(w, l); }
    else if l.Claim? { ClaimStepMatches(w, l); }
    else if l.Retire? { RetireStepMatches(w, l); }
    else if l.ByProcess? { ByProcessMatches(w, l); }
    else if l.Register? || l.MakePlan? || l.Begin? { HeavyDeskLeavesGrants(w, l); }
    else { LightDeskLeavesGrants(w, l); }
  }

  lemma MintStepMatches(w: World, l: Label)
    requires Matched(w.db) && l.Mint?
    ensures Matched(Step(w, l).db) && LeasesGrow(w.db, Step(w, l).db)
  {
    if l.nonce !in w.db.grants { MintMatches(w.db, l.token, l.nonce, l.command, l.owner, l.ttl, w.now); }
  }

  lemma ClaimStepMatches(w: World, l: Label)
    requires Matched(w.db) && l.Claim?
    ensures Matched(Step(w, l).db) && LeasesGrow(w.db, Step(w, l).db)
  {
    if l.lease !in w.db.leases { ClaimMatches(w.db, l.nonce, l.peer, l.command, l.lease, w.now); }
  }

  lemma RetireStepMatches(w: World, l: Label)
    requires Matched(w.db) && l.Retire?
    ensures Matched(Step(w, l).db) && LeasesGrow(w.db, Step(w, l).db)
  {
    RetireMatches(w.db, l.lease, l.peer);
  }

  lemma ByProcessMatches(w: World, l: Label)
    requires Matched(w.db) && l.ByProcess?
    ensures Matched(Step(w, l).db) && LeasesGrow(w.db, Step(w, l).db)
  {
    hide ProcessStep;
    ProcessLeavesGrants(w, l.pid, l.answers);
  }

  lemma {:induction false} RunMatches(w: World, labels: seq<Label>)
    requires Matched(w.db)
    ensures Matched(Run(w, labels).db) && LeasesGrow(w.db, Run(w, labels).db)
    decreases |labels|
  {
    if labels != [] {
      RunMatches(w, labels[..|labels| - 1]);
      StepMatches(Run(w, labels[..|labels| - 1]), labels[|labels| - 1]);
    }
  }

  /** Over a whole run every lease took one grant, and every consumed grant gave one. */
  lemma GrantsAreOneUse(w: World, labels: seq<Label>)
    requires Initial(w)
    ensures |Spent(Run(w, labels).db.grants)| == |Run(w, labels).db.leases|
  {
    assert Spent(w.db.grants) == {};
    RunMatches(w, labels);
  }

  /** A peer once refused its own lease, for the fence or because it was retired, is
      refused at every later time. */
  lemma RefusedGuardStaysRefused(w: World, before: seq<Label>, id: LeaseId, peer: Peer, after: seq<Label>)
    requires Initial(w) && id in Run(w, before).db.leases && GuardTx(Run(w, before).db, id, peer).Raise?
    ensures GuardTx(Run(Run(w, before), after).db, id, peer).Raise?
  {
    var v, v' := Run(w, before), Run(Run(w, before), after);
    assert Spent(w.db.grants) == {};
    RunMatches(w, before);
    RunMatches(v, after);
    LeasePassesExactlyWhileGood(w, before, id);
    var l := v.db.leases[id];
    assert v'.db.leases[id] in {l, l.(retired := true)};
    if !Passes(v.db, l) {
      RevocationIsPermanent(w, before, id, after);
      assert Passes(v'.db, v'.db.leases[id]) == Passes(v'.db, l);
    }
  }
}
