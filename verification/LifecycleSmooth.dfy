/**
 Ticks of the machine that nothing disturbs: whatever clients do meanwhile, each commits
 its operation, or restores it if that was its direction.
 */
module LifecycleSmooth {
  import opened Schema
  import opened LifecycleModel
  import opened LifecycleMachine
  import opened LifecycleFrames
  import opened LifecycleInvariants
  import opened LifecycleAgreement
  import opened LifecycleHistory
  import opened LifecycleTheorems

  // ------------------------------------------------------------------ on course

  /** The outcome of the instance's last effect is known. */
  ghost predicate Clear(w: World, id: InstanceId) { id in w.db.effects ==> w.db.effects[id].phase != Intent }

  ghost predicate BindingHolds(w: World, id: InstanceId, binding: nat) {
    id in w.db.effects ==> w.db.effects[id].binding == binding
  }

  /** A lease that can still lead to an effect. */
  ghost predicate Usable(w: World, l: Lease) {
    l.instance in w.timeouts && Clear(w, l.instance) && BindingHolds(w, l.instance, l.binding)
  }

  /** The daemon shows what the record asks for. */
  ghost predicate AsDesired(w: World, claim: Claim, record: Effect) {
    DaemonOf(w, claim.lease.instance).state == record.desired
  }

  ghost predicate WorkerFine(w: World, k: Worker) {
    && !k.second
    && match k.at
       case Calling => k.op.policy.content.backend == Production ==> Clear(w, k.op.instance)
       case Minted(n) =>
         k.op.policy.content.backend == Production && n in w.db.leases && !w.db.leases[n].consumed && Usable(w, w.db.leases[n])
       case Waiting(n, child, _) =>
         k.op.policy.content.backend == Production && child in w.executors && w.executors[child].nonce == n
       case ChildDone(_, ok) =>
         k.op.policy.content.backend == Production && ok
         && ReadBackTx(w.db, k.op, k.restore) == Done(w.db, DaemonOf(w, k.op.instance))
       case Returned(result) =>
         result == Actual(w, k.op.instance, k.op.policy.content.backend) && result.state == Target(k.op, k.restore)
       case Checked(_) => true
       case Failing => false
       case Quarantining => false
  }

  ghost predicate ExecutorFine(w: World, x: Executor) {
    match x.at
    case Unclaimed => x.nonce in w.db.leases && !w.db.leases[x.nonce].consumed && Usable(w, w.db.leases[x.nonce])
    case Claimed(claim) => Usable(w, claim.lease)
    case Armed(claim, _) => Usable(w, claim.lease)
    case Inspected(claim, _, before) => Usable(w, claim.lease) && before == DaemonOf(w, claim.lease.instance)
    case Acknowledged(claim, _, record) => AsDesired(w, claim, record)
    case Reinspected(claim, _, record, seen) => seen == DaemonOf(w, claim.lease.instance) && AsDesired(w, claim, record)
    case Confirming(claim, _, record) =>
      && AsDesired(w, claim, record) && record.observation.Some?
      && SameRuntime(DaemonOf(w, claim.lease.instance), record.observation.value)
    case Confirmed(claim, record, seen) => seen == DaemonOf(w, claim.lease.instance)
    case _ => true
  }

  /** No deadline has passed. */
  ghost predicate WorkerOnTime(w: World, k: Worker) {
    k.at.Minted? && k.at.nonce in w.db.leases ==> w.now < w.db.leases[k.at.nonce].expires
  }

  ghost predicate ExecutorOnTime(w: World, x: Executor) {
    && (x.at.Unclaimed? && x.nonce in w.db.leases ==> w.now < w.db.leases[x.nonce].expires)
    && (x.at.Claimed? || x.at.Armed? || x.at.Inspected? || x.at.Journaled? ==> w.now < x.at.claim.lease.expires)
    && (!x.at.Unclaimed? && !x.at.Claimed? && !x.at.Confirmed? ==> w.now < x.at.deadline)
  }

  ghost predicate OnTime(w: World) {
    && (forall p | p in w.workers :: WorkerOnTime(w, w.workers[p]))
    && (forall e | e in w.executors :: ExecutorOnTime(w, w.executors[e]))
  }

  /** Only a live executor's own effect may be unknown. */
  ghost predicate AllClear(w: World) {
    forall id | id in w.db.effects && w.db.effects[id].phase == Intent ::
      exists e | e in w.executors :: Owns(w.executors[e].at) && w.executors[e].at.claim.lease.instance == id
  }

  ghost predicate OnCourse(w: World) {
    && AllClear(w) && OnTime(w) && (w.executors != map[] ==> w.workers != map[])
    && (forall p | p in w.workers :: WorkerFine(w, w.workers[p]))
    && (forall e | e in w.executors :: ExecutorFine(w, w.executors[e]))
  }

  /** What does not disturb: clients, enrolments, a clock that passes no deadline, and steps of
      a tick in which nothing is busy, faulty, refused, killed or unhealthy, and the daemon does
      what it is asked to. */
  ghost predicate Smooth(w: World, l: Label) {
    match l
    case Client(_, _, _, _, _, _, _, _, _) => true
    case Enroll(_) => true
    case Tick(_, _) => true
    case ByWorker(p, work) => SmoothWork(w, p, work)
    case ByExecutor(e, act) => SmoothAct(w, e, act)
    case Advance(delta) => OnTime(AdvanceStep(w, delta))
    case LateEffect(_, _) => false
    case Flap(_, _) => false
    case Foreign(_, _, _) => false
  }

  ghost predicate SmoothWork(w: World, p: Pid, work: WorkerAct) {
    match work
    case CallSimulation(fault) => !fault
    case MintLease(enabled, bound, _, binding) =>
      enabled && bound && (p in w.workers ==> BindingHolds(w, w.workers[p].op.instance, binding))
    case Finish(busy) => !busy
    case ParentTimeout => false
    case Fail => false
    case KillWorker => false
    case _ => true
  }

  ghost predicate SmoothAct(w: World, e: Pid, act: ExecutorAct) {
    match act
    case ClaimLease(binding, bound, enabled) =>
      bound && enabled
      && (e in w.executors && w.executors[e].nonce in w.db.leases ==> binding == w.db.leases[w.executors[e].nonce].binding)
    case CommandReturns(outcome) =>
      e in w.executors && w.executors[e].at.Mutating? ==> outcome.state == w.executors[e].at.record.desired
    case Confirm =>
      e in w.executors && w.executors[e].at.Confirming? ==>
        var seen := DaemonOf(w, w.executors[e].at.claim.lease.instance); seen.state == Stopped || seen.healthy == Some(true)
    case KillExecutor => false
    case _ => true
  }

  /** The operation ended in the direction it was worked in. */
  ghost predicate Straight(c: Completion) { c.phase == (if c.op.phase == RollingBack then RolledBack else Committed) }

  /** A step that stays on course, and what it completes. */
  ghost predicate Keeps(w: World, w': World) {
    && OnCourse(w')
    && (forall c | c in w'.history.completions :: c in w.history.completions || Straight(c))
  }

  ghost predicate Sound(w: World) { Safe(w) && Faithful(w) && Accounted(w) }

  // ------------------------------------------------------------------- one worker

  /** One worker moves on; its executor, if any, is where it was. */
  lemma WorkerMoves(w: World, w': World, p: Pid)
    requires Safe(w) && OnCourse(w) && p in w.workers && w.executors == map[]
    requires w'.executors == map[] && w'.now == w.now && w'.workers.Keys <= {p}
    requires AllClear(w') && (p in w'.workers ==> WorkerFine(w', w'.workers[p]) && WorkerOnTime(w', w'.workers[p]))
    ensures OnCourse(w')
  {}

  lemma OneWorker(w: World, p: Pid)
    requires Safe(w) && p in w.workers
    ensures w.workers.Keys == {p}
  {
    assert forall q | q in w.workers :: q == p;
  }

  /** A worker that is not waiting is alone. */
  lemma WorkerAlone(w: World, p: Pid)
    requires Safe(w) && OnCourse(w) && p in w.workers && !w.workers[p].at.Waiting?
    ensures w.executors == map[]
  {
    if e :| e in w.executors { assert WorkerFine(w, w.workers[p]); }
  }

  lemma WorkerKnown(w: World, p: Pid)
    requires Sound(w) && OnCourse(w) && p in w.workers
    ensures var k := w.workers[p];
            && WorkerOk(w.db, k) && WorkerTrue(w, k) && WorkerFine(w, k) && WorkerOnTime(w, k)
            && OperationOk(w.db, k.op.id) && k.op.instance in w.db.instances && RowTrue(w, k.op.instance)
            && KindOf(w.db.instances[k.op.instance]) == k.op.policy.content.backend
  {}

  lemma CallSimulationKeeps(w: World, p: Pid)
    requires Sound(w) && OnCourse(w) && p in w.workers
    ensures Keeps(w, CallSimulationStep(w, p, false))
  {
    hide Safe, Faithful, Accounted, AllClear, SimChangeTx;
    var k := w.workers[p];
    WorkerKnown(w, p);
    if k.at == Calling && k.op.fence.Some? && k.op.policy.content.backend == Simulation {
      WorkerAlone(w, p);
      OneWorker(w, p);
      SimulationTakes(w, p);
      SimChangeReturns(w.sim, k.op.instance, k.op, k.restore);
      var w' := CallSimulationStep(w, p, false);
      SameEffectsClear(w, w');
      WorkerMoves(w, w', p);
    }
  }

  lemma MintDone(w: World, k: Worker, enabled: bool, bound: bool, nonce: Nonce, binding: nat, expires: real)
    requires WorkerOk(w.db, k) && enabled && bound && nonce !in w.db.leases
    ensures var tx := MintTx(w.db, k.op, k.restore, enabled, bound, nonce, binding, expires);
            && tx.Done? && tx.docs.effects == w.db.effects && k.op.fence.Some?
            && tx.docs.leases == w.db.leases[nonce :=
                 Lease(k.op.id, k.op.instance, k.op.fence.value, k.restore, binding, false, expires)]
  {}

  lemma MintKeeps(w: World, p: Pid, nonce: Nonce, binding: nat)
    requires Sound(w) && OnCourse(w) && p in w.workers && BindingHolds(w, w.workers[p].op.instance, binding)
    ensures Keeps(w, MintStep(w, p, true, true, nonce, binding))
  {
    hide Safe, Faithful, Accounted, AllClear, MintTx;
    var k := w.workers[p];
    WorkerKnown(w, p);
    if nonce !in w.db.leases && k.at == Calling && k.op.policy.content.backend == Production && k.op.instance in w.timeouts {
      WorkerAlone(w, p);
      OneWorker(w, p);
      PositiveTimeout(w, k.op.instance);
      MintDone(w, k, true, true, nonce, binding, w.now + w.timeouts[k.op.instance]);
      var w' := MintStep(w, p, true, true, nonce, binding);
      SameEffectsClear(w, w');
      WorkerMoves(w, w', p);
    }
  }

  lemma PositiveTimeout(w: World, id: InstanceId)
    requires Accounted(w) && id in w.timeouts
    ensures w.timeouts[id] > 0.0
  {}

  /** The helper holds the lease of the worker that started it. */
  lemma SpawnKeeps(w: World, p: Pid, child: Pid)
    requires Sound(w) && OnCourse(w) && p in w.workers
    ensures Keeps(w, SpawnStep(w, p, child))
  {
    hide Safe, Faithful, Accounted, AllClear;
    var k := w.workers[p];
    WorkerKnown(w, p);
    if k.at.Minted? && child !in w.executors {
      WorkerAlone(w, p);
      OneWorker(w, p);
      var w' := SpawnStep(w, p, child);
      NobodyClears(w, w');
      assert w'.executors.Keys == {child} && w'.executors[child] == Executor(k.at.nonce, Unclaimed);
      assert w'.workers.Keys == {p} && w'.workers[p] == k.(at := Waiting(k.at.nonce, child, w.now));
      assert ExecutorFine(w', w'.executors[child]) && ExecutorOnTime(w', w'.executors[child]);
      assert WorkerFine(w', w'.workers[p]) && WorkerOnTime(w', w'.workers[p]);
    }
  }

  /** Without an executor no outcome is unknown. */
  lemma NobodyClears(w: World, w': World)
    requires AllClear(w) && w.executors == map[] && w'.db.effects == w.db.effects
    ensures AllClear(w')
  {}

  lemma ReadBackKeeps(w: World, p: Pid)
    requires Sound(w) && OnCourse(w) && p in w.workers
    ensures Keeps(w, ReadBackStep(w, p))
  {
    hide Safe, Faithful, Accounted, AllClear, ReadBackTx;
    var k := w.workers[p];
    WorkerKnown(w, p);
    if k.at.ChildDone? {
      WorkerAlone(w, p);
      OneWorker(w, p);
      var w' := ReadBackStep(w, p);
      ReadBackIsTarget(w, p);
      SameEffectsClear(w, w');
      WorkerMoves(w, w', p);
    }
  }

  lemma ReadBackIsTarget(w: World, p: Pid)
    requires Sound(w) && p in w.workers && ReadBackTx(w.db, w.workers[p].op, w.workers[p].restore).Done?
    ensures var k := w.workers[p]; ReadBackTx(w.db, k.op, k.restore).value.state == Target(k.op, k.restore)
  {
    hide Faithful, Accounted;
    var k := w.workers[p];
    ReadBackReturns(w.db, k.op, k.restore);
    assert WorkerOk(w.db, k);
    assert EffectOk(w.db, k.op.instance);
  }

  lemma CheckResultKeeps(w: World, p: Pid)
    requires Sound(w) && OnCourse(w) && p in w.workers
    ensures Keeps(w, CheckResultStep(w, p))
  {
    hide Safe, Faithful, Accounted, AllClear, Actual, Target;
    var k := w.workers[p];
    WorkerKnown(w, p);
    if k.at.Returned? {
      WorkerAlone(w, p);
      OneWorker(w, p);
      var w' := CheckResultStep(w, p);
      SameEffectsClear(w, w');
      WorkerMoves(w, w', p);
    }
  }

  lemma FinishDone(db: Db, k: Worker, observation: Option<Obs>, phase: Phase)
    requires WorkerOk(db, k) && (phase != Quarantined ==> observation.Some?)
    ensures var tx := FinishTx(db, k.op, observation, phase); tx.Done? && tx.docs.effects == db.effects
  {}

  lemma FinishKeeps(w: World, p: Pid)
    requires Sound(w) && OnCourse(w) && p in w.workers
    ensures Keeps(w, FinishStep(w, p, false))
  {
    hide Safe, Faithful, Accounted, AllClear, Actual, FinishTx;
    var k := w.workers[p];
    WorkerKnown(w, p);
    if k.at.Checked? {
      WorkerAlone(w, p);
      OneWorker(w, p);
      DirectionIsPhase(w.db, k);
      FinishDone(w.db, k, Some(k.at.result), if k.restore then RolledBack else Committed);
      var w' := FinishStep(w, p, false);
      SameEffectsClear(w, w');
      WorkerMoves(w, w', p);
    }
  }

  lemma DirectionIsPhase(db: Db, k: Worker)
    requires WorkerOk(db, k)
    ensures k.restore == (k.op.phase == RollingBack)
  {}

  lemma NothingElse(w: World, p: Pid, busy: bool)
    requires OnCourse(w) && p in w.workers
    ensures CompensateStep(w, p, busy) == w && QuarantineStep(w, p, busy) == w
  {
    assert WorkerFine(w, w.workers[p]);
  }

  lemma Stays(w: World)
    requires OnCourse(w)
    ensures Keeps(w, w)
  {}

  lemma NoWorker(w: World, p: Pid, work: WorkerAct)
    requires p !in w.workers && !work.KillWorker?
    ensures WorkerStep(w, p, work) == w
  {}

  lemma WorkKeeps(w: World, p: Pid, work: WorkerAct)
    requires Sound(w) && OnCourse(w) && SmoothWork(w, p, work)
    ensures Keeps(w, WorkerStep(w, p, work))
  {
    hide Sound, OnCourse, Keeps, CallSimulationStep, MintStep, SpawnStep, ReadBackStep, CheckResultStep, FinishStep,
      CompensateStep, QuarantineStep;
    if p !in w.workers { NoWorker(w, p, work); Stays(w); return; }
    match work
    case CallSimulation(_) => CallSimulationKeeps(w, p);
    case MintLease(_, _, nonce, binding) => MintKeeps(w, p, nonce, binding);
    case Spawn(child) => SpawnKeeps(w, p, child);
    case ReadBack => ReadBackKeeps(w, p);
    case CheckResult => CheckResultKeeps(w, p);
    case Finish(_) => FinishKeeps(w, p);
    case Compensate(busy) => NothingElse(w, p, busy); Stays(w);
    case Quarantine(busy) => NothingElse(w, p, busy); Stays(w);
  }

  lemma SameEffectsClear(w: World, w': World)
    requires AllClear(w) && w'.db.effects == w.db.effects && w'.executors == w.executors
    ensures AllClear(w')
  {}

  lemma SimulationTakes(w: World, p: Pid)
    requires Sound(w) && p in w.workers
    requires var k := w.workers[p]; k.at.Calling? && k.op.policy.content.backend == Simulation
    ensures var k := w.workers[p]; k.op.fence.Some? && SimChangeTx(w.sim, k.op.instance, k.op, k.restore).Done?
  {
    var k := w.workers[p];
    assert WorkerOk(w.db, k) && WorkerTrue(w, k);
    assert OperationOk(w.db, k.op.id) && RowTrue(w, k.op.instance);
  }

  // ----------------------------------------------------------------- one executor

  /** The worker that waits for the executor. */
  lemma Parent(w: World, e: Pid) returns (p: Pid)
    requires Safe(w) && OnCourse(w) && e in w.executors
    ensures w.executors.Keys == {e} && w.workers.Keys == {p}
    ensures var k, x := w.workers[p], w.executors[e];
            && k.at.Waiting? && k.at.child == e && k.at.nonce == x.nonce && WorkerOk(w.db, k) && WorkerFine(w, k)
            && x.nonce in w.db.leases && WorkerLease(w.db, k, x.nonce)
  {
    p :| p in w.workers;
    OneWorker(w, p);
    assert forall f | f in w.executors :: f == e;
    assert WorkerFine(w, w.workers[p]) && WorkerOk(w.db, w.workers[p]);
  }

  /** What a live executor acts under: a claim of its parent's operation, which is held. */
  ghost predicate Acting(w: World, x: Executor) {
    && x.nonce in w.db.leases
    && var l := w.db.leases[x.nonce];
       && l.op in w.db.operations && Owned(w.db, l.op, l.fence) && l.restore == (w.db.operations[l.op].phase == RollingBack)
       && (!x.at.Unclaimed? ==>
             && x.at.claim.lease.(consumed := true) == l && x.at.claim.op.id == l.op && x.at.claim.lease.op == l.op)
       && l.instance in w.db.instances && l.fence == w.db.instances[l.instance].fence
  }

  lemma ExecutorActs(w: World, e: Pid)
    requires Sound(w) && OnCourse(w) && e in w.executors
    ensures Acting(w, w.executors[e])
  {
    hide Faithful, Accounted, Journaling, Coupling;
    var p := Parent(w, e);
    assert ExecutorOk(w.db, w.executors[e]);
  }

  lemma ExecutorKnown(w: World, e: Pid)
    requires Sound(w) && OnCourse(w) && e in w.executors
    ensures var x := w.executors[e];
            && ExecutorOk(w.db, x) && ExecutorTrue(w, x) && ExecutorFine(w, x) && ExecutorOnTime(w, x)
  {
    hide Journaling, Coupling;
  }

  /** The executor moves on under the same claim; its parent keeps waiting. */
  lemma ExecutorMoves(w: World, w': World, e: Pid, at: ExecutorAt)
    requires Safe(w) && OnCourse(w) && e in w.executors
    requires w'.executors == w.executors[e := w.executors[e].(at := at)] && w'.workers == w.workers && w'.now == w.now
    requires AllClear(w') && ExecutorFine(w', w'.executors[e]) && ExecutorOnTime(w', w'.executors[e])
    requires w'.history.completions == w.history.completions
    ensures Keeps(w, w')
  {
    hide Safe;
    var p := Parent(w, e);
    assert w'.executors.Keys == {e};
  }

  lemma ClaimDone(w: World, x: Executor, binding: nat)
    requires Acting(w, x) && x.at.Unclaimed? && ExecutorFine(w, x) && ExecutorOnTime(w, x)
    requires binding == w.db.leases[x.nonce].binding
    ensures var tx := ClaimTx(w.db, x.nonce, w.now, binding, true, true);
            && tx.Done? && tx.docs.effects == w.db.effects && tx.value.lease == w.db.leases[x.nonce]
  {}

  lemma ClaimKeeps(w: World, e: Pid, binding: nat)
    requires Sound(w) && OnCourse(w) && e in w.executors && SmoothAct(w, e, ClaimLease(binding, true, true))
    ensures Keeps(w, ClaimStep(w, e, binding, true, true))
  {
    hide Safe, Faithful, Accounted, AllClear, ClaimTx, OnCourse, Keeps, Acting, ExecutorOk, ExecutorTrue;
    var x := w.executors[e];
    if !x.at.Unclaimed? { Stays(w); return; }
    ExecutorActs(w, e);
    ExecutorKnown(w, e);
    ClaimDone(w, x, binding);
    var tx := ClaimTx(w.db, x.nonce, w.now, binding, true, true);
    var w' := ClaimStep(w, e, binding, true, true);
    UnchangedJournal(w, w', e, Claimed(tx.value));
    ExecutorMoves(w, w', e, Claimed(tx.value));
  }

  /** Before the intent, and after it until it settles, the journal stays as it is. */
  lemma UnchangedJournal(w: World, w': World, e: Pid, at: ExecutorAt)
    requires OnCourse(w) && e in w.executors && w'.db.effects == w.db.effects
    requires w'.executors == w.executors[e := w.executors[e].(at := at)]
    requires Owns(w.executors[e].at) ==> Owns(at) && at.claim.lease.instance == w.executors[e].at.claim.lease.instance
    ensures AllClear(w')
  {
    forall id | id in w'.db.effects && w'.db.effects[id].phase == Intent
      ensures exists f | f in w'.executors :: Owns(w'.executors[f].at) && w'.executors[f].at.claim.lease.instance == id
    {
      var f :| f in w.executors && Owns(w.executors[f].at) && w.executors[f].at.claim.lease.instance == id;
      assert f in w'.executors && Owns(w'.executors[f].at) && w'.executors[f].at.claim.lease.instance == id;
    }
  }

  lemma ArmKeeps(w: World, e: Pid)
    requires Sound(w) && OnCourse(w) && e in w.executors
    ensures Keeps(w, ArmStep(w, e))
  {
    hide Safe, Faithful, Accounted, AllClear, OnCourse, Keeps, ExecutorOk, ExecutorTrue;
    var x := w.executors[e].at;
    if !x.Claimed? { Stays(w); return; }
    ExecutorKnown(w, e);
    PositiveTimeout(w, x.claim.lease.instance);
    var w' := ArmStep(w, e);
    var at := Armed(x.claim, w.now + w.timeouts[x.claim.lease.instance]);
    UnchangedJournal(w, w', e, at);
    ExecutorMoves(w, w', e, at);
  }

  lemma InspectKeeps(w: World, e: Pid)
    requires Sound(w) && OnCourse(w) && e in w.executors
    ensures Keeps(w, InspectStep(w, e))
  {
    hide Safe, Faithful, Accounted, AllClear, OnCourse, Keeps, ExecutorOk, ExecutorTrue;
    var x := w.executors[e].at;
    if !x.Armed? { Stays(w); return; }
    ExecutorKnown(w, e);
    var w' := InspectStep(w, e);
    var at := Inspected(x.claim, x.deadline, DaemonOf(w, x.claim.lease.instance));
    UnchangedJournal(w, w', e, at);
    ExecutorMoves(w, w', e, at);
  }

  lemma JournalDone(w: World, e: Pid)
    requires Sound(w) && OnCourse(w) && e in w.executors && w.executors[e].at.Inspected?
    ensures var x := w.executors[e].at;
            var tx := JournalTx(w.db, x.claim, x.before, w.now);
            && tx.Done? && tx.docs.effects == w.db.effects[x.claim.lease.instance := tx.value]
            && tx.value.desired == Target(x.claim.op, x.claim.lease.restore)
            && (if x.before.state == tx.value.desired then tx.value.phase == Settled && tx.value.observation == Some(x.before)
                else tx.value.phase == Intent)
  {
    hide Faithful, Accounted, Coupling, Exclusive, Processes, Target;
    InspectionIsAdmissible(w, e);
    ExecutorActs(w, e);
    ExecutorKnown(w, e);
    var id := w.executors[e].at.claim.lease.instance;
    if id in w.db.effects { assert EffectOk(w.db, id); }
  }

  lemma JournalKeeps(w: World, e: Pid)
    requires Sound(w) && OnCourse(w) && e in w.executors
    ensures Keeps(w, JournalStep(w, e))
  {
    hide Safe, Faithful, Accounted, OnCourse, Keeps, ExecutorOk, ExecutorTrue, JournalTx, Target, AllClear;
    var x := w.executors[e].at;
    if !x.Inspected? { Stays(w); return; }
    ExecutorKnown(w, e);
    JournalDone(w, e);
    var tx := JournalTx(w.db, x.claim, x.before, w.now);
    var w' := JournalStep(w, e);
    var at := if tx.value.phase == Settled then Confirming(x.claim, x.deadline, tx.value) else Journaled(x.claim, x.deadline, tx.value);
    OwnJournalClear(w, w', e, at, tx.value);
    ExecutorMoves(w, w', e, at);
  }

  /** The executor writes its own record: an intent it owns, or a known outcome. */
  lemma OwnJournalClear(w: World, w': World, e: Pid, at: ExecutorAt, record: Effect)
    requires OnCourse(w) && Safe(w) && e in w.executors && !at.Unclaimed? && !w.executors[e].at.Unclaimed?
    requires at.claim == w.executors[e].at.claim
    requires w'.db.effects == w.db.effects[at.claim.lease.instance := record]
    requires w'.executors == w.executors[e := w.executors[e].(at := at)]
    requires record.phase == Intent ==> Owns(at)
    ensures AllClear(w')
  {
    OnlyOwnIntent(w, e);
    assert w'.executors[e].at == at;
  }

  lemma OnlyOwnIntent(w: World, e: Pid)
    requires OnCourse(w) && Safe(w) && e in w.executors && !w.executors[e].at.Unclaimed?
    ensures forall id | id in w.db.effects && w.db.effects[id].phase == Intent :: id == w.executors[e].at.claim.lease.instance
  {
    forall id | id in w.db.effects && w.db.effects[id].phase == Intent
      ensures id == w.executors[e].at.claim.lease.instance
    {
      var f :| f in w.executors && Owns(w.executors[f].at) && w.executors[f].at.claim.lease.instance == id;
      assert f == e;
    }
  }

  lemma ClearKeeps(w: World, e: Pid)
    requires Sound(w) && OnCourse(w) && e in w.executors
    ensures Keeps(w, ClearStep(w, e))
  {
    hide Safe, Faithful, Accounted, AllClear, OnCourse, Keeps, ExecutorOk, ExecutorTrue, Owned;
    var x := w.executors[e].at;
    if !x.Journaled? { Stays(w); return; }
    ExecutorActs(w, e);
    ExecutorKnown(w, e);
    var w' := ClearStep(w, e);
    var at := Cleared(x.claim, x.deadline, x.record);
    UnchangedJournal(w, w', e, at);
    ExecutorMoves(w, w', e, at);
  }

  lemma StartCommandKeeps(w: World, e: Pid)
    requires Sound(w) && OnCourse(w) && e in w.executors
    ensures Keeps(w, StartCommandStep(w, e))
  {
    hide Safe, Faithful, Accounted, AllClear, OnCourse, Keeps, ExecutorOk, ExecutorTrue;
    var x := w.executors[e].at;
    if !x.Cleared? { Stays(w); return; }
    ExecutorKnown(w, e);
    var w' := StartCommandStep(w, e);
    var at := Mutating(x.claim, x.deadline, x.record);
    UnchangedJournal(w, w', e, at);
    ExecutorMoves(w, w', e, at);
  }

  lemma CommandReturnsKeeps(w: World, e: Pid, outcome: Obs)
    requires Sound(w) && OnCourse(w) && e in w.executors && SmoothAct(w, e, CommandReturns(outcome))
    ensures Keeps(w, CommandReturnsStep(w, e, outcome))
  {
    hide Safe, Faithful, Accounted, AllClear, OnCourse, Keeps, ExecutorOk, ExecutorTrue;
    var x := w.executors[e].at;
    if !x.Mutating? { Stays(w); return; }
    ExecutorKnown(w, e);
    var w' := CommandReturnsStep(w, e, outcome);
    var at := Acknowledged(x.claim, x.deadline, x.record);
    UnchangedJournal(w, w', e, at);
    ExecutorMoves(w, w', e, at);
  }

  lemma ReinspectKeeps(w: World, e: Pid)
    requires Sound(w) && OnCourse(w) && e in w.executors
    ensures Keeps(w, ReinspectStep(w, e))
  {
    hide Safe, Faithful, Accounted, AllClear, OnCourse, Keeps, ExecutorOk, ExecutorTrue;
    var x := w.executors[e].at;
    if !x.Acknowledged? { Stays(w); return; }
    ExecutorKnown(w, e);
    var w' := ReinspectStep(w, e);
    var at := Reinspected(x.claim, x.deadline, x.record, DaemonOf(w, x.claim.lease.instance));
    UnchangedJournal(w, w', e, at);
    ExecutorMoves(w, w', e, at);
  }

  lemma ReportDone(db: Db, claim: Claim, record: Effect, seen: Obs, phase: EffectPhase)
    requires Owned(db, claim.op.id, claim.lease.fence)
    ensures var tx := ReportTx(db, claim, record, seen, phase);
            && tx.Done? && tx.value == record.(phase := phase, observation := Some(seen))
            && tx.docs == db.(effects := db.effects[claim.lease.instance := tx.value], events := tx.docs.events)
  {}

  lemma SettleKeeps(w: World, e: Pid)
    requires Sound(w) && OnCourse(w) && e in w.executors
    ensures Keeps(w, SettleStep(w, e))
  {
    hide Safe, Faithful, Accounted, AllClear, OnCourse, Keeps, ExecutorOk, ExecutorTrue, ReportTx, Owned;
    var x := w.executors[e].at;
    if !x.Reinspected? { Stays(w); return; }
    ExecutorActs(w, e);
    ExecutorKnown(w, e);
    ReportDone(w.db, x.claim, x.record, x.seen, Settled);
    var tx := ReportTx(w.db, x.claim, x.record, x.seen, Settled);
    var w' := SettleStep(w, e);
    var at := Confirming(x.claim, x.deadline, tx.value);
    OwnJournalClear(w, w', e, at, tx.value);
    ExecutorMoves(w, w', e, at);
  }

  lemma ConfirmKeeps(w: World, e: Pid)
    requires Sound(w) && OnCourse(w) && e in w.executors && SmoothAct(w, e, Confirm)
    ensures Keeps(w, ConfirmStep(w, e))
  {
    hide Safe, Faithful, Accounted, AllClear, OnCourse, Keeps, ExecutorOk, ExecutorTrue;
    var x := w.executors[e].at;
    if !x.Confirming? { Stays(w); return; }
    ExecutorKnown(w, e);
    var w' := ConfirmStep(w, e);
    var at := Confirmed(x.claim, x.record, DaemonOf(w, x.claim.lease.instance));
    UnchangedJournal(w, w', e, at);
    ExecutorMoves(w, w', e, at);
  }

  /** The verified record is what the parent reads back. */
  lemma ReportedReadsBack(w: World, e: Pid, p: Pid, db': Db)
    requires Sound(w) && OnCourse(w) && e in w.executors && w.executors[e].at.Confirmed? && p in w.workers
    requires var k := w.workers[p]; WorkerOk(w.db, k) && WorkerLease(w.db, k, w.executors[e].nonce)
    requires var x := w.executors[e].at;
             db' == w.db.(effects := w.db.effects[x.claim.lease.instance := x.record.(phase := Verified, observation := Some(x.seen))],
                          events := db'.events)
    ensures var k := w.workers[p]; ReadBackTx(db', k.op, k.restore) == Done(db', DaemonOf(w, k.op.instance))
  {
    hide Faithful, Accounted, Safe, ReadBackTx, OnCourse, ExecutorTrue, ExecutorOnTime;
    ExecutorActs(w, e);
    ExecutorKnown(w, e);
    var k, x := w.workers[p], w.executors[e];
    VerifiedReadsBack(db', k.op, k.restore, x.at.record.(phase := Verified, observation := Some(x.at.seen)), x.at.seen);
  }

  lemma VerifiedReadsBack(db: Db, op: Operation, restore: bool, record: Effect, seen: Obs)
    requires op.fence.Some? && Owned(db, op.id, op.fence.value) && op.instance in db.effects && db.effects[op.instance] == record
    requires record.op == op.id && record.phase == Verified && record.restore == restore && Some(record.fence) == op.fence
    requires record.observation == Some(seen)
    ensures ReadBackTx(db, op, restore) == Done(db, seen)
  {}

  lemma ReportKeeps(w: World, e: Pid)
    requires Sound(w) && OnCourse(w) && e in w.executors
    ensures Keeps(w, ReportStep(w, e))
  {
    hide Safe, Faithful, Accounted, AllClear, OnCourse, Keeps, ExecutorOk, ExecutorTrue, ReportTx, Owned, ReadBackTx;
    var x := w.executors[e].at;
    if !x.Confirmed? { Stays(w); return; }
    ExecutorActs(w, e);
    ExecutorKnown(w, e);
    ReportDone(w.db, x.claim, x.record, x.seen, Verified);
    var p := Parent(w, e);
    var tx := ReportTx(w.db, x.claim, x.record, x.seen, Verified);
    ReportedReadsBack(w, e, p, tx.docs);
    var w' := ReportStep(w, e);
    HandedBack(w, w', e, p, tx.docs);
  }

  /** The helper is done; its parent has the result to read. */
  lemma HandedBack(w: World, w': World, e: Pid, p: Pid, db': Db)
    requires Sound(w) && OnCourse(w) && e in w.executors && w.executors[e].at.Confirmed? && w' == Exit(w.(db := db'), e, true)
    requires w.executors.Keys == {e} && w.workers.Keys == {p} && w.workers[p].at.Waiting? && w.workers[p].at.child == e
    requires WorkerFine(w, w.workers[p])
    requires var k := w.workers[p]; ReadBackTx(db', k.op, k.restore) == Done(db', DaemonOf(w, k.op.instance))
    requires var x := w.executors[e].at;
             db'.effects == w.db.effects[x.claim.lease.instance := x.record.(phase := Verified, observation := Some(x.seen))]
    ensures Keeps(w, w')
  {
    hide Safe, Faithful, Accounted, ReadBackTx, WorkerFine, ExecutorFine;
    OnlyOwnIntent(w, e);
    ChildIsDone(w, w', e, p, db');
    assert w'.workers.Keys == {p} && w'.workers[p] == w.workers[p].(at := ChildDone(w.workers[p].at.nonce, true));
    assert w'.executors == map[];
  }

  lemma ChildIsDone(w: World, w': World, e: Pid, p: Pid, db': Db)
    requires p in w.workers && w.workers[p].at.Waiting? && w.workers[p].at.child == e && WorkerFine(w, w.workers[p])
    requires w' == Exit(w.(db := db'), e, true)
    requires var k := w.workers[p]; ReadBackTx(db', k.op, k.restore) == Done(db', DaemonOf(w, k.op.instance))
    ensures p in w'.workers && WorkerFine(w', w'.workers[p])
  {
    hide ReadBackTx;
  }

  lemma NoExecutor(w: World, e: Pid, act: ExecutorAct)
    requires e !in w.executors
    ensures ExecutorStep(w, e, act) == w
  {}

  lemma ActKeeps(w: World, e: Pid, act: ExecutorAct)
    requires Sound(w) && OnCourse(w) && SmoothAct(w, e, act)
    ensures Keeps(w, ExecutorStep(w, e, act))
  {
    hide Sound, OnCourse, Keeps, ClaimStep, ArmStep, InspectStep, JournalStep, ClearStep, StartCommandStep,
      CommandReturnsStep, ReinspectStep, SettleStep, ConfirmStep, ReportStep;
    if e !in w.executors { NoExecutor(w, e, act); Stays(w); return; }
    match act
    case ClaimLease(binding, _, _) => ClaimKeeps(w, e, binding);
    case Arm => ArmKeeps(w, e);
    case Inspect => InspectKeeps(w, e);
    case Journal => JournalKeeps(w, e);
    case Clear => ClearKeeps(w, e);
    case StartCommand => StartCommandKeeps(w, e);
    case CommandReturns(outcome) => CommandReturnsKeeps(w, e, outcome);
    case Reinspect => ReinspectKeeps(w, e);
    case Settle => SettleKeeps(w, e);
    case Confirm => ConfirmKeeps(w, e);
    case Report => ReportKeeps(w, e);
  }

  // -------------------------------------------------------------- everything else

  /** Clients and enrolments change nothing a process at work relies on. */
  ghost predicate Aside(w: World, w': World) {
    && w'.db.leases == w.db.leases && w'.db.effects == w.db.effects
    && w'.sim == w.sim && w'.daemon == w.daemon && w'.timeouts == w.timeouts && w'.now == w.now
    && w'.workers == w.workers && w'.executors == w.executors && w'.history.completions == w.history.completions
  }

  lemma ReadBackStays(db: Db, db': Db, k: Worker, result: Obs)
    requires WorkerOk(db, k) && WorkerOk(db', k) && db'.effects == db.effects
    requires ReadBackTx(db, k.op, k.restore) == Done(db, result)
    ensures ReadBackTx(db', k.op, k.restore) == Done(db', result)
  {}

  /** Documents, resources and processes a process at work relies on. */
  ghost predicate SameGround(w: World, w': World) {
    && w'.db.leases == w.db.leases && w'.db.effects == w.db.effects
    && w'.sim == w.sim && w'.daemon == w.daemon && w'.timeouts == w.timeouts
    && w'.workers == w.workers && w'.executors == w.executors && w'.history.completions == w.history.completions
  }

  lemma WorkerStaysFine(w: World, w': World, k: Worker)
    requires WorkerFine(w, k) && SameGround(w, w')
    requires k.at.ChildDone? ==> ReadBackTx(w'.db, k.op, k.restore) == Done(w'.db, DaemonOf(w, k.op.instance))
    ensures WorkerFine(w', k)
  {
    hide ReadBackTx;
  }

  lemma ExecutorStaysFine(w: World, w': World, x: Executor)
    requires ExecutorFine(w, x) && SameGround(w, w')
    ensures ExecutorFine(w', x)
  {
    hide SameRuntime;
  }

  lemma ChildDoneReads(w: World, k: Worker)
    requires WorkerFine(w, k) && k.at.ChildDone?
    ensures ReadBackTx(w.db, k.op, k.restore) == Done(w.db, DaemonOf(w, k.op.instance))
  {}

  lemma SameGroundKeeps(w: World, w': World)
    requires OnCourse(w) && SameGround(w, w') && OnTime(w')
    requires forall p | p in w'.workers :: WorkerFine(w', w'.workers[p])
    requires forall e | e in w'.executors :: ExecutorFine(w', w'.executors[e])
    ensures Keeps(w, w')
  {
    hide WorkerFine, ExecutorFine, OnTime;
  }

  lemma StillOnTime(w: World, w': World)
    requires OnTime(w) && w'.db.leases == w.db.leases && w'.workers == w.workers && w'.executors == w.executors && w'.now == w.now
    ensures OnTime(w')
  {
    forall p | p in w'.workers
      ensures WorkerOnTime(w', w'.workers[p])
    {
      assert WorkerOnTime(w, w.workers[p]);
    }
    forall e | e in w'.executors
      ensures ExecutorOnTime(w', w'.executors[e])
    {
      assert ExecutorOnTime(w, w.executors[e]);
    }
  }

  lemma WorkersOk(w: World, p: Pid)
    requires Safe(w) && p in w.workers
    ensures WorkerOk(w.db, w.workers[p])
  {}

  lemma AsideKeeps(w: World, w': World)
    requires Safe(w) && Safe(w') && OnCourse(w) && Aside(w, w')
    ensures Keeps(w, w')
  {
    hide Safe, ReadBackTx, WorkerFine, ExecutorFine, OnTime, WorkerOk, AllClear, Keeps;
    StillOnTime(w, w');
    forall p | p in w'.workers
      ensures WorkerFine(w', w'.workers[p])
    {
      var k := w.workers[p];
      WorkersOk(w, p);
      WorkersOk(w', p);
      if k.at.ChildDone? {
        ChildDoneReads(w, k);
        ReadBackStays(w.db, w'.db, k, DaemonOf(w, k.op.instance));
      }
      WorkerStaysFine(w, w', k);
    }
    forall e | e in w'.executors
      ensures ExecutorFine(w', w'.executors[e])
    {
      ExecutorStaysFine(w, w', w.executors[e]);
    }
    SameGroundKeeps(w, w');
  }

  lemma ClientIsAside(w: World, l: Label)
    requires Safe(w) && l.Client?
    ensures Aside(w, ClientStep(w, l))
  {
    hide AdmitTx, ProbeFor, ValidHost, Admits, AlreadyDone, Coupling, Journaling, Exclusive, Processes, Dispatch;
    if ValidHost(l.host) && l.uuid !in w.db.operations {
      DispatchIsAside(w.db, l.uid, l.req, l.host, ProbeFor(w, l), l.busy, l.auditBusy);
    }
  }

  lemma DispatchIsAside(db: Db, uid: Uid, req: Request, host: Host, probe: Probe, busy: bool, auditBusy: bool)
    ensures var db' := Dispatch(db, uid, req, host, probe, busy, auditBusy).0; db'.leases == db.leases && db'.effects == db.effects
  {
    hide ActionTx, Access, View;
    if !req.action.Create? && req.instance in db.instances { ActionIsAside(db, uid, req, db.instances[req.instance], host, probe); }
  }

  lemma ApproveIsAside(db: Db, id: InstanceId, i: Instance, host: Host, probe: Probe)
    ensures var db' := After(ApproveTx(db, id, i, host, probe), db); db'.leases == db.leases && db'.effects == db.effects
  {}

  lemma ActionIsAside(db: Db, uid: Uid, req: Request, i: Instance, host: Host, probe: Probe)
    requires !req.action.Create?
    ensures var db' := After(ActionTx(db, uid, req, i, host, probe), db); db'.leases == db.leases && db'.effects == db.effects
  {
    hide ApproveTx, PolicyHolds;
    ApproveIsAside(db, req.instance, i, host, probe);
  }

  lemma EnrollIsAside(w: World, id: InstanceId)
    ensures Aside(w, EnrollStep(w, id))
  {}

  lemma TickOnStarts(w: World, pid: Pid, o: OpId, enabled: bool)
    requires LockFree(w) && o in w.db.operations
    ensures var w' := TickOn(w, pid, o, enabled);
            && w'.db.effects == w.db.effects && w'.executors == map[] && w'.now == w.now
            && w'.history.completions == w.history.completions && w'.workers.Keys <= {pid}
            && (pid in w'.workers ==> !w'.workers[pid].second && w'.workers[pid].at.Calling?)
  {}

  lemma TickKeeps(w: World, pid: Pid, enabled: bool)
    requires OnCourse(w)
    ensures Keeps(w, TickStep(w, pid, enabled))
  {
    hide TickOn;
    if LockFree(w) && exists o :: FirstPending(w.db, o) {
      var o :| FirstPending(w.db, o) && TickStep(w, pid, enabled) == TickOn(w, pid, o, enabled);
      TickOnStarts(w, pid, o, enabled);
      NobodyClears(w, TickOn(w, pid, o, enabled));
    }
  }

  lemma AdvanceKeeps(w: World, delta: real)
    requires OnCourse(w) && OnTime(AdvanceStep(w, delta))
    ensures Keeps(w, AdvanceStep(w, delta))
  {
    hide ReadBackTx, WorkerFine, ExecutorFine, OnTime, AllClear, Keeps;
    var w' := AdvanceStep(w, delta);
    forall p | p in w'.workers
      ensures WorkerFine(w', w'.workers[p])
    {
      if w.workers[p].at.ChildDone? { ChildDoneReads(w, w.workers[p]); }
      WorkerStaysFine(w, w', w.workers[p]);
    }
    forall e | e in w'.executors
      ensures ExecutorFine(w', w'.executors[e])
    {
      ExecutorStaysFine(w, w', w.executors[e]);
    }
    SameGroundKeeps(w, w');
  }

  lemma StepKeepsCourse(w: World, l: Label)
    requires Sound(w) && OnCourse(w) && Smooth(w, l)
    ensures Sound(Step(w, l)) && Keeps(w, Step(w, l))
  {
    SmoothKeepsSound(w, l);
    hide Sound, OnCourse, Keeps, Aside, OnTime, SmoothWork, SmoothAct, ClientStep, EnrollStep, TickStep, WorkerStep, ExecutorStep,
      AdvanceStep;
    match l
    case Client(_, _, _, _, _, _, _, _, _) => SoundIsSafe(w); SoundIsSafe(Step(w, l)); ClientIsAside(w, l); AsideKeeps(w, Step(w, l));
    case Enroll(id) => SoundIsSafe(w); SoundIsSafe(Step(w, l)); EnrollIsAside(w, id); AsideKeeps(w, Step(w, l));
    case Tick(pid, enabled) => TickKeeps(w, pid, enabled);
    case ByWorker(p, work) => WorkKeeps(w, p, work);
    case ByExecutor(e, act) => ActKeeps(w, e, act);
    case Advance(delta) => AdvanceKeeps(w, delta);
  }

  lemma SoundIsSafe(w: World)
    requires Sound(w)
    ensures Safe(w)
  {}

  lemma SmoothKeepsSound(w: World, l: Label)
    requires Sound(w) && Smooth(w, l)
    ensures Sound(Step(w, l))
  {
    hide Safe, Faithful, Accounted, Step;
    StepKeepsSafe(w, l);
    StepKeepsFaithful(w, l);
    StepKeepsAccounted(w, l);
  }

  // --------------------------------------------------------------------- theorems

  ghost predicate SmoothRun(w: World, labels: seq<Label>)
    decreases |labels|
  {
    labels == []
    || (SmoothRun(w, labels[..|labels| - 1]) && Smooth(Run(w, labels[..|labels| - 1]), labels[|labels| - 1]))
  }

  lemma {:induction false} RunKeepsCourse(w: World, labels: seq<Label>)
    requires Sound(w) && OnCourse(w) && SmoothRun(w, labels)
    ensures Sound(Run(w, labels)) && Keeps(w, Run(w, labels))
    decreases |labels|
  {
    hide Sound, OnCourse, Smooth, Step;
    if labels != [] {
      var before := labels[..|labels| - 1];
      RunKeepsCourse(w, before);
      StepKeepsCourse(Run(w, before), labels[|labels| - 1]);
    }
  }

  lemma IdleIsOnCourse(w: World)
    requires LockFree(w) && forall id | id in w.db.effects :: w.db.effects[id].phase != Intent
    ensures OnCourse(w)
  {}

  /** From any reachable world at rest in which no effect's outcome is unknown, and whatever
      clients do in between: as long as nothing disturbs a tick, no worker fails, and every
      operation completed is committed, or restored if that was its direction; none is
      quarantined. */
  lemma UndisturbedTicksSucceed(w: World, before: seq<Label>, labels: seq<Label>)
    requires Initial(w) && NoForeign(before) && LockFree(Run(w, before))
    requires forall id | id in Run(w, before).db.effects :: Run(w, before).db.effects[id].phase != Intent
    requires SmoothRun(Run(w, before), labels)
    ensures var v := Run(w, before);
            var w' := Run(v, labels);
            && (forall c | c in w'.history.completions :: c in v.history.completions || Straight(c))
            && (forall p | p in w'.workers :: !w'.workers[p].at.Failing? && !w'.workers[p].at.Quarantining? && !w'.workers[p].second)
  {
    hide Initial, Run, SmoothRun, LockFree, Straight, OnCourse, Safe, Faithful, Accounted, WorkerFine, Keeps;
    ReachableSafe(w, before);
    var v := Run(w, before);
    IdleIsOnCourse(v);
    RunKeepsCourse(v, labels);
    NobodyFails(v, Run(v, labels));
  }

  lemma NobodyFails(v: World, w: World)
    requires Keeps(v, w)
    ensures forall c | c in w.history.completions :: c in v.history.completions || Straight(c)
    ensures forall p | p in w.workers :: !w.workers[p].at.Failing? && !w.workers[p].at.Quarantining? && !w.workers[p].second
  {
    hide Straight;
    forall p | p in w.workers
      ensures !w.workers[p].at.Failing? && !w.workers[p].at.Quarantining? && !w.workers[p].second
    {
      assert WorkerFine(w, w.workers[p]);
    }
  }
}
