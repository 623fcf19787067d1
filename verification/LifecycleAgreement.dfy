/**
 Agreement between the authority and the resources it manages, over runs without a
 foreign writer.
 */
module LifecycleAgreement {
  import opened Schema
  import opened LifecycleModel
  import opened LifecycleMachine
  import opened LifecycleInvariants

  ghost predicate RecordedOk(w: World, id: InstanceId)
    requires id in w.db.instances
  {
    var i := w.db.instances[id];
    i.state.Idle? ==> i.observation.Some? && Reads(KindOf(i), i.observation.value, Actual(w, id, KindOf(i)))
  }

  /** Until its operation has acted on it, the simulated resource is at the baseline. */
  ghost predicate SimTracked(w: World, id: InstanceId)
    requires id in w.db.instances
  {
    var i := w.db.instances[id];
    KindOf(i) == Simulation ==>
      && SimOf(w.sim, id).fence <= i.fence
      && (i.operation.Some? && i.operation.value in w.db.operations && SimOf(w.sim, id).operation != i.operation ==>
            SimOf(w.sim, id).observation == w.db.operations[i.operation.value].baseline)
  }

  /** So is the daemon, and afterwards it is what the journal says, as long as no
      command is unaccounted for. */
  ghost predicate DaemonTracked(w: World, id: InstanceId)
    requires id in w.db.instances
  {
    var i := w.db.instances[id];
    KindOf(i) == Production && i.operation.Some? && i.operation.value in w.db.operations ==>
      if id in w.db.effects && Some(w.db.effects[id].op) == i.operation then
        w.db.effects[id].phase != Intent ==>
          w.db.effects[id].observation.Some? && SameRuntime(DaemonOf(w, id), w.db.effects[id].observation.value)
      else
        SameRuntime(DaemonOf(w, id), w.db.operations[i.operation.value].baseline)
  }

  /** Only an operation that has left the queue can have touched the resource. */
  ghost predicate SimLeftBy(w: World, id: InstanceId)
    requires id in w.sim
  {
    && id in w.db.instances
    && (w.sim[id].operation.Some? ==>
          w.sim[id].operation.value in w.db.operations && w.db.operations[w.sim[id].operation.value].phase != Queued)
  }

  ghost predicate WorkerTrue(w: World, k: Worker) {
    && (k.at.Checked? ==>
          Reads(k.op.policy.content.backend, k.at.result, Actual(w, k.op.instance, k.op.policy.content.backend)))
    && (k.at.Calling? && !k.restore ==> SimOf(w.sim, k.op.instance).operation != Some(k.op.id))
  }

  /** A worker that claims nothing about the resource. */
  ghost predicate Unhurried(k: Worker) { !k.at.Checked? && (k.at.Calling? ==> k.restore) }

  ghost predicate ExecutorTrue(w: World, x: Executor) {
    && (x.at.Inspected? ==>
          || SameRuntime(x.at.before, DaemonOf(w, x.at.claim.lease.instance))
          || (x.at.claim.lease.instance in w.db.effects && w.db.effects[x.at.claim.lease.instance].phase == Intent))
    && (x.at.Reinspected? || x.at.Confirmed? ==> SameRuntime(x.at.seen, DaemonOf(w, x.at.claim.lease.instance)))
  }

  ghost predicate CompletionTrue(c: Completion) {
    c.phase != Quarantined ==>
      && c.observation.Some?
      && Reads(c.op.policy.content.backend, c.observation.value, c.actual)
      && (c.phase == Committed ==> c.actual.state == c.op.desired)
      && (c.phase == RolledBack ==> c.actual.state == c.op.baseline.state)
  }

  ghost predicate RowTrue(w: World, id: InstanceId)
    requires id in w.db.instances
  {
    RecordedOk(w, id) && SimTracked(w, id) && DaemonTracked(w, id)
  }

  ghost predicate Faithful(w: World) {
    && (forall id | id in w.db.instances :: RowTrue(w, id))
    && (forall id | id in w.sim :: SimLeftBy(w, id))
    && (forall p | p in w.workers :: WorkerTrue(w, w.workers[p]))
    && (forall e | e in w.executors :: ExecutorTrue(w, w.executors[e]))
    && (forall c | c in w.history.completions :: CompletionTrue(c))
  }

  // ------------------------------------------------------------------ admission

  lemma ClientKeepsFaithful(w: World, l: Label)
    requires Safe(w) && Faithful(w) && l.Client?
    ensures Faithful(ClientStep(w, l))
  {
    hide Faithful, Journaling, Exclusive, Processes, RowTrue, SimLeftBy, WorkerTrue, ExecutorTrue, CompletionTrue,
      KindOf, Access, CreateTx, MutateTx, Record, OperationOk, InstanceOk, WorkerOk;
    var w' := ClientStep(w, l);
    if ValidHost(l.host) && l.uuid !in w.db.operations && w'.db != w.db {
      var id := l.req.instance;
      var probe := ProbeFor(w, l);
      var mid := After(AdmitTx(w.db, l.uid, l.req, l.host, probe), w.db);
      AdmitKeeps(w.db, l.uid, l.req, l.host, probe);
      assert w'.db == mid.(events := w'.db.events);
      SameTables(mid, w'.db);
      GroundedKeepsFaithful(w, w', id, probe.inspected);
    } else {
      IdleClient(w, l);
    }
  }

  lemma IdleClient(w: World, l: Label)
    requires l.Client? && !(ValidHost(l.host) && l.uuid !in w.db.operations && ClientStep(w, l).db != w.db)
    ensures ClientStep(w, l) == w
  {
    hide Dispatch;
    assert w.history.already + [] == w.history.already;
  }

  lemma AddressedRow(w: World, w': World, id: InstanceId, inspected: Option<Obs>)
    requires Coupling(w.db) && Coupling(w'.db) && Grounded(w.db, w'.db, id, inspected) && Undisturbed(w.db, w'.db)
    requires id in w.db.effects ==> EffectOk(w.db, id)
    requires id in w.db.instances && RowTrue(w, id)
    requires inspected.Some? ==> inspected.value == Actual(w, id, KindOf(w.db.instances[id]))
    requires w'.sim == w.sim && w'.daemon == w.daemon
    ensures RowTrue(w', id)
  {
    assert InstanceOk(w.db, id);
  }

  lemma RowKeepsFaithful(w: World, w': World, id: InstanceId, inspected: Option<Obs>, j: InstanceId)
    requires Coupling(w.db) && Coupling(w'.db) && Grounded(w.db, w'.db, id, inspected) && Undisturbed(w.db, w'.db)
    requires j in w.db.effects ==> EffectOk(w.db, j)
    requires j in w.db.instances && RowTrue(w, j)
    requires inspected.Some? ==> id in w.db.instances && inspected.value == Actual(w, id, KindOf(w.db.instances[id]))
    requires w'.sim == w.sim && w'.daemon == w.daemon
    ensures RowTrue(w', j)
  {
    assert InstanceOk(w.db, j);
    if j == id { AddressedRow(w, w', id, inspected); }
  }

  lemma SameProcesses(w: World, w': World)
    requires Faithful(w) && w'.sim == w.sim && w'.daemon == w.daemon && w'.workers == w.workers && w'.executors == w.executors
    requires w'.db.effects == w.db.effects
    ensures (forall p | p in w'.workers :: WorkerTrue(w', w'.workers[p])) && (forall e | e in w'.executors :: ExecutorTrue(w', w'.executors[e]))
  {
    forall p | p in w'.workers
      ensures WorkerTrue(w', w'.workers[p])
    {
      assert WorkerTrue(w, w.workers[p]);
    }
    forall e | e in w'.executors
      ensures ExecutorTrue(w', w'.executors[e])
    {
      assert ExecutorTrue(w, w.executors[e]);
    }
  }

  lemma GroundedKeepsFaithful(w: World, w': World, id: InstanceId, inspected: Option<Obs>)
    requires Coupling(w.db) && Coupling(w'.db) && Journaling(w.db) && Faithful(w)
    requires Grounded(w.db, w'.db, id, inspected) && Undisturbed(w.db, w'.db)
    requires inspected.Some? ==>
      id in w.db.instances && inspected.value == Actual(w, id, KindOf(w.db.instances[id]))
    requires w'.sim == w.sim && w'.daemon == w.daemon && w'.workers == w.workers && w'.executors == w.executors
    requires w'.history.completions == w.history.completions
    ensures Faithful(w')
  {
    hide WorkerTrue, ExecutorTrue, InstanceOk, OperationOk, LeaseOk, EffectOk;
    forall j | j in w'.db.instances
      ensures RowTrue(w', j)
    {
      if j in w.db.instances { RowKeepsFaithful(w, w', id, inspected, j); } else { assert InstanceOk(w'.db, j); }
    }
    SimLeftStays(w, w');
    SameProcesses(w, w');
  }

  // ------------------------------------------------------------- worker steps

  /** Idle rows, observations and baselines stay; only fences and phases move. */
  ghost predicate Steady(db: Db, db': Db) {
    && db'.effects == db.effects && db'.instances.Keys == db.instances.Keys
    && (forall id | id in db.instances ::
         && db'.instances[id].policy == db.instances[id].policy
         && db'.instances[id].operation == db.instances[id].operation
         && db'.instances[id].observation == db.instances[id].observation
         && (db'.instances[id].state.Idle? ==> db.instances[id].state.Idle?)
         && db'.instances[id].fence >= db.instances[id].fence)
    && (forall o | o in db.operations ::
         && o in db'.operations && db'.operations[o].baseline == db.operations[o].baseline
         && (db'.operations[o].phase == Queued ==> db.operations[o].phase == Queued))
  }

  lemma SteadyKeepsFaithful(w: World, w': World)
    requires Safe(w) && Faithful(w) && Steady(w.db, w'.db)
    requires w'.sim == w.sim && w'.daemon == w.daemon
    requires forall p | p in w'.workers :: WorkerTrue(w', w'.workers[p])
    requires forall e | e in w'.executors :: ExecutorTrue(w', w'.executors[e])
    requires forall c | c in w'.history.completions :: CompletionTrue(c)
    ensures Faithful(w')
  {
    forall j | j in w'.db.instances
      ensures RowTrue(w', j)
    {
      assert RowTrue(w, j) && InstanceOk(w.db, j);
    }
    SimLeftStays(w, w');
  }

  /** Executors rely only on the daemon and the journal. */
  lemma ExecutorsStayTrue(w: World, w': World)
    requires Faithful(w) && w'.daemon == w.daemon && w'.db.effects == w.db.effects
    requires forall e | e in w'.executors :: e in w.executors && w'.executors[e] == w.executors[e]
    ensures forall e | e in w'.executors :: ExecutorTrue(w', w'.executors[e])
  {
    forall e | e in w'.executors
      ensures ExecutorTrue(w', w'.executors[e])
    {
      assert ExecutorTrue(w, w.executors[e]);
    }
  }

  lemma ReserveSteady(db: Db, o: OpId, enabled: bool)
    requires Coupling(db) && o in db.operations && ReserveTx(db, o, enabled).Done?
    ensures Steady(db, ReserveTx(db, o, enabled).docs)
  {
    assert OperationOk(db, o);
  }

  lemma TickOnKeepsFaithful(w: World, pid: Pid, o: OpId, enabled: bool)
    requires Safe(w) && Faithful(w) && LockFree(w) && Pending(w.db, o)
    ensures Faithful(TickOn(w, pid, o, enabled))
  {
    hide RowTrue, Journaling, InstanceOk, WorkerOk, ExecutorOk, Reads, Actual, Exclusive, Processes, ExecutorTrue,
      CompletionTrue;
    var w' := TickOn(w, pid, o, enabled);
    ReserveKeepsCoupling(w.db, o, enabled);
    ReserveSteady(w.db, o, enabled);
    assert w'.executors == map[] && w'.workers.Keys == {pid};
    SteadyKeepsFaithful(w, w');
  }

  lemma TickKeepsFaithful(w: World, pid: Pid, enabled: bool)
    requires Safe(w) && Faithful(w)
    ensures Faithful(TickStep(w, pid, enabled))
  {
    if LockFree(w) && exists o :: FirstPending(w.db, o) {
      var o :| FirstPending(w.db, o) && TickStep(w, pid, enabled) == TickOn(w, pid, o, enabled);
      TickOnKeepsFaithful(w, pid, o, enabled);
    }
  }

  /** The worker steps that leave the resources and the recorded rows alone. */
  lemma QuietWorkerKeepsFaithful(w: World, w': World, pid: Pid)
    requires Safe(w) && Faithful(w) && Steady(w.db, w'.db) && w'.sim == w.sim && w'.daemon == w.daemon
    requires forall p | p in w'.workers :: p == pid || (p in w.workers && w'.workers[p] == w.workers[p])
    requires pid in w'.workers ==> Unhurried(w'.workers[pid])
    requires forall e | e in w'.executors :: e in w.executors && w'.executors[e] == w.executors[e]
    requires w'.history.completions == w.history.completions
    ensures Faithful(w')
  {
    hide RowTrue, Coupling, Journaling;
    forall p | p in w'.workers
      ensures WorkerTrue(w', w'.workers[p])
    {
      if p != pid { assert WorkerTrue(w, w.workers[p]); }
    }
    ExecutorsStayTrue(w, w');
    SteadyKeepsFaithful(w, w');
  }

  /** The simulation changes only the worker's own, busy, resource. */
  lemma SimulationRows(w: World, op: Operation, restore: bool)
    requires Coupling(w.db) && Holds(w.db, op) && Faithful(w)
    requires SimChangeTx(w.sim, op.instance, op, restore).Done? && op.policy.content.backend == Simulation
    ensures var w' := w.(sim := SimChangeTx(w.sim, op.instance, op, restore).docs);
            forall j | j in w.db.instances :: RowTrue(w', j)
  {
    hide OperationOk, SimLeftBy, WorkerTrue;
    var w' := w.(sim := SimChangeTx(w.sim, op.instance, op, restore).docs);
    assert OperationOk(w.db, op.id);
    forall j | j in w'.db.instances
      ensures RowTrue(w', j)
    {
      assert RowTrue(w, j) && InstanceOk(w.db, j);
    }
  }

  /** A row's truth depends on the store and the resources only. */
  lemma SameResourcesSameRow(w: World, w': World, j: InstanceId)
    requires w'.db == w.db && w'.sim == w.sim && w'.daemon == w.daemon && j in w.db.instances && RowTrue(w, j)
    ensures RowTrue(w', j)
  {}

  lemma SimulatedKeepsFaithful(w: World, w': World, pid: Pid, op: Operation, restore: bool)
    requires Coupling(w.db) && Faithful(w) && Holds(w.db, op) && op.phase != Queued
    requires SimChangeTx(w.sim, op.instance, op, restore).Done? && op.policy.content.backend == Simulation
    requires w'.sim == SimChangeTx(w.sim, op.instance, op, restore).docs && w'.db == w.db && w'.daemon == w.daemon
    requires w'.executors == map[] && w'.history == w.history
    requires forall p | p in w'.workers :: WorkerTrue(w', w'.workers[p])
    ensures Faithful(w')
  {
    hide Coupling, RowTrue;
    var mid := w.(sim := w'.sim);
    SimulationRows(w, op, restore);
    forall j | j in w'.db.instances
      ensures RowTrue(w', j)
    {
      SameResourcesSameRow(mid, w', j);
    }
    forall j | j in w'.sim
      ensures SimLeftBy(w', j)
    {
      if j != op.instance { assert SimLeftBy(w, j); }
    }
  }

  lemma CalledKeepsFaithful(w: World, pid: Pid, fault: bool)
    requires Safe(w) && Faithful(w) && pid in w.workers && w.workers[pid].at.Calling? && w.workers[pid].op.fence.Some?
    requires w.workers[pid].op.policy.content.backend == Simulation
    ensures Faithful(CallSimulationStep(w, pid, fault))
  {
    hide Faithful, Coupling, Journaling, WorkerLease, Proven, Target, SimOf, Reads, Actual, ExecutorOk, SimTracked,
      DaemonTracked, SameRuntime, DaemonOf, SimChangeTx, Holds, HasNonce;
    var w', k := CallSimulationStep(w, pid, fault), w.workers[pid];
    Alone(w, pid);
    assert WorkerOk(w.db, k);
    if SimChangeTx(w.sim, k.op.instance, k.op, k.restore).Done? {
      assert w'.workers.Keys == {pid} && WorkerTrue(w', w'.workers[pid]);
      SimulatedKeepsFaithful(w, w', pid, k.op, k.restore);
    } else {
      QuietWorkerKeepsFaithful(w, w', pid);
    }
  }

  lemma CallSimulationKeepsFaithful(w: World, pid: Pid, fault: bool)
    requires Safe(w) && Faithful(w)
    ensures Faithful(CallSimulationStep(w, pid, fault))
  {
    hide Safe, Faithful, SimChangeTx;
    if pid in w.workers && w.workers[pid].at.Calling? && w.workers[pid].op.fence.Some?
       && w.workers[pid].op.policy.content.backend == Simulation {
      CalledKeepsFaithful(w, pid, fault);
    }
  }

  /** Putting a lone worker elsewhere touches neither rows nor resources. */
  lemma PutKeepsFaithful(w: World, pid: Pid, k: Worker)
    requires Faithful(w) && w.executors == map[] && w.workers.Keys == {pid} && WorkerTrue(w, k)
    ensures Faithful(Put(w, pid, k))
  {
    var w' := Put(w, pid, k);
    forall j | j in w'.db.instances
      ensures RowTrue(w', j)
    {
      assert RowTrue(w, j);
    }
    assert w'.workers.Keys == {pid} && WorkerTrue(w', k);
  }

  lemma CheckResultKeepsFaithful(w: World, pid: Pid)
    requires Safe(w) && Faithful(w)
    ensures Faithful(CheckResultStep(w, pid))
  {
    hide Matches, KindOf, Holds, HasNonce, WorkerLease, Proven, Current, ClaimOk, RecordOk, WroteSettled, RuntimeIn,
      Journaling, Exclusive, Processes, RowTrue, SimLeftBy;
    var w' := CheckResultStep(w, pid);
    if w' != w {
      Alone(w, pid);
      var k := w'.workers[pid];
      assert w' == Put(w, pid, k);
      PutKeepsFaithful(w, pid, k);
    }
  }

  lemma FinishRow(w: World, w': World, op: Operation, observation: Obs, phase: Phase, j: InstanceId)
    requires Coupling(w.db) && Holds(w.db, op) && phase != Quarantined && j in w.db.instances && RowTrue(w, j)
    requires Reads(op.policy.content.backend, observation, Actual(w, op.instance, op.policy.content.backend))
    requires w'.db == FinishTx(w.db, op, Some(observation), phase).docs && w'.sim == w.sim && w'.daemon == w.daemon
    ensures j in w'.db.instances && RowTrue(w', j)
  {
    assert OperationOk(w.db, op.id) && InstanceOk(w.db, j);
  }

  lemma FinishRows(w: World, w': World, op: Operation, observation: Obs, phase: Phase)
    requires Coupling(w.db) && Holds(w.db, op) && op.phase in {Applying, RollingBack} && Faithful(w)
    requires phase in {Committed, RolledBack}
    requires Reads(op.policy.content.backend, observation, Actual(w, op.instance, op.policy.content.backend))
    requires w'.db == FinishTx(w.db, op, Some(observation), phase).docs && w'.sim == w.sim && w'.daemon == w.daemon
    ensures forall j | j in w'.db.instances :: RowTrue(w', j)
    ensures w'.db.instances.Keys == w.db.instances.Keys
    ensures forall o | o in w.db.operations ::
      && o in w'.db.operations && (w'.db.operations[o].phase == Queued ==> w.db.operations[o].phase == Queued)
  {
    hide ExecutorTrue, CompletionTrue, SameRuntime, DaemonOf, SimOf, RecordedOk, SimTracked, DaemonTracked, Live,
      Matches, RuntimeIn, KindOf, Coupling, Holds, InstanceOk, SimLeftBy, WorkerTrue;
    FinishKeepsCoupling(w.db, op, Some(observation), phase);
    forall j | j in w'.db.instances
      ensures RowTrue(w', j)
    {
      FinishRow(w, w', op, observation, phase, j);
    }
  }

  lemma FinishedKeepsFaithful(w: World, w': World, op: Operation, result: Obs, phase: Phase)
    requires Coupling(w.db) && Holds(w.db, op) && op.phase in {Applying, RollingBack} && Faithful(w)
    requires phase in {Committed, RolledBack} && result.state == Target(op, phase == RolledBack)
    requires var kind := op.policy.content.backend; Reads(kind, result, Actual(w, op.instance, kind))
    requires w'.db == FinishTx(w.db, op, Some(result), phase).docs && w'.sim == w.sim && w'.daemon == w.daemon
    requires w'.workers == map[] && w'.executors == map[]
    requires w'.history.completions == w.history.completions +
      [Completion(op, phase, Some(result), Actual(w, op.instance, op.policy.content.backend))]
    ensures Faithful(w')
  {
    hide RowTrue, Coupling, FinishTx;
    FinishRows(w, w', op, result, phase);
    SimLeftStays(w, w');
  }

  /** A completed operation leaves the recorded observation equal to the resource. */
  lemma FinishKeepsFaithful(w: World, pid: Pid, busy: bool)
    requires Safe(w) && Faithful(w)
    ensures Faithful(FinishStep(w, pid, busy))
  {
    hide RowTrue, SimLeftBy, Coupling, Holds, HasNonce, WorkerLease, Proven, Target, Reads, Actual, SimOf, LeaseOk,
      EffectOk, ExecutorOk, SameRuntime, DaemonOf, KindOf, Live, Matches, Current, ClaimOk, RecordOk, WroteSettled,
      RuntimeIn;
    if pid in w.workers && w.workers[pid].at.Checked? {
      var k := w.workers[pid];
      Alone(w, pid);
      assert WorkerOk(w.db, k) && WorkerTrue(w, k);
      if busy {
        PutKeepsFaithful(w, pid, Failed(k));
      } else {
        var phase := if k.restore then RolledBack else Committed;
        FinishKeepsCoupling(w.db, k.op, Some(k.at.result), phase);
        assert Gone(w, pid).workers == map[];
        FinishedKeepsFaithful(w, FinishStep(w, pid, busy), k.op, k.at.result, phase);
      }
    }
  }

  lemma CompensateKeepsFaithful(w: World, pid: Pid, busy: bool)
    requires Safe(w) && Faithful(w)
    ensures Faithful(CompensateStep(w, pid, busy))
  {
    hide Faithful, Coupling, Journaling, WorkerLease, Proven, Target, ExecutorOk, RecordedOk, SimTracked,
      DaemonTracked, Reads, Actual, SimOf, SameRuntime, DaemonOf, Live, Matches, KindOf, Current, ClaimOk, RecordOk,
      WroteSettled, RuntimeIn;
    var w' := CompensateStep(w, pid, busy);
    if w' != w {
      assert WorkerOk(w.db, w.workers[pid]);
      QuietWorkerKeepsFaithful(w, w', pid);
    }
  }

  lemma QuarantineKeepsFaithful(w: World, pid: Pid, busy: bool)
    requires Safe(w) && Faithful(w)
    ensures Faithful(QuarantineStep(w, pid, busy))
  {
    hide RowTrue, SimLeftBy, Coupling, Journaling, SameRuntime, DaemonOf, KindOf, Live, Matches, Current, ClaimOk,
      RecordOk, WroteSettled, RuntimeIn;
    var w' := QuarantineStep(w, pid, busy);
    if w' != w {
      assert WorkerOk(w.db, w.workers[pid]);
      forall p | p in w'.workers
        ensures false
      {}
      ExecutorsStayTrue(w, w');
      SteadyKeepsFaithful(w, w');
    }
  }

  lemma SpawnKeepsFaithful(w: World, pid: Pid, child: Pid)
    requires Safe(w) && Faithful(w)
    ensures Faithful(SpawnStep(w, pid, child))
  {
    hide RowTrue, SimLeftBy, Coupling, Journaling, Reads, Actual, SimOf, SameRuntime, DaemonOf, KindOf, Live, Matches,
      Target, Holds, HasNonce, WorkerLease, Proven, Current, ClaimOk, RecordOk, WroteSettled, RuntimeIn, RecordedOk,
      SimTracked, DaemonTracked, OperationOk, InstanceOk, LeaseOk, EffectOk, WorkerOk, ExecutorOk;
    var w' := SpawnStep(w, pid, child);
    if w' != w {
      Alone(w, pid);
      assert w'.workers.Keys == {pid} && w'.executors.Keys == {child};
      SteadyKeepsFaithful(w, w');
    }
  }

  lemma MintKeepsFaithful(w: World, pid: Pid, enabled: bool, bound: bool, nonce: Nonce, binding: nat)
    requires Safe(w) && Faithful(w)
    ensures Faithful(MintStep(w, pid, enabled, bound, nonce, binding))
  {
    hide Safe, Faithful, DaemonTracked, Reads, Actual, SimOf, SameRuntime, DaemonOf, Owned, PutOnce, Live, Matches,
      KindOf, Target, Holds, HasNonce, WorkerLease, Proven, Current, ClaimOk, RecordOk, WroteSettled, RuntimeIn;
    var w' := MintStep(w, pid, enabled, bound, nonce, binding);
    if w' != w { QuietWorkerKeepsFaithful(w, w', pid); }
  }

  lemma ParentTimeoutKeepsFaithful(w: World, pid: Pid)
    requires Safe(w) && Faithful(w)
    ensures Faithful(ParentTimeoutStep(w, pid))
  {
    hide SimTracked, DaemonTracked, Reads, Actual, SimOf, SameRuntime, DaemonOf, Live, Matches, KindOf, Target, Holds,
      HasNonce, WorkerLease, Proven, Current, ClaimOk, RecordOk, WroteSettled, RuntimeIn, LeaseOk, EffectOk, WorkerOk,
      ExecutorOk, RecordedOk, Safe, Faithful;
    var w' := ParentTimeoutStep(w, pid);
    if w' != w { QuietWorkerKeepsFaithful(w, w', pid); }
  }

  lemma ReadBackKeepsFaithful(w: World, pid: Pid)
    requires Safe(w) && Faithful(w)
    ensures Faithful(ReadBackStep(w, pid))
  {
    hide RecordedOk, SimTracked, DaemonTracked, Reads, Actual, SimOf, SameRuntime, DaemonOf, Owned, Live, Matches,
      KindOf, Target, Holds, HasNonce, WorkerLease, Proven, Current, ClaimOk, RecordOk, WroteSettled, RuntimeIn,
      Exclusive, Processes, RowTrue, SimLeftBy, WorkerTrue, Safe, Faithful;
    var w' := ReadBackStep(w, pid);
    if w' != w { QuietWorkerKeepsFaithful(w, w', pid); }
  }

  lemma FailKeepsFaithful(w: World, pid: Pid)
    requires Safe(w) && Faithful(w)
    ensures Faithful(FailStep(w, pid))
  {
    hide RecordedOk, SimTracked, DaemonTracked, Reads, Actual, SimOf, SameRuntime, DaemonOf, Live, Matches, KindOf,
      Target, Holds, HasNonce, WorkerLease, Proven, Current, ClaimOk, RecordOk, WroteSettled, RuntimeIn, Exclusive,
      Processes, RowTrue, SimLeftBy, WorkerTrue, Safe, Faithful;
    var w' := FailStep(w, pid);
    if w' != w { QuietWorkerKeepsFaithful(w, w', pid); }
  }

  lemma WorkerStepKeepsFaithful(w: World, pid: Pid, work: WorkerAct)
    requires Safe(w) && Faithful(w)
    ensures Faithful(WorkerStep(w, pid, work))
  {
    hide SimTracked, DaemonTracked, Reads, Actual, SimOf, SameRuntime, DaemonOf, SimChangeTx, Put, Failed, MintTx,
      ReadBackTx, Target, FinishTx, Completed, CompensateTx, Live, Matches, KindOf, Holds, HasNonce, WorkerLease,
      Proven, Current, ClaimOk, RecordOk, WroteSettled, RuntimeIn, Owned, PutOnce, SpawnStep, ParentTimeoutStep,
      ReadBackStep, FailStep, CheckResultStep, FinishStep, CompensateStep, QuarantineStep, OperationOk, InstanceOk,
      LeaseOk, EffectOk, WorkerOk, ExecutorOk, RecordedOk, Processes, RowTrue, SimLeftBy, WorkerTrue, ExecutorTrue,
      CompletionTrue, CallSimulationStep, MintStep, Safe, Faithful;
    match work
    case CallSimulation(fault) => CallSimulationKeepsFaithful(w, pid, fault);
    case MintLease(enabled, bound, nonce, binding) => MintKeepsFaithful(w, pid, enabled, bound, nonce, binding);
    case Spawn(child) => SpawnKeepsFaithful(w, pid, child);
    case ParentTimeout => ParentTimeoutKeepsFaithful(w, pid);
    case ReadBack => ReadBackKeepsFaithful(w, pid);
    case Fail => FailKeepsFaithful(w, pid);
    case CheckResult => CheckResultKeepsFaithful(w, pid);
    case Finish(busy) => FinishKeepsFaithful(w, pid, busy);
    case Compensate(busy) => CompensateKeepsFaithful(w, pid, busy);
    case Quarantine(busy) => QuarantineKeepsFaithful(w, pid, busy);
    case KillWorker => QuietWorkerKeepsFaithful(w, Gone(w, pid), pid);
  }

  // ----------------------------------------------------------- executor steps

  /** Only the row of the executor's own instance and the executor itself change. */
  ghost predicate OwnRow(w: World, w': World, id: InstanceId) {
    && w'.db.instances == w.db.instances && w'.db.operations == w.db.operations && w'.sim == w.sim
    && (forall j | j != id ::
         && (j in w'.db.effects <==> j in w.db.effects) && (j in w.db.effects ==> w'.db.effects[j] == w.db.effects[j])
         && DaemonOf(w', j) == DaemonOf(w, j))
  }

  lemma BusyRow(w: World, w': World, id: InstanceId)
    requires Coupling(w.db) && OwnRow(w, w', id) && id in w.db.instances && RowTrue(w, id)
    requires w.db.instances[id].operation.Some? && DaemonTracked(w', id)
    ensures RowTrue(w', id)
  {
    assert InstanceOk(w.db, id);
  }

  lemma ExecutorKeepsFaithful(w: World, w': World, e: Pid, id: InstanceId)
    requires Safe(w) && Faithful(w) && e in w.executors && w.executors[e].nonce in w.db.leases
    requires id == w.db.leases[w.executors[e].nonce].instance && OwnRow(w, w', id)
    requires id in w.db.instances ==> DaemonTracked(w', id)
    requires forall p | p in w'.workers :: Unhurried(w'.workers[p])
    requires forall f | f in w'.executors :: ExecutorTrue(w', w'.executors[f])
    requires w'.history.completions == w.history.completions
    ensures Faithful(w')
  {
    hide RowTrue, Coupling, Journaling;
    assert ExecutorOk(w.db, w.executors[e]);
    forall j | j in w'.db.instances
      ensures RowTrue(w', j)
    {
      if j != id { OtherRow(w, w', id, j); } else { BusyRow(w, w', id); }
    }
    SimLeftStays(w, w');
  }

  lemma OtherRow(w: World, w': World, id: InstanceId, j: InstanceId)
    requires OwnRow(w, w', id) && j != id && j in w.db.instances && RowTrue(w, j)
    ensures RowTrue(w', j)
  {}

  lemma SimLeftStays(w: World, w': World)
    requires Faithful(w) && w'.sim == w.sim
    requires forall id | id in w.db.instances :: id in w'.db.instances
    requires forall o | o in w.db.operations ::
      && o in w'.db.operations && (w'.db.operations[o].phase == Queued ==> w.db.operations[o].phase == Queued)
    ensures forall j | j in w'.sim :: SimLeftBy(w', j)
  {
    forall j | j in w'.sim
      ensures SimLeftBy(w', j)
    {
      assert SimLeftBy(w, j);
    }
  }

  /** The executor moves on; neither its record nor the daemon changes. */
  lemma ExecutorMovesKeepsFaithful(w: World, w': World, e: Pid)
    requires Safe(w) && Faithful(w) && e in w.executors && e in w'.executors && w'.workers == w.workers
    requires w'.db.instances == w.db.instances && w'.db.operations == w.db.operations && w'.db.effects == w.db.effects
    requires w'.sim == w.sim && w'.daemon == w.daemon
    requires w'.executors == w.executors[e := w'.executors[e]] && ExecutorTrue(w', w'.executors[e])
    requires w'.history.completions == w.history.completions
    ensures Faithful(w')
  {
    hide Coupling, Journaling, RuntimeIn, Live, Matches, KindOf, Target, Holds, HasNonce, WorkerLease, Proven,
      RecordOk, WroteSettled, RecordedOk, SimTracked;
    OneExecutor(w, e);
    assert ExecutorOk(w.db, w.executors[e]);
    var id := w.db.leases[w.executors[e].nonce].instance;
    assert RowTrue(w, id);
    ExecutorKeepsFaithful(w, w', e, id);
  }

  lemma ExitKeepsFaithful(w: World, e: Pid, ok: bool)
    requires Safe(w) && Faithful(w) && e in w.executors
    ensures Faithful(Exit(w, e, ok))
  {
    hide Coupling, Journaling, ExecutorTrue, CompletionTrue, OperationOk, InstanceOk, WroteSettled, SameRuntime,
      RecordedOk, SimTracked, Matches, KindOf, WorkerOk, Target;
    OneExecutor(w, e);
    assert ExecutorOk(w.db, w.executors[e]);
    var id := w.db.leases[w.executors[e].nonce].instance;
    assert RowTrue(w, id);
    assert Exit(w, e, ok).executors == map[];
    ExecutorKeepsFaithful(w, Exit(w, e, ok), e, id);
  }

  lemma ClaimKeepsFaithful(w: World, e: Pid, binding: nat, bound: bool, enabled: bool)
    requires Safe(w) && Faithful(w)
    ensures Faithful(ClaimStep(w, e, binding, bound, enabled))
  {
    hide Safe, Faithful;
    var w' := ClaimStep(w, e, binding, bound, enabled);
    if w' != w {
      if e in w'.executors { ExecutorMovesKeepsFaithful(w, w', e); } else { ExitKeepsFaithful(w, e, false); }
    }
  }

  lemma ArmKeepsFaithful(w: World, e: Pid)
    requires Safe(w) && Faithful(w)
    ensures Faithful(ArmStep(w, e))
  {
    hide Safe, Faithful;
    var w' := ArmStep(w, e);
    if w' != w {
      if e in w'.executors { ExecutorMovesKeepsFaithful(w, w', e); } else { ExitKeepsFaithful(w, e, false); }
    }
  }

  lemma InspectKeepsFaithful(w: World, e: Pid)
    requires Safe(w) && Faithful(w)
    ensures Faithful(InspectStep(w, e))
  {
    hide Safe, Faithful;
    var w' := InspectStep(w, e);
    if w' != w { ExecutorMovesKeepsFaithful(w, w', e); }
  }

  /** A settled record written without a command describes the daemon as inspected. */
  lemma JournalTracks(w: World, w': World, claim: Claim, before: Obs)
    requires JournalTx(w.db, claim, before, w.now).Done? && w'.db == JournalTx(w.db, claim, before, w.now).docs
    requires w'.daemon == w.daemon && w'.sim == w.sim
    requires claim.lease.instance in w.db.instances
    requires w.db.instances[claim.lease.instance].operation == Some(claim.op.id)
    requires || SameRuntime(before, DaemonOf(w, claim.lease.instance))
             || (claim.lease.instance in w.db.effects && w.db.effects[claim.lease.instance].phase == Intent)
    ensures OwnRow(w, w', claim.lease.instance) && DaemonTracked(w', claim.lease.instance)
  {}

  /** What the intent transaction leaves of the machine as it was. */
  lemma JournaledWorld(w: World, e: Pid)
    requires e in w.executors && w.executors[e].at.Inspected?
    requires JournalTx(w.db, w.executors[e].at.claim, w.executors[e].at.before, w.now).Done?
    ensures var w' := JournalStep(w, e);
            && w'.db == JournalTx(w.db, w.executors[e].at.claim, w.executors[e].at.before, w.now).docs
            && w'.sim == w.sim && w'.daemon == w.daemon && w'.workers == w.workers && e in w'.executors
            && w'.executors == w.executors[e := w'.executors[e]] && w'.history.completions == w.history.completions
            && (w'.executors[e].at.Confirming? || w'.executors[e].at.Journaled?)
  {
    hide JournalTx;
  }

  lemma JournaledKeepsFaithful(w: World, e: Pid)
    requires Safe(w) && Faithful(w) && e in w.executors && w.executors[e].at.Inspected?
    requires JournalTx(w.db, w.executors[e].at.claim, w.executors[e].at.before, w.now).Done?
    ensures Faithful(JournalStep(w, e))
  {
    hide Coupling, Journaling, RowTrue, SimLeftBy, JournalTx, DaemonTracked, OwnRow, JournalStep, Admissible, Target,
      Exit, PutE, OperationOk, InstanceOk, LeaseOk, EffectOk, RecordedOk, KindOf, SameRuntime;
    var w' := JournalStep(w, e);
    var x := w.executors[e];
    assert ExecutorOk(w.db, x) && ExecutorTrue(w, x);
    OneExecutor(w, e);
    JournaledWorld(w, e);
    JournalTracks(w, w', x.at.claim, x.at.before);
    ExecutorKeepsFaithful(w, w', e, x.at.claim.lease.instance);
  }

  lemma JournalKeepsFaithful(w: World, e: Pid)
    requires Safe(w) && Faithful(w)
    ensures Faithful(JournalStep(w, e))
  {
    if e in w.executors && w.executors[e].at.Inspected? {
      var x := w.executors[e];
      if JournalTx(w.db, x.at.claim, x.at.before, w.now).Done? {
        JournaledKeepsFaithful(w, e);
      } else {
        ExitKeepsFaithful(w, e, false);
      }
    }
  }

  lemma ClearKeepsFaithful(w: World, e: Pid)
    requires Safe(w) && Faithful(w)
    ensures Faithful(ClearStep(w, e))
  {
    hide Safe, Faithful, SimTracked, DaemonTracked, Reads, Actual, SimOf, SameRuntime, DaemonOf, Owned, Live, Matches,
      KindOf, Target, Holds, HasNonce, WorkerLease, Proven, Current, ClaimOk, RecordOk, WroteSettled, RuntimeIn;
    var w' := ClearStep(w, e);
    if w' != w {
      if e in w'.executors { ExecutorMovesKeepsFaithful(w, w', e); } else { ExitKeepsFaithful(w, e, false); }
    }
  }

  lemma StartCommandKeepsFaithful(w: World, e: Pid)
    requires Safe(w) && Faithful(w)
    ensures Faithful(StartCommandStep(w, e))
  {
    hide Safe, Faithful;
    var w' := StartCommandStep(w, e);
    if w' != w {
      if e in w'.executors { ExecutorMovesKeepsFaithful(w, w', e); } else { ExitKeepsFaithful(w, e, false); }
    }
  }

  /** The daemon changes only under an intent record of a busy instance. */
  lemma MutatingOwns(w: World, e: Pid)
    requires Safe(w) && e in w.executors && w.executors[e].at.Mutating?
    ensures var x := w.executors[e];
            && x.nonce in w.db.leases && w.db.leases[x.nonce].instance == x.at.claim.lease.instance
            && var id := x.at.claim.lease.instance;
               && id in w.db.effects && w.db.effects[id].phase == Intent
               && id in w.db.instances && w.db.instances[id].operation == Some(w.db.effects[id].op)
  {
    assert ExecutorOk(w.db, w.executors[e]);
  }

  lemma ReturnedKeepsFaithful(w: World, e: Pid, outcome: Obs)
    requires Safe(w) && Faithful(w) && e in w.executors && w.executors[e].at.Mutating? && w.now <= w.executors[e].at.deadline
    ensures Faithful(CommandReturnsStep(w, e, outcome))
  {
    hide Coupling, Journaling, WorkerOk, RowTrue, SimLeftBy, CompletionTrue, WroteSettled, Processes, WorkerTrue,
      RecordedOk, SimTracked;
    var w', x := CommandReturnsStep(w, e, outcome), w.executors[e];
    MutatingOwns(w, e);
    OneExecutor(w, e);
    ExecutorKeepsFaithful(w, w', e, x.at.claim.lease.instance);
  }

  lemma CommandReturnsKeepsFaithful(w: World, e: Pid, outcome: Obs)
    requires Safe(w) && Faithful(w)
    ensures Faithful(CommandReturnsStep(w, e, outcome))
  {
    hide Safe, Faithful;
    if e in w.executors && w.executors[e].at.Mutating? {
      if w.now <= w.executors[e].at.deadline { ReturnedKeepsFaithful(w, e, outcome); } else { ExitKeepsFaithful(w, e, false); }
    }
  }

  lemma ReinspectKeepsFaithful(w: World, e: Pid)
    requires Safe(w) && Faithful(w)
    ensures Faithful(ReinspectStep(w, e))
  {
    hide Safe, Faithful;
    var w' := ReinspectStep(w, e);
    if w' != w { ExecutorMovesKeepsFaithful(w, w', e); }
  }

  /** What an executor reports is what the daemon shows. */
  lemma ReportTracks(w: World, w': World, claim: Claim, record: Effect, seen: Obs, phase: EffectPhase)
    requires phase != Intent && record.op == claim.op.id
    requires ReportTx(w.db, claim, record, seen, phase).Done?
    requires w'.db == ReportTx(w.db, claim, record, seen, phase).docs && w'.daemon == w.daemon && w'.sim == w.sim
    requires claim.lease.instance in w.db.instances
    requires w.db.instances[claim.lease.instance].operation == Some(claim.op.id)
    requires SameRuntime(seen, DaemonOf(w, claim.lease.instance))
    ensures OwnRow(w, w', claim.lease.instance) && DaemonTracked(w', claim.lease.instance)
  {}

  lemma SettledKeepsFaithful(w: World, e: Pid)
    requires Safe(w) && Faithful(w) && e in w.executors && w.executors[e].at.Reinspected?
    requires ReportTx(w.db, w.executors[e].at.claim, w.executors[e].at.record, w.executors[e].at.seen, Settled).Done?
    ensures Faithful(SettleStep(w, e))
  {
    hide Coupling, Journaling, WorkerOk, RowTrue, SimLeftBy, ReportTx, WroteSettled, SameRuntime, DaemonOf, Reads,
      Actual, SimOf, Live, Matches, KindOf, RuntimeIn;
    var w' := SettleStep(w, e);
    var x := w.executors[e];
    assert ExecutorOk(w.db, x) && ExecutorTrue(w, x);
    OneExecutor(w, e);
    ReportTracks(w, w', x.at.claim, x.at.record, x.at.seen, Settled);
    assert ExecutorTrue(w', w'.executors[e]);
    ExecutorKeepsFaithful(w, w', e, x.at.claim.lease.instance);
  }

  lemma SettleKeepsFaithful(w: World, e: Pid)
    requires Safe(w) && Faithful(w)
    ensures Faithful(SettleStep(w, e))
  {
    if e in w.executors && w.executors[e].at.Reinspected? {
      var x := w.executors[e];
      if ReportTx(w.db, x.at.claim, x.at.record, x.at.seen, Settled).Done? {
        SettledKeepsFaithful(w, e);
      } else {
        ExitKeepsFaithful(w, e, false);
      }
    }
  }

  lemma ConfirmKeepsFaithful(w: World, e: Pid)
    requires Safe(w) && Faithful(w)
    ensures Faithful(ConfirmStep(w, e))
  {
    hide Safe, Faithful;
    var w' := ConfirmStep(w, e);
    if w' != w {
      if e in w'.executors { ExecutorMovesKeepsFaithful(w, w', e); } else { ExitKeepsFaithful(w, e, false); }
    }
  }

  lemma ReportedKeepsFaithful(w: World, e: Pid)
    requires Safe(w) && Faithful(w) && e in w.executors && w.executors[e].at.Confirmed?
    requires ReportTx(w.db, w.executors[e].at.claim, w.executors[e].at.record, w.executors[e].at.seen, Verified).Done?
    ensures Faithful(ReportStep(w, e))
  {
    hide Coupling, Journaling, WorkerOk, RowTrue, SimLeftBy, ReportTx, SameRuntime, DaemonOf, Reads, Actual, SimOf,
      Live, Matches, KindOf, RuntimeIn;
    var w' := ReportStep(w, e);
    var x := w.executors[e];
    assert ExecutorOk(w.db, x) && ExecutorTrue(w, x);
    OneExecutor(w, e);
    assert w'.executors == map[];
    ReportTracks(w, w', x.at.claim, x.at.record, x.at.seen, Verified);
    ExecutorKeepsFaithful(w, w', e, x.at.claim.lease.instance);
  }

  lemma ReportKeepsFaithful(w: World, e: Pid)
    requires Safe(w) && Faithful(w)
    ensures Faithful(ReportStep(w, e))
  {
    if e in w.executors && w.executors[e].at.Confirmed? {
      var x := w.executors[e];
      if ReportTx(w.db, x.at.claim, x.at.record, x.at.seen, Verified).Done? {
        ReportedKeepsFaithful(w, e);
      } else {
        ExitKeepsFaithful(w, e, false);
      }
    }
  }

  lemma ExecutorStepKeepsFaithful(w: World, e: Pid, act: ExecutorAct)
    requires Safe(w) && Faithful(w)
    ensures Faithful(ExecutorStep(w, e, act))
  {
    match act
    case ClaimLease(binding, bound, enabled) => ClaimKeepsFaithful(w, e, binding, bound, enabled);
    case Arm => ArmKeepsFaithful(w, e);
    case Inspect => InspectKeepsFaithful(w, e);
    case Journal => JournalKeepsFaithful(w, e);
    case Clear => ClearKeepsFaithful(w, e);
    case StartCommand => StartCommandKeepsFaithful(w, e);
    case CommandReturns(outcome) => CommandReturnsKeepsFaithful(w, e, outcome);
    case Reinspect => ReinspectKeepsFaithful(w, e);
    case Settle => SettleKeepsFaithful(w, e);
    case Confirm => ConfirmKeepsFaithful(w, e);
    case Report => ReportKeepsFaithful(w, e);
    case KillExecutor => if e in w.executors { ExitKeepsFaithful(w, e, false); }
  }

  // -------------------------------------------------------------- environment

  /** A late daemon effect can only hit an instance whose operation is unfinished. */
  lemma LateEffectRow(w: World, id: InstanceId, outcome: Obs, j: InstanceId)
    requires Coupling(w.db) && id in w.db.effects && w.db.effects[id].phase == Intent && EffectOk(w.db, id)
    requires j in w.db.instances && RowTrue(w, j)
    ensures RowTrue(w.(daemon := w.daemon[id := outcome]), j)
  {
    assert InstanceOk(w.db, j);
  }

  /** A checked production result means the journal is verified. */
  lemma CheckedIsElsewhere(w: World, k: Worker, id: InstanceId, outcome: Obs)
    requires WorkerOk(w.db, k) && WorkerTrue(w, k) && id in w.db.effects && w.db.effects[id].phase == Intent
    ensures WorkerTrue(w.(daemon := w.daemon[id := outcome]), k)
  {}

  lemma OutcomeKeepsFaithful(w: World, id: InstanceId, outcome: Obs)
    requires Safe(w) && Faithful(w) && id in w.db.effects && w.db.effects[id].phase == Intent
    requires forall e | e in w.executors :: MayStillRun(w.executors[e].at, id)
    ensures Faithful(w.(daemon := w.daemon[id := outcome]))
  {
    hide RowTrue, Coupling, WorkerOk, WorkerTrue, DaemonTracked, OperationOk, InstanceOk, Holds, HasNonce, LeaseOk,
      ExecutorOk, Live, Matches, Actual, SimOf, KindOf, SameRuntime;
    var w' := w.(daemon := w.daemon[id := outcome]);
    assert EffectOk(w.db, id);
    forall j | j in w'.db.instances
      ensures RowTrue(w', j)
    {
      LateEffectRow(w, id, outcome, j);
    }
    forall p | p in w'.workers
      ensures WorkerTrue(w', w'.workers[p])
    {
      CheckedIsElsewhere(w, w.workers[p], id, outcome);
    }
    forall e | e in w'.executors
      ensures ExecutorTrue(w', w'.executors[e])
    {
      assert ExecutorTrue(w, w.executors[e]);
    }
  }

  lemma LateEffectKeepsFaithful(w: World, id: InstanceId, outcome: Obs)
    requires Safe(w) && Faithful(w)
    ensures Faithful(LateEffectStep(w, id, outcome))
  {
    hide Safe, Faithful;
    if id in w.db.effects && w.db.effects[id].phase == Intent
       && forall e | e in w.executors :: MayStillRun(w.executors[e].at, id) {
      OutcomeKeepsFaithful(w, id, outcome);
    }
  }

  lemma FlapKeepsFaithful(w: World, id: InstanceId, healthy: bool)
    requires Faithful(w)
    ensures Faithful(FlapStep(w, id, healthy))
  {
    var w' := FlapStep(w, id, healthy);
    assert forall j :: SameRuntime(DaemonOf(w, j), DaemonOf(w', j));
    forall j | j in w'.db.instances
      ensures RowTrue(w', j)
    {
      assert RowTrue(w, j);
    }
    forall p | p in w'.workers
      ensures WorkerTrue(w', w'.workers[p])
    {
      assert WorkerTrue(w, w.workers[p]);
    }
    forall e | e in w'.executors
      ensures ExecutorTrue(w', w'.executors[e])
    {
      assert ExecutorTrue(w, w.executors[e]);
    }
  }

  lemma StepKeepsFaithful(w: World, l: Label)
    requires Safe(w) && Faithful(w) && !l.Foreign?
    ensures Faithful(Step(w, l))
  {
    hide CheckResultStep, FinishStep, CompensateStep, QuarantineStep, Gone, ClaimStep, ArmStep, InspectStep,
      JournalStep, ClearStep, StartCommandStep, CommandReturnsStep, ReinspectStep, SettleStep, ConfirmStep,
      ReportStep, KillExecutorStep, Unanswered, Live, Matches, KindOf, Target, Holds, HasNonce, WorkerLease, Proven,
      Current, ClaimOk, RecordOk, WroteSettled, RuntimeIn, Distinct, AdmitTx, Pending, ReserveTx, Put, SimChangeTx,
      Failed, MintTx, ReadBackTx, FinishTx, Completed, CompensateTx, ClaimTx, Exit, PutE, JournalTx, LaunchTx,
      ReportTx, EffectOk, WorkerOk, ExecutorOk, RecordedOk, SimTracked, DaemonTracked, Reads, Actual, SimOf,
      SameRuntime, DaemonOf, ValidHost, Dispatch, ProbeFor, Admits, AlreadyDone, LockFree, FirstPending, TickOn,
      CallSimulationStep, MintStep, SpawnStep, ParentTimeoutStep, ReadBackStep, FailStep, ClientStep, EnrollStep,
      TickStep, WorkerStep, ExecutorStep, LateEffectStep, FlapStep, AdvanceStep, ForeignStep, OperationOk, InstanceOk,
      LeaseOk, Processes, RowTrue, SimLeftBy, WorkerTrue, ExecutorTrue, CompletionTrue, Coupling, Journaling,
      Exclusive, Faithful;
    match l
    case Client(_, _, _, _, _, _, _, _, _) => ClientKeepsFaithful(w, l);
    case Enroll(id) => EnrollKeepsFaithful(w, id);
    case Tick(pid, enabled) => TickKeepsFaithful(w, pid, enabled);
    case ByWorker(pid, work) => WorkerStepKeepsFaithful(w, pid, work);
    case ByExecutor(e, act) => ExecutorStepKeepsFaithful(w, e, act);
    case LateEffect(id, outcome) => LateEffectKeepsFaithful(w, id, outcome);
    case Flap(id, healthy) => FlapKeepsFaithful(w, id, healthy);
    case Advance(delta) => AdvanceKeepsFaithful(w, delta);
  }

  lemma EnrollKeepsFaithful(w: World, id: InstanceId)
    requires Safe(w) && Faithful(w)
    ensures Faithful(EnrollStep(w, id))
  {
    hide Faithful, Journaling, Coupling, Reads, Actual, SimOf, SameRuntime, DaemonOf, KindOf, Target, Live, Matches,
      Holds, HasNonce, WorkerLease, Proven, Current, ClaimOk, RecordOk, WroteSettled, RuntimeIn, LeaseOk, EffectOk,
      OperationOk, InstanceOk, WorkerOk, ExecutorOk, RecordedOk, SimTracked, DaemonTracked, Exclusive, Processes;
    SameTables(w.db, EnrollStep(w, id).db);
    GroundedKeepsFaithful(w, EnrollStep(w, id), id, None);
  }

  lemma AdvanceRows(w: World, w': World)
    requires Faithful(w) && w' == w.(now := w'.now)
    ensures (forall j | j in w'.db.instances :: RowTrue(w', j)) && (forall j | j in w'.sim :: SimLeftBy(w', j))
  {
    hide RowTrue;
    forall j | j in w'.db.instances
      ensures RowTrue(w', j)
    {
      SameResourcesSameRow(w, w', j);
    }
    forall j | j in w'.sim
      ensures SimLeftBy(w', j)
    {
      assert SimLeftBy(w, j);
    }
  }

  lemma AdvanceProcesses(w: World, w': World)
    requires Faithful(w) && w' == w.(now := w'.now)
    ensures (forall p | p in w'.workers :: WorkerTrue(w', w'.workers[p])) && (forall e | e in w'.executors :: ExecutorTrue(w', w'.executors[e]))
  {
    hide RowTrue, SimLeftBy;
    forall p | p in w'.workers
      ensures WorkerTrue(w', w'.workers[p])
    {
      assert WorkerTrue(w, w.workers[p]);
    }
    forall e | e in w'.executors
      ensures ExecutorTrue(w', w'.executors[e])
    {
      assert ExecutorTrue(w, w.executors[e]);
    }
  }

  lemma AdvanceKeepsFaithful(w: World, delta: real)
    requires Faithful(w)
    ensures Faithful(AdvanceStep(w, delta))
  {
    var w' := AdvanceStep(w, delta);
    AdvanceRows(w, w');
    AdvanceProcesses(w, w');
    hide RowTrue, SimLeftBy, WorkerTrue, ExecutorTrue;
  }

  lemma {:induction false} RunKeepsFaithful(w: World, labels: seq<Label>)
    requires Safe(w) && Faithful(w) && NoForeign(labels)
    ensures Faithful(Run(w, labels))
    decreases |labels|
  {
    hide Holds, HasNonce, WorkerLease, Proven, Current, ClaimOk, RecordOk, WroteSettled, RuntimeIn, ValidHost,
      Dispatch, ProbeFor, Admits, AlreadyDone, LockFree, FirstPending, TickOn, CallSimulationStep, MintStep,
      SpawnStep, ParentTimeoutStep, ReadBackStep, FailStep, CheckResultStep, FinishStep, CompensateStep,
      QuarantineStep, Gone, ClaimStep, ArmStep, InspectStep, JournalStep, ClearStep, StartCommandStep,
      CommandReturnsStep, ReinspectStep, SettleStep, ConfirmStep, ReportStep, KillExecutorStep, Unanswered,
      RecordedOk, SimTracked, DaemonTracked, Reads, Actual, SimOf, SameRuntime, DaemonOf, ClientStep, EnrollStep,
      TickStep, WorkerStep, ExecutorStep, LateEffectStep, FlapStep, AdvanceStep, ForeignStep, Live, Matches, KindOf,
      Target, WorkerTrue, ExecutorTrue, CompletionTrue, Step, OperationOk, InstanceOk, LeaseOk, EffectOk, WorkerOk,
      ExecutorOk, Journaling, Exclusive, Processes, RowTrue, SimLeftBy, Safe, Faithful;
    if labels != [] {
      var before := labels[..|labels| - 1];
      RunKeepsFaithful(w, before);
      RunKeepsSafe(w, before);
      StepKeepsFaithful(Run(w, before), labels[|labels| - 1]);
    }
  }
}
