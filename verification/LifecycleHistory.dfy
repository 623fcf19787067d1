/**
 What the production executors do to the daemon over a whole run, foreign writers
 included: why each command was issued, how often, and when.
 */
module LifecycleHistory {
  import opened Schema
  import opened LifecycleModel
  import opened LifecycleMachine
  import opened LifecycleFrames
  import opened LifecycleInvariants

  type Timeouts = map<InstanceId, real>
  type Effects = map<InstanceId, Effect>

  // ------------------------------------------------ justification of commands

  /** Baseline, or for a restore what this very operation last settled. */
  ghost predicate Justified(claim: Claim, before: Obs, settled: Option<Obs>) {
    || SameRuntime(before, claim.op.baseline)
    || (claim.lease.restore && settled.Some? && SameRuntime(before, settled.value))
  }

  ghost function SettledFor(settled: map<OpId, Obs>, o: OpId): Option<Obs> {
    if o in settled then Some(settled[o]) else None
  }

  /** The history of settled results is what the journal records say. */
  ghost predicate Settlements(settled: map<OpId, Obs>, effects: Effects) {
    forall id | id in effects && effects[id].phase != Intent ::
      && effects[id].op in settled && effects[id].observation.Some?
      && SameRuntime(settled[effects[id].op], effects[id].observation.value)
  }

  // --------------------------------------------------- one forward command each

  ghost predicate Forward(m: Mutation) { !m.claim.lease.restore }

  ghost predicate NoForwardYet(mutations: seq<Mutation>, o: OpId) {
    forall m | m in mutations :: !(Forward(m) && m.claim.op.id == o)
  }

  ghost predicate Untried(mutations: seq<Mutation>, effects: Effects, o: OpId) {
    NoForwardYet(mutations, o) && forall id | id in effects :: effects[id].op != o
  }

  ghost predicate Unrepeated(mutations: seq<Mutation>) {
    forall i, j | 0 <= i < j < |mutations| ::
      !(Forward(mutations[i]) && Forward(mutations[j]) && mutations[i].claim.op.id == mutations[j].claim.op.id)
  }

  ghost predicate MayStillMutate(at: ExecutorAt) {
    at.Unclaimed? || at.Claimed? || at.Armed? || at.Inspected? || at.Journaled? || at.Cleared?
  }

  ghost predicate BeforeJournal(at: ExecutorAt) { at.Unclaimed? || at.Claimed? || at.Armed? || at.Inspected? }

  ghost predicate AboutToMutate(at: ExecutorAt) { at.Journaled? || at.Cleared? }

  // ------------------------------------------------------------------- timing

  /** The lease was minted one timeout before it expires; `at` is no earlier. */
  ghost predicate MintedBy(timeouts: Timeouts, l: Lease, at: real) {
    l.instance in timeouts && l.expires - timeouts[l.instance] <= at
  }

  ghost predicate MutationOk(timeouts: Timeouts, operations: map<OpId, Operation>, m: Mutation) {
    && m.claim.op.id in operations
    && Justified(m.claim, m.before, m.settled)
    && m.before.state != Target(m.claim.op, m.claim.lease.restore)
    && m.claim.lease.instance in timeouts
    && m.start < m.deadline < m.claim.lease.expires + timeouts[m.claim.lease.instance]
  }

  ghost predicate GiveUpOk(timeouts: Timeouts, longest: real, g: GiveUp) {
    && g.lease.instance in timeouts
    && g.at >= g.lease.expires - timeouts[g.lease.instance] + 2.0 * longest + 5.0
  }

  // ------------------------------------------------------------- the invariant

  ghost predicate Log(timeouts: Timeouts, longest: real, operations: map<OpId, Operation>, h: History) {
    && (forall id | id in timeouts :: 0.0 < timeouts[id] <= longest)
    && (forall m | m in h.mutations :: MutationOk(timeouts, operations, m))
    && Unrepeated(h.mutations)
    && (forall g | g in h.giveUps :: GiveUpOk(timeouts, longest, g))
  }

  ghost predicate Minting(timeouts: Timeouts, leases: map<Nonce, Lease>, now: real) {
    forall n | n in leases :: MintedBy(timeouts, leases[n], now)
  }

  ghost predicate Queue(operations: map<OpId, Operation>, mutations: seq<Mutation>, effects: Effects) {
    forall o | o in operations && operations[o].phase == Queued :: Untried(mutations, effects, o)
  }

  ghost predicate WorkerAccounted(w: World, k: Worker) {
    && (!k.restore && (k.at.Calling? || k.at.Minted?) ==> Untried(w.history.mutations, w.db.effects, k.op.id))
    && (k.at.Waiting? && k.at.nonce in w.db.leases ==>
          k.at.since <= w.now && MintedBy(w.timeouts, w.db.leases[k.at.nonce], k.at.since))
  }

  ghost predicate ExecutorAccounted(w: World, x: Executor) {
    && (AboutToMutate(x.at) ==>
          && Justified(x.at.claim, x.at.record.before, SettledFor(w.history.settled, x.at.claim.op.id))
          && x.at.claim.lease.instance in w.timeouts
          && x.at.deadline < x.at.claim.lease.expires + w.timeouts[x.at.claim.lease.instance])
    && (x.at.Armed? || x.at.Inspected? ==>
          && x.at.claim.lease.instance in w.timeouts
          && x.at.deadline <= w.now + w.timeouts[x.at.claim.lease.instance])
    && (x.nonce in w.db.leases && !w.db.leases[x.nonce].restore ==>
          && (MayStillMutate(x.at) ==> NoForwardYet(w.history.mutations, w.db.leases[x.nonce].op))
          && (BeforeJournal(x.at) ==> Untried(w.history.mutations, w.db.effects, w.db.leases[x.nonce].op)))
  }

  ghost predicate Ledger(w: World) {
    && Log(w.timeouts, w.longest, w.db.operations, w.history)
    && Settlements(w.history.settled, w.db.effects)
    && Minting(w.timeouts, w.db.leases, w.now)
    && Queue(w.db.operations, w.history.mutations, w.db.effects)
  }

  ghost predicate Accounted(w: World) {
    && Ledger(w)
    && (forall p | p in w.workers :: WorkerAccounted(w, w.workers[p]))
    && (forall e | e in w.executors :: ExecutorAccounted(w, w.executors[e]))
  }

  lemma InitialAccounted(w: World)
    requires Initial(w)
    ensures Accounted(w)
  {}

  // --------------------------------------------------------------- bystanders

  /** Operations only leave the queue, or join it with a new id. */
  ghost predicate Drains(db: Db, db': Db) {
    forall o | o in db.operations ::
      o in db'.operations && (db'.operations[o].phase == Queued ==> db.operations[o].phase == Queued)
  }

  /** Steps that touch neither leases, journal, executors nor commands. */
  ghost predicate Bystander(w: World, w': World) {
    && w'.db.leases == w.db.leases && w'.db.effects == w.db.effects && w'.executors == w.executors
    && w'.history.mutations == w.history.mutations && w'.history.giveUps == w.history.giveUps
    && w'.history.settled == w.history.settled && w'.now >= w.now
    && w'.timeouts == w.timeouts && w'.longest == w.longest
    && Drains(w.db, w'.db)
    && (forall p | p in w'.workers ::
          || (p in w.workers && w'.workers[p] == w.workers[p])
          || (!w'.workers[p].at.Waiting?
              && (w'.workers[p].at.Calling? || w'.workers[p].at.Minted? ==>
                    || w'.workers[p].restore
                    || (w'.workers[p].op.id in w.db.operations && w.db.operations[w'.workers[p].op.id].phase == Queued))))
  }

  lemma BystanderKeepsLedger(w: World, w': World)
    requires Safe(w) && Ledger(w) && Bystander(w, w')
    ensures Ledger(w')
  {
    forall o | o in w'.db.operations && w'.db.operations[o].phase == Queued
      ensures Untried(w'.history.mutations, w'.db.effects, o)
    {
      if o !in w.db.operations {
        forall id | id in w.db.effects
          ensures w.db.effects[id].op != o
        {
          assert EffectOk(w.db, id);
        }
      }
    }
  }

  lemma BystanderKeeps(w: World, w': World)
    requires Safe(w) && Accounted(w) && Bystander(w, w')
    ensures Accounted(w')
  {
    hide NoForwardYet, BeforeJournal, OperationOk, InstanceOk, LeaseOk, EffectOk, Holds, HasNonce, WorkerLease,
      Proven, Current, ClaimOk;
    BystanderKeepsLedger(w, w');
    forall p | p in w'.workers
      ensures WorkerAccounted(w', w'.workers[p])
    {
      if p in w.workers { assert WorkerAccounted(w, w.workers[p]); }
    }
    forall e | e in w'.executors
      ensures ExecutorAccounted(w', w'.executors[e])
    {
      assert ExecutorAccounted(w, w.executors[e]);
    }
  }

  lemma ClientKeepsAccounted(w: World, l: Label)
    requires Safe(w) && Accounted(w) && l.Client?
    ensures Accounted(ClientStep(w, l))
  {
    hide Accounted, Journaling, Processes, Grounded, SettledFor, MayStillMutate, NoForwardYet, BeforeJournal, AdmitTx,
      Target, Holds, HasNonce, WorkerLease, Proven, Current, ClaimOk, Owns, RecordOk, WroteSettled, SameRuntime,
      DaemonOf, SimOf, Live, Matches, MutationOk, Unrepeated, GiveUpOk, Forward, Access, CreateTx, MutateTx, Record,
      RuntimeIn, WorkerOk, ExecutorOk, Distinct, Actual, KindOf, OperationOk, InstanceOk, Log, Settlements, Minting,
      Queue, Untried, MintedBy, AboutToMutate, Justified;
    if ValidHost(l.host) && l.uuid !in w.db.operations {
      AdmitKeeps(w.db, l.uid, l.req, l.host, ProbeFor(w, l));
      BystanderKeeps(w, ClientStep(w, l));
    }
  }

  lemma TickOnIsBystander(w: World, pid: Pid, o: OpId, enabled: bool)
    requires Pending(w.db, o) && w.db.operations[o].id == o
    ensures Bystander(w, TickOn(w, pid, o, enabled))
  {}

  lemma TickKeepsAccounted(w: World, pid: Pid, enabled: bool)
    requires Safe(w) && Accounted(w)
    ensures Accounted(TickStep(w, pid, enabled))
  {
    hide Accounted, Journaling, Processes, TickOn, Bystander;
    if LockFree(w) && exists o :: FirstPending(w.db, o) {
      var o :| FirstPending(w.db, o) && TickStep(w, pid, enabled) == TickOn(w, pid, o, enabled);
      assert OperationOk(w.db, o);
      TickOnIsBystander(w, pid, o, enabled);
      BystanderKeeps(w, TickOn(w, pid, o, enabled));
    }
  }

  lemma FinishDrains(db: Db, op: Operation, observation: Option<Obs>, phase: Phase)
    requires Holds(db, op) && phase != Queued && (phase != Quarantined ==> observation.Some?)
    ensures var db' := After(FinishTx(db, op, observation, phase), db);
            Drains(db, db') && db'.leases == db.leases && db'.effects == db.effects
  {}

  lemma GoneIsBystander(w: World, mid: World, pid: Pid)
    requires mid == w.(db := mid.db, history := mid.history) && Drains(w.db, mid.db)
    requires mid.db.leases == w.db.leases && mid.db.effects == w.db.effects
    requires mid.history == w.history.(completions := mid.history.completions)
    ensures Bystander(w, Gone(mid, pid))
  {}

  lemma FailedIsBystander(w: World, pid: Pid)
    requires pid in w.workers
    ensures Bystander(w, Put(w, pid, Failed(w.workers[pid])))
  {}

  lemma FinishIsBystander(w: World, pid: Pid, busy: bool)
    requires Safe(w)
    ensures Bystander(w, FinishStep(w, pid, busy))
  {
    hide Coupling, Journaling, Exclusive, Proven, FinishTx, Drains, Bystander;
    if pid in w.workers && w.workers[pid].at.Checked? {
      var k := w.workers[pid];
      var phase := if k.restore then RolledBack else Committed;
      assert WorkerOk(w.db, k);
      FinishDrains(w.db, k.op, Some(k.at.result), phase);
      var tx := FinishTx(w.db, k.op, Some(k.at.result), phase);
      if busy || tx.Raise? { FailedIsBystander(w, pid); }
      else { GoneIsBystander(w, w.(db := tx.docs, history := Completed(w, k, phase, Some(k.at.result))), pid); }
    } else {
      SameIsBystander(w);
    }
  }

  lemma SameIsBystander(w: World)
    ensures Bystander(w, w)
  {}

  lemma FinishKeepsAccounted(w: World, pid: Pid, busy: bool)
    requires Safe(w) && Accounted(w)
    ensures Accounted(FinishStep(w, pid, busy))
  {
    FinishIsBystander(w, pid, busy);
    BystanderKeeps(w, FinishStep(w, pid, busy));
  }

  lemma CompensateIsBystander(w: World, pid: Pid, busy: bool)
    requires Safe(w)
    ensures Bystander(w, CompensateStep(w, pid, busy))
  {
    hide Coupling, Journaling, Exclusive, Proven, ExecutorOk, Current, ClaimOk, Owns, RecordOk, WroteSettled,
      SameRuntime, Holds, HasNonce, WorkerLease, Target, Live, Matches, KindOf;
    if pid in w.workers { assert WorkerOk(w.db, w.workers[pid]); }
  }

  lemma CompensateKeepsAccounted(w: World, pid: Pid, busy: bool)
    requires Safe(w) && Accounted(w)
    ensures Accounted(CompensateStep(w, pid, busy))
  {
    CompensateIsBystander(w, pid, busy);
    BystanderKeeps(w, CompensateStep(w, pid, busy));
  }

  lemma QuarantineIsBystander(w: World, pid: Pid, busy: bool)
    requires Safe(w)
    ensures Bystander(w, QuarantineStep(w, pid, busy))
  {
    hide Coupling, Journaling, Exclusive, Proven, FinishTx, ExecutorOk, Owns, RecordOk, WroteSettled, SameRuntime,
      Holds, HasNonce, WorkerLease, Target, Actual, Live, Matches, KindOf, DaemonOf, SimOf;
    if pid in w.workers && w.workers[pid].at.Quarantining? {
      assert WorkerOk(w.db, w.workers[pid]);
      FinishDrains(w.db, w.workers[pid].op, None, Quarantined);
    }
  }

  lemma QuarantineKeepsAccounted(w: World, pid: Pid, busy: bool)
    requires Safe(w) && Accounted(w)
    ensures Accounted(QuarantineStep(w, pid, busy))
  {
    QuarantineIsBystander(w, pid, busy);
    BystanderKeeps(w, QuarantineStep(w, pid, busy));
  }

  /** A worker that neither leaves the queue, mints nor waits. */
  ghost predicate Local(w: World, w': World) {
    && w'.db == w.db && w'.executors == w.executors && w'.history == w.history && w'.now == w.now
    && w'.timeouts == w.timeouts && w'.longest == w.longest
    && (forall p | p in w'.workers ::
          || (p in w.workers && w'.workers[p] == w.workers[p])
          || !(w'.workers[p].at.Waiting? || w'.workers[p].at.Calling? || w'.workers[p].at.Minted?))
  }

  lemma LocalKeeps(w: World, w': World)
    requires Accounted(w) && Local(w, w')
    ensures Accounted(w')
  {
    forall p | p in w'.workers
      ensures WorkerAccounted(w', w'.workers[p])
    {
      if p in w.workers { assert WorkerAccounted(w, w.workers[p]); }
    }
    forall e | e in w'.executors
      ensures ExecutorAccounted(w', w'.executors[e])
    {
      assert ExecutorAccounted(w, w.executors[e]);
    }
  }

  lemma PutIsLocal(w: World, pid: Pid, k: Worker)
    requires !(k.at.Waiting? || k.at.Calling? || k.at.Minted?)
    ensures Local(w, Put(w, pid, k))
  {}

  lemma CalledIsLocal(w: World, pid: Pid, fault: bool)
    ensures var w' := CallSimulationStep(w, pid, fault);
            w' == w || (pid in w'.workers && w' == Put(w.(sim := w'.sim), pid, w'.workers[pid])
                        && !(w'.workers[pid].at.Waiting? || w'.workers[pid].at.Calling? || w'.workers[pid].at.Minted?))
  {
    hide SimChangeTx;
  }

  lemma CallSimulationKeepsAccounted(w: World, pid: Pid, fault: bool)
    requires Accounted(w)
    ensures Accounted(CallSimulationStep(w, pid, fault))
  {
    hide Accounted, CallSimulationStep;
    CalledIsLocal(w, pid, fault);
    var w' := CallSimulationStep(w, pid, fault);
    if w' != w {
      PutIsLocal(w.(sim := w'.sim), pid, w'.workers[pid]);
      LocalKeeps(w, w');
    }
  }

  lemma ReadBackIsLocal(w: World, pid: Pid)
    ensures Local(w, ReadBackStep(w, pid))
  {
    hide ReadBackTx;
  }

  lemma ReadBackKeepsAccounted(w: World, pid: Pid)
    requires Accounted(w)
    ensures Accounted(ReadBackStep(w, pid))
  {
    hide Accounted, Local, ReadBackStep;
    ReadBackIsLocal(w, pid);
    LocalKeeps(w, ReadBackStep(w, pid));
  }

  lemma FailKeepsAccounted(w: World, pid: Pid)
    requires Accounted(w)
    ensures Accounted(FailStep(w, pid))
  {
    hide Accounted, MintedBy, AboutToMutate, Justified, SettledFor, MayStillMutate, NoForwardYet, BeforeJournal,
      MutationOk, Unrepeated, GiveUpOk, SameRuntime, Forward;
    LocalKeeps(w, FailStep(w, pid));
  }

  lemma CheckResultKeepsAccounted(w: World, pid: Pid)
    requires Accounted(w)
    ensures Accounted(CheckResultStep(w, pid))
  {
    hide Accounted, Actual;
    var w' := CheckResultStep(w, pid);
    if pid in w.workers && w.workers[pid].at.Returned? {
      PutIsLocal(w, pid, w'.workers[pid]);
      assert w' == Put(w, pid, w'.workers[pid]);
      LocalKeeps(w, w');
    }
  }

  // ------------------------------------------------------ leases and helpers

  lemma MintKeepsAccounted(w: World, pid: Pid, enabled: bool, bound: bool, nonce: Nonce, binding: nat)
    requires Safe(w) && Accounted(w)
    ensures Accounted(MintStep(w, pid, enabled, bound, nonce, binding))
  {
    hide Safe, Accounted;
    if MintStep(w, pid, enabled, bound, nonce, binding) != w { MintedKeepsAccounted(w, pid, enabled, bound, nonce, binding); }
  }

  lemma MintedKeepsAccounted(w: World, pid: Pid, enabled: bool, bound: bool, nonce: Nonce, binding: nat)
    requires Safe(w) && Accounted(w) && MintStep(w, pid, enabled, bound, nonce, binding) != w
    ensures Accounted(MintStep(w, pid, enabled, bound, nonce, binding))
  {
    hide Coupling, Journaling;
    var w' := MintStep(w, pid, enabled, bound, nonce, binding);
    Alone(w, pid);
    assert WorkerAccounted(w, w.workers[pid]);
    assert w'.workers.Keys == {pid} && w'.executors == map[];
    assert WorkerAccounted(w', w'.workers[pid]);
  }

  lemma SpawnKeepsAccounted(w: World, pid: Pid, child: Pid)
    requires Safe(w) && Accounted(w)
    ensures Accounted(SpawnStep(w, pid, child))
  {
    hide Forward, Live, Matches, KindOf, Current, ClaimOk, Owns, RecordOk, WroteSettled, MutationOk, Unrepeated,
      GiveUpOk, NoForwardYet, BeforeJournal, OperationOk, InstanceOk, LeaseOk, EffectOk;
    var w' := SpawnStep(w, pid, child);
    if w' != w {
      Alone(w, pid);
      assert WorkerOk(w.db, w.workers[pid]) && WorkerAccounted(w, w.workers[pid]);
      assert w'.workers.Keys == {pid} && w'.executors.Keys == {child};
      assert WorkerAccounted(w', w'.workers[pid]) && ExecutorAccounted(w', w'.executors[child]);
    }
  }

  lemma ParentTimeoutKeepsAccounted(w: World, pid: Pid)
    requires Safe(w) && Accounted(w)
    ensures Accounted(ParentTimeoutStep(w, pid))
  {
    hide NoForwardYet, BeforeJournal, OperationOk, InstanceOk, LeaseOk, EffectOk, WorkerOk, ExecutorOk;
    var w' := ParentTimeoutStep(w, pid);
    if w' != w {
      assert WorkerAccounted(w, w.workers[pid]);
      forall p | p in w'.workers
        ensures WorkerAccounted(w', w'.workers[p])
      {
        assert p == pid;
      }
      forall e | e in w'.executors
        ensures ExecutorAccounted(w', w'.executors[e])
      {
        assert ExecutorAccounted(w, w.executors[e]);
      }
    }
  }

  /** Waiting parents keep their lease and its mint time through executor steps. */
  lemma ParentsStayAccounted(w: World, w': World)
    requires Accounted(w) && w'.workers == w.workers && w'.now == w.now && w'.timeouts == w.timeouts
    requires forall p | p in w.workers :: w.workers[p].at.Waiting? || w.workers[p].at.Quarantining?
    requires forall n | n in w.db.leases :: n in w'.db.leases && w'.db.leases[n] in {w.db.leases[n], w.db.leases[n].(consumed := true)}
    requires forall n | n in w'.db.leases :: n in w.db.leases
    ensures forall p | p in w'.workers :: WorkerAccounted(w', w'.workers[p])
  {
    forall p | p in w'.workers
      ensures WorkerAccounted(w', w'.workers[p])
    {
      assert WorkerAccounted(w, w.workers[p]);
    }
  }

  lemma ExitKeepsAccounted(w: World, e: Pid, ok: bool)
    requires Safe(w) && Accounted(w) && e in w.executors
    ensures Accounted(Exit(w, e, ok))
  {
    hide Justified, SettledFor, MayStillMutate, NoForwardYet, BeforeJournal, Live, Matches, KindOf, Target, Holds,
      HasNonce, WorkerLease, Proven, Current, ClaimOk, Owns, RecordOk, WroteSettled, SameRuntime, MutationOk,
      Unrepeated, GiveUpOk, Forward, MintedBy, OperationOk, InstanceOk, LeaseOk, EffectOk, WorkerOk, ExecutorOk, Log,
      Settlements, Minting, Queue, AboutToMutate;
    OneExecutor(w, e);
    var w' := Exit(w, e, ok);
    assert w'.executors == map[];
    forall p | p in w'.workers
      ensures WorkerAccounted(w', w'.workers[p])
    {
      assert WorkerAccounted(w, w.workers[p]);
    }
  }

  // ------------------------------------------------------------ executor steps

  /** The executor moves on; store and history stay. */
  lemma MoveKeepsAccounted(w: World, w': World, e: Pid)
    requires Safe(w) && Accounted(w) && e in w.executors && e in w'.executors
    requires w'.db == w.db && w'.history == w.history && w'.workers == w.workers
    requires w'.now == w.now && w'.timeouts == w.timeouts && w'.longest == w.longest
    requires w'.executors == w.executors[e := w'.executors[e]] && ExecutorAccounted(w', w'.executors[e])
    ensures Accounted(w')
  {
    OneExecutor(w, e);
    ParentsStayAccounted(w, w');
  }

  lemma ClaimedKeepsAccounted(w: World, e: Pid, binding: nat, bound: bool, enabled: bool)
    requires Safe(w) && Accounted(w) && e in w.executors && w.executors[e].at.Unclaimed?
    requires ClaimTx(w.db, w.executors[e].nonce, w.now, binding, bound, enabled).Done?
    ensures Accounted(ClaimStep(w, e, binding, bound, enabled))
  {
    hide Coupling, Journaling, WorkerOk, Log, Settlements, Queue, ExecutorOk, MutationOk, Untried, Current, Owned,
      Live;
    var w' := ClaimStep(w, e, binding, bound, enabled);
    OneExecutor(w, e);
    assert ExecutorAccounted(w, w.executors[e]);
    ParentsStayAccounted(w, w');
    assert ExecutorAccounted(w', w'.executors[e]);
  }

  lemma ClaimKeepsAccounted(w: World, e: Pid, binding: nat, bound: bool, enabled: bool)
    requires Safe(w) && Accounted(w)
    ensures Accounted(ClaimStep(w, e, binding, bound, enabled))
  {
    hide Safe, Accounted, ClaimTx;
    if e in w.executors && w.executors[e].at.Unclaimed? {
      if ClaimTx(w.db, w.executors[e].nonce, w.now, binding, bound, enabled).Done? {
        ClaimedKeepsAccounted(w, e, binding, bound, enabled);
      } else {
        ExitKeepsAccounted(w, e, false);
      }
    }
  }

  lemma ArmKeepsAccounted(w: World, e: Pid)
    requires Safe(w) && Accounted(w)
    ensures Accounted(ArmStep(w, e))
  {
    hide Safe, Ledger;
    var w' := ArmStep(w, e);
    if w' != w {
      assert ExecutorAccounted(w, w.executors[e]);
      if e in w'.executors { MoveKeepsAccounted(w, w', e); } else { ExitKeepsAccounted(w, e, false); }
    }
  }

  lemma InspectKeepsAccounted(w: World, e: Pid)
    requires Safe(w) && Accounted(w)
    ensures Accounted(InspectStep(w, e))
  {
    hide Safe, Ledger;
    var w' := InspectStep(w, e);
    if w' != w {
      assert ExecutorAccounted(w, w.executors[e]);
      MoveKeepsAccounted(w, w', e);
    }
  }

  /** The lone executor writes to the store and moves on. */
  lemma WriteKeepsAccounted(w: World, mid: World, e: Pid, at: ExecutorAt)
    requires Safe(w) && Accounted(w) && e in w.executors
    requires mid.workers == w.workers && mid.executors == w.executors && mid.db.leases == w.db.leases
    requires mid.now == w.now && mid.timeouts == w.timeouts && Ledger(mid)
    requires ExecutorAccounted(PutE(mid, e, at), Executor(w.executors[e].nonce, at))
    ensures Accounted(PutE(mid, e, at))
  {
    hide LeaseOk, EffectOk, WorkerOk, ExecutorOk, MintedBy, MutationOk, Unrepeated, GiveUpOk, SameRuntime, Forward,
      Live, Matches, KindOf, Target, Holds, HasNonce, WorkerLease, Proven, Current, ClaimOk, Owns, RecordOk,
      WroteSettled, Settlements, Minting, Queue, AboutToMutate, Justified, SettledFor, MayStillMutate, NoForwardYet,
      BeforeJournal, Untried, OperationOk, InstanceOk, Coupling, Journaling, Exclusive, Processes, WorkerAccounted,
      Log, ExecutorAccounted;
    OneExecutor(w, e);
    ParentsStayAccounted(w, PutE(mid, e, at));
  }

  /** An intent record is written only for a justified start, within its lease; its
      deadline was set before the lease ran out, so it is less than two timeouts after
      minting. */
  lemma JournaledKeepsAccounted(w: World, e: Pid)
    requires Safe(w) && Accounted(w) && e in w.executors && w.executors[e].at.Inspected?
    requires JournalTx(w.db, w.executors[e].at.claim, w.executors[e].at.before, w.now).Done?
    ensures Accounted(JournalStep(w, e))
  {
    hide InstanceOk, LeaseOk, EffectOk, WorkerOk, Log, Settlements, Minting, Queue, MintedBy, Forward, Live, Matches,
      KindOf, Admissible, Target, GiveUpOk, SameRuntime, SettledFor, MayStillMutate;
    var x := w.executors[e].at;
    var tx := JournalTx(w.db, x.claim, x.before, w.now);
    assert ExecutorOk(w.db, w.executors[e]) && ExecutorAccounted(w, w.executors[e]);
    var mid := w.(db := tx.docs, history := Acknowledge(w.history, tx.value, x));
    JournalKeepsLedger(w, mid, x.claim, x.before);
    if tx.value.phase == Settled {
      WriteKeepsAccounted(w, mid, e, Confirming(x.claim, x.deadline, tx.value));
    } else {
      WriteKeepsAccounted(w, mid, e, Journaled(x.claim, x.deadline, tx.value));
    }
  }

  ghost function Acknowledge(h: History, record: Effect, x: ExecutorAt): History
    requires x.Inspected?
  {
    if record.phase == Settled then h.(settled := h.settled[x.claim.op.id := x.before]) else h
  }

  lemma JournalKeepsLedger(w: World, w': World, claim: Claim, before: Obs)
    requires Journaling(w.db) && Ledger(w) && JournalTx(w.db, claim, before, w.now).Done?
    requires claim.op.id in w.db.operations && w.db.operations[claim.op.id].instance == claim.lease.instance
    requires var tx := JournalTx(w.db, claim, before, w.now);
      && w'.db == tx.docs && w'.now == w.now && w'.timeouts == w.timeouts && w'.longest == w.longest
      && w'.history == (if tx.value.phase == Settled
                        then w.history.(settled := w.history.settled[claim.op.id := before]) else w.history)
    ensures Ledger(w')
    ensures JournalTx(w.db, claim, before, w.now).value.phase == Intent ==>
              Justified(claim, before, SettledFor(w.history.settled, claim.op.id))
  {
    JournalKeepsSettlements(w.db, claim, before, w.now, w.history.settled);
    JournalKeepsQueue(w.db, claim, before, w.now, w.history.mutations);
  }

  lemma JournalKeepsSettlements(db: Db, claim: Claim, before: Obs, now: real, settled: map<OpId, Obs>)
    requires Journaling(db) && Settlements(settled, db.effects) && JournalTx(db, claim, before, now).Done?
    requires claim.op.id in db.operations && db.operations[claim.op.id].instance == claim.lease.instance
    ensures var tx := JournalTx(db, claim, before, now);
            Settlements(if tx.value.phase == Settled then settled[claim.op.id := before] else settled, tx.docs.effects)
    ensures JournalTx(db, claim, before, now).value.phase == Intent ==>
              Justified(claim, before, SettledFor(settled, claim.op.id))
  {
    var db' := JournalTx(db, claim, before, now).docs;
    forall id | id in db'.effects && id != claim.lease.instance
      ensures db'.effects[id].op != claim.op.id
    {
      assert EffectOk(db, id);
    }
  }

  lemma JournalKeepsQueue(db: Db, claim: Claim, before: Obs, now: real, mutations: seq<Mutation>)
    requires Queue(db.operations, mutations, db.effects) && JournalTx(db, claim, before, now).Done?
    ensures var db' := JournalTx(db, claim, before, now).docs; Queue(db'.operations, mutations, db'.effects)
  {}

  lemma JournalKeepsAccounted(w: World, e: Pid)
    requires Safe(w) && Accounted(w)
    ensures Accounted(JournalStep(w, e))
  {
    if e in w.executors && w.executors[e].at.Inspected? {
      if JournalTx(w.db, w.executors[e].at.claim, w.executors[e].at.before, w.now).Done? {
        JournaledKeepsAccounted(w, e);
      } else {
        ExitKeepsAccounted(w, e, false);
      }
    }
  }

  lemma ClearKeepsAccounted(w: World, e: Pid)
    requires Safe(w) && Accounted(w)
    ensures Accounted(ClearStep(w, e))
  {
    hide Safe, Ledger, LeaseOk, EffectOk, WorkerOk, ExecutorOk, MintedBy, Owned, MutationOk, Unrepeated, GiveUpOk,
      SameRuntime, Forward, Live, Matches, KindOf, Target, Holds, HasNonce, WorkerLease, Proven, Current, ClaimOk,
      Owns, RecordOk, WroteSettled, Coupling, Journaling, Exclusive;
    var w' := ClearStep(w, e);
    if w' != w {
      assert ExecutorAccounted(w, w.executors[e]);
      if e in w'.executors { MoveKeepsAccounted(w, w', e); } else { ExitKeepsAccounted(w, e, false); }
    }
  }

  /** The one step that issues a daemon command. */
  lemma StartedKeepsAccounted(w: World, e: Pid)
    requires Safe(w) && Accounted(w) && e in w.executors && w.executors[e].at.Cleared?
    requires w.now < w.executors[e].at.deadline
    ensures Accounted(StartCommandStep(w, e))
  {
    hide Coupling, Journaling, WorkerOk, Log, Settlements, Minting, Queue, Target, MutationOk, Unrepeated, GiveUpOk,
      SameRuntime;
    var w' := StartCommandStep(w, e);
    var x := w.executors[e];
    assert ExecutorOk(w.db, x) && ExecutorAccounted(w, x);
    OneExecutor(w, e);
    ParentsStayAccounted(w, w');
    var m := Mutation(x.at.claim, x.at.record.before, w.now, x.at.deadline, SettledFor(w.history.settled, x.at.claim.op.id));
    assert w'.history.mutations == w.history.mutations + [m];
    StartKeepsLog(w.timeouts, w.longest, w.db.operations, w.history, m);
    StartKeepsQueue(w.db, w.history.mutations, m);
    assert ExecutorAccounted(w', w'.executors[e]);
  }

  lemma StartKeepsLog(timeouts: Timeouts, longest: real, operations: map<OpId, Operation>, h: History, m: Mutation)
    requires Log(timeouts, longest, operations, h) && MutationOk(timeouts, operations, m)
    requires Forward(m) ==> NoForwardYet(h.mutations, m.claim.op.id)
    ensures Log(timeouts, longest, operations, h.(mutations := h.mutations + [m]))
  {}

  /** A command belongs to an operation that has left the queue. */
  lemma StartKeepsQueue(db: Db, mutations: seq<Mutation>, m: Mutation)
    requires Queue(db.operations, mutations, db.effects)
    requires m.claim.op.id in db.operations && db.operations[m.claim.op.id].phase != Queued
    ensures Queue(db.operations, mutations + [m], db.effects)
  {}

  lemma StartCommandKeepsAccounted(w: World, e: Pid)
    requires Safe(w) && Accounted(w)
    ensures Accounted(StartCommandStep(w, e))
  {
    hide AboutToMutate, Justified, SettledFor, MayStillMutate, NoForwardYet, BeforeJournal, Live, Matches, KindOf,
      Target, Holds, HasNonce, WorkerLease, Proven, Current, ClaimOk, Owns, RecordOk, WroteSettled, SameRuntime,
      MutationOk, Unrepeated, GiveUpOk, Forward, OperationOk, InstanceOk, LeaseOk, EffectOk, WorkerOk, ExecutorOk,
      Log, Settlements, Minting, Queue, Untried, MintedBy, Processes, Ledger, WorkerAccounted, ExecutorAccounted,
      Exit, PutE, Coupling, Journaling, Exclusive, Accounted;
    if e in w.executors && w.executors[e].at.Cleared? {
      if w.now < w.executors[e].at.deadline { StartedKeepsAccounted(w, e); } else { ExitKeepsAccounted(w, e, false); }
    }
  }

  lemma DaemonKeepsAccounted(w: World, daemon: map<InstanceId, Obs>)
    requires Accounted(w)
    ensures Accounted(w.(daemon := daemon))
  {
    var w' := w.(daemon := daemon);
    forall p | p in w'.workers
      ensures WorkerAccounted(w', w'.workers[p])
    {
      assert WorkerAccounted(w, w.workers[p]);
    }
    forall e | e in w'.executors
      ensures ExecutorAccounted(w', w'.executors[e])
    {
      assert ExecutorAccounted(w, w.executors[e]);
    }
  }

  lemma CommandReturnsKeepsAccounted(w: World, e: Pid, outcome: Obs)
    requires Safe(w) && Accounted(w)
    ensures Accounted(CommandReturnsStep(w, e, outcome))
  {
    hide Safe, Ledger, LeaseOk, EffectOk, WorkerOk, ExecutorOk, MintedBy, MutationOk, Unrepeated, GiveUpOk,
      SameRuntime, Forward, Live, Matches, KindOf, Target, Holds, HasNonce, WorkerLease, Proven, Current, ClaimOk,
      Owns, RecordOk, WroteSettled, Settlements, Minting, Queue;
    if e in w.executors && w.executors[e].at.Mutating? {
      var w' := CommandReturnsStep(w, e, outcome);
      if e in w'.executors {
        var mid := w.(executors := w'.executors);
        assert ExecutorAccounted(w, w.executors[e]);
        MoveKeepsAccounted(w, mid, e);
        DaemonKeepsAccounted(mid, w'.daemon);
      } else {
        ExitKeepsAccounted(w, e, false);
      }
    }
  }

  lemma ReinspectKeepsAccounted(w: World, e: Pid)
    requires Safe(w) && Accounted(w)
    ensures Accounted(ReinspectStep(w, e))
  {
    hide Safe, Ledger;
    var w' := ReinspectStep(w, e);
    if w' != w {
      assert ExecutorAccounted(w, w.executors[e]);
      MoveKeepsAccounted(w, w', e);
    }
  }

  /** A report keeps the record's operation, and settles it at what was seen. */
  lemma ReportKeepsLedger(w: World, claim: Claim, record: Effect, seen: Obs, phase: EffectPhase)
    requires Safe(w) && Ledger(w) && phase != Intent && ReportTx(w.db, claim, record, seen, phase).Done?
    requires RecordOk(w.db, claim, record)
    requires phase == Verified ==> record.phase == Settled && record.observation.Some? && SameRuntime(seen, record.observation.value)
    ensures var settled := if phase == Settled then w.history.settled[claim.op.id := seen] else w.history.settled;
            Ledger(w.(db := ReportTx(w.db, claim, record, seen, phase).docs, history := w.history.(settled := settled)))
  {
    hide Target, KindOf, OperationOk, InstanceOk, LeaseOk, Current, ClaimOk;
    var db' := ReportTx(w.db, claim, record, seen, phase).docs;
    assert EffectOk(w.db, claim.lease.instance);
    forall id | id in db'.effects && id != claim.lease.instance
      ensures db'.effects[id].op != claim.op.id
    {
      assert EffectOk(w.db, id);
    }
  }

  lemma SettledKeepsAccounted(w: World, e: Pid)
    requires Safe(w) && Accounted(w) && e in w.executors && w.executors[e].at.Reinspected?
    requires ReportTx(w.db, w.executors[e].at.claim, w.executors[e].at.record, w.executors[e].at.seen, Settled).Done?
    ensures Accounted(SettleStep(w, e))
  {
    hide Coupling, Journaling, WorkerOk, Ledger, PutE, OperationOk, InstanceOk, LeaseOk, EffectOk, Holds, HasNonce,
      WorkerLease, Proven, Target, Log, Settlements;
    var x := w.executors[e];
    assert ExecutorOk(w.db, x);
    ReportKeepsLedger(w, x.at.claim, x.at.record, x.at.seen, Settled);
    var tx := ReportTx(w.db, x.at.claim, x.at.record, x.at.seen, Settled);
    var mid := w.(db := tx.docs, history := w.history.(settled := w.history.settled[x.at.claim.op.id := x.at.seen]));
    WriteKeepsAccounted(w, mid, e, Confirming(x.at.claim, x.at.deadline, tx.value));
  }

  lemma SettleKeepsAccounted(w: World, e: Pid)
    requires Safe(w) && Accounted(w)
    ensures Accounted(SettleStep(w, e))
  {
    if e in w.executors && w.executors[e].at.Reinspected? {
      var x := w.executors[e];
      if ReportTx(w.db, x.at.claim, x.at.record, x.at.seen, Settled).Done? {
        SettledKeepsAccounted(w, e);
      } else {
        ExitKeepsAccounted(w, e, false);
      }
    }
  }

  lemma ConfirmedKeepsAccounted(w: World, e: Pid)
    requires Safe(w) && Accounted(w) && e in w.executors && w.executors[e].at.Confirming? && e in ConfirmStep(w, e).executors
    ensures Accounted(ConfirmStep(w, e))
  {
    hide Safe, Ledger, Log, Settlements, Minting;
    assert ExecutorAccounted(w, w.executors[e]);
    StillConfirming(w, e);
    MoveKeepsAccounted(w, ConfirmStep(w, e), e);
  }

  lemma StillConfirming(w: World, e: Pid)
    requires e in w.executors && w.executors[e].at.Confirming? && e in ConfirmStep(w, e).executors
    ensures var w' := ConfirmStep(w, e);
            w'.executors[e].at.Confirmed? && w'.executors[e].at.claim == w.executors[e].at.claim
            && w' == w.(executors := w.executors[e := w'.executors[e]]) && w'.executors[e].nonce == w.executors[e].nonce
  {}

  lemma ConfirmKeepsAccounted(w: World, e: Pid)
    requires Safe(w) && Accounted(w)
    ensures Accounted(ConfirmStep(w, e))
  {
    hide Safe, Accounted, DaemonOf;
    if e in w.executors && w.executors[e].at.Confirming? {
      if e in ConfirmStep(w, e).executors { ConfirmedKeepsAccounted(w, e); } else { ExitKeepsAccounted(w, e, false); }
    }
  }

  lemma ReportedKeepsAccounted(w: World, e: Pid)
    requires Safe(w) && Accounted(w) && e in w.executors && w.executors[e].at.Confirmed?
    requires ReportTx(w.db, w.executors[e].at.claim, w.executors[e].at.record, w.executors[e].at.seen, Verified).Done?
    ensures Accounted(ReportStep(w, e))
  {
    hide Coupling, Journaling, WorkerOk, Log, Settlements, Minting, Queue, MutationOk, Unrepeated, GiveUpOk,
      SameRuntime, MintedBy, Untried, Current, ClaimOk, Owns, RecordOk;
    var x := w.executors[e];
    assert ExecutorOk(w.db, x);
    OneExecutor(w, e);
    ReportKeepsLedger(w, x.at.claim, x.at.record, x.at.seen, Verified);
    var w' := ReportStep(w, e);
    assert w'.executors == map[];
    forall p | p in w'.workers
      ensures WorkerAccounted(w', w'.workers[p])
    {
      assert WorkerAccounted(w, w.workers[p]);
    }
  }

  lemma ReportKeepsAccounted(w: World, e: Pid)
    requires Safe(w) && Accounted(w)
    ensures Accounted(ReportStep(w, e))
  {
    if e in w.executors && w.executors[e].at.Confirmed? {
      var x := w.executors[e];
      if ReportTx(w.db, x.at.claim, x.at.record, x.at.seen, Verified).Done? {
        ReportedKeepsAccounted(w, e);
      } else {
        ExitKeepsAccounted(w, e, false);
      }
    }
  }

  // --------------------------------------------------------------------- runs

  lemma WorkerStepKeepsAccounted(w: World, pid: Pid, work: WorkerAct)
    requires Safe(w) && Accounted(w)
    ensures Accounted(WorkerStep(w, pid, work))
  {
    hide SettledFor, MayStillMutate, NoForwardYet, BeforeJournal, SimChangeTx, Put, Failed, MintTx, ReadBackTx,
      Actual, Target, FinishTx, Completed, CompensateTx, Live, Matches, KindOf, Holds, HasNonce, WorkerLease, Proven,
      Current, ClaimOk, Owns, RecordOk, WroteSettled, SameRuntime, MutationOk, Unrepeated, GiveUpOk, Forward, SimOf,
      Owned, PutOnce, DaemonOf, CheckResultStep, FinishStep, CompensateStep, QuarantineStep, OperationOk, InstanceOk,
      LeaseOk, EffectOk, WorkerOk, ExecutorOk, Log, Settlements, Minting, Queue, Untried, MintedBy, AboutToMutate,
      Justified, Ledger, WorkerAccounted, ExecutorAccounted, CallSimulationStep, MintStep, SpawnStep,
      ParentTimeoutStep, ReadBackStep, FailStep, Coupling, Journaling, Exclusive, Processes, Safe, Accounted;
    match work
    case MintLease(enabled, bound, nonce, binding) => MintKeepsAccounted(w, pid, enabled, bound, nonce, binding);
    case Spawn(child) => SpawnKeepsAccounted(w, pid, child);
    case ParentTimeout => ParentTimeoutKeepsAccounted(w, pid);
    case Finish(busy) => FinishKeepsAccounted(w, pid, busy);
    case Compensate(busy) => CompensateKeepsAccounted(w, pid, busy);
    case Quarantine(busy) => QuarantineKeepsAccounted(w, pid, busy);
    case CallSimulation(fault) => CallSimulationKeepsAccounted(w, pid, fault);
    case ReadBack => ReadBackKeepsAccounted(w, pid);
    case Fail => FailKeepsAccounted(w, pid);
    case CheckResult => CheckResultKeepsAccounted(w, pid);
    case KillWorker => LocalKeeps(w, Gone(w, pid));
  }

  lemma ExecutorStepKeepsAccounted(w: World, e: Pid, act: ExecutorAct)
    requires Safe(w) && Accounted(w)
    ensures Accounted(ExecutorStep(w, e, act))
  {
    hide AboutToMutate, Justified, SettledFor, MayStillMutate, NoForwardYet, BeforeJournal, ClaimTx, Exit, PutE,
      DaemonOf, JournalTx, LaunchTx, ReportTx, SameRuntime, Live, Matches, KindOf, Target, Holds, HasNonce,
      WorkerLease, Proven, Current, ClaimOk, Owns, RecordOk, WroteSettled, MutationOk, Unrepeated, GiveUpOk, Forward,
      Owned, RuntimeIn, Admissible, WorkerAccounted, ExecutorAccounted, ClaimStep, ArmStep, InspectStep, JournalStep,
      ClearStep, StartCommandStep, CommandReturnsStep, EffectOk, WorkerOk, ExecutorOk, Log, Settlements, Minting,
      Queue, Untried, MintedBy, Journaling, Exclusive, Processes, Ledger, ReinspectStep, SettleStep, ConfirmStep,
      ReportStep, Safe, Accounted;
    match act
    case ClaimLease(binding, bound, enabled) => ClaimKeepsAccounted(w, e, binding, bound, enabled);
    case Arm => ArmKeepsAccounted(w, e);
    case Inspect => InspectKeepsAccounted(w, e);
    case Journal => JournalKeepsAccounted(w, e);
    case Clear => ClearKeepsAccounted(w, e);
    case StartCommand => StartCommandKeepsAccounted(w, e);
    case CommandReturns(outcome) => CommandReturnsKeepsAccounted(w, e, outcome);
    case Reinspect => ReinspectKeepsAccounted(w, e);
    case Settle => SettleKeepsAccounted(w, e);
    case Confirm => ConfirmKeepsAccounted(w, e);
    case Report => ReportKeepsAccounted(w, e);
    case KillExecutor => if e in w.executors { ExitKeepsAccounted(w, e, false); }
  }

  lemma SurroundingsKeepAccounted(w: World, w': World)
    requires Safe(w) && Accounted(w) && w'.db == w.db.(registrations := w'.db.registrations)
    requires w'.workers == w.workers && w'.executors == w.executors && w'.history == w.history
    requires w'.now >= w.now && w'.timeouts == w.timeouts && w'.longest == w.longest
    ensures Accounted(w')
  {
    BystanderKeeps(w, w');
  }

  lemma EnvironmentKeepsAccounted(w: World, l: Label)
    requires Safe(w) && Accounted(w) && (l.LateEffect? || l.Flap? || l.Advance? || l.Foreign?)
    ensures Accounted(Step(w, l))
  {
    hide Accounted, Safe, Gone, ClaimStep, ArmStep, InspectStep, JournalStep, ClearStep, StartCommandStep,
      CommandReturnsStep, ReinspectStep, SettleStep, ConfirmStep, ReportStep, KillExecutorStep, Unanswered, DaemonOf,
      Live, Matches, KindOf, Target, Holds, HasNonce, WorkerLease, Proven, Current, ClaimOk, Owns, RecordOk,
      WroteSettled, SameRuntime, MutationOk, Unrepeated, GiveUpOk, Forward, Distinct, AdmitTx, Actual, Pending,
      ReserveTx, Put, SimChangeTx, Failed, MintTx, ReadBackTx, FinishTx, Completed, CompensateTx, ClaimTx, Exit, PutE,
      JournalTx, LaunchTx, ReportTx, RuntimeIn, Queue, Untried, MintedBy, AboutToMutate, Justified, SettledFor,
      MayStillMutate, NoForwardYet, BeforeJournal, ValidHost, Dispatch, ProbeFor, Admits, AlreadyDone, LockFree,
      FirstPending, TickOn, CallSimulationStep, MintStep, SpawnStep, ParentTimeoutStep, ReadBackStep, FailStep,
      CheckResultStep, FinishStep, CompensateStep, QuarantineStep, WorkerAccounted, ExecutorAccounted, ClientStep,
      EnrollStep, TickStep, WorkerStep, ExecutorStep, LeaseOk, EffectOk, WorkerOk, ExecutorOk, Log, Settlements,
      Minting, Exclusive, Processes, Ledger;
    var w' := Step(w, l);
    EnvironmentFrame(w, l);
    assert w'.now >= w.now && w'.timeouts == w.timeouts && w'.longest == w.longest;
    SurroundingsKeepAccounted(w, w');
  }

  lemma StepKeepsAccounted(w: World, l: Label)
    requires Safe(w) && Accounted(w)
    ensures Accounted(Step(w, l))
  {
    hide Safe, Accounted, Gone, ClaimStep, ArmStep, InspectStep, JournalStep, ClearStep, StartCommandStep,
      CommandReturnsStep, ReinspectStep, SettleStep, ConfirmStep, ReportStep, KillExecutorStep, Unanswered, DaemonOf,
      Live, Matches, KindOf, Target, Holds, HasNonce, WorkerLease, Proven, Current, ClaimOk, Owns, RecordOk,
      WroteSettled, SameRuntime, MutationOk, Unrepeated, GiveUpOk, Forward, Distinct, AdmitTx, Actual, Pending,
      ReserveTx, Put, SimChangeTx, Failed, MintTx, ReadBackTx, FinishTx, Completed, CompensateTx, ClaimTx, Exit, PutE,
      JournalTx, LaunchTx, ReportTx, RuntimeIn, Queue, Untried, MintedBy, AboutToMutate, Justified, SettledFor,
      MayStillMutate, NoForwardYet, BeforeJournal, ValidHost, Dispatch, ProbeFor, Admits, AlreadyDone, LockFree,
      FirstPending, TickOn, CallSimulationStep, MintStep, SpawnStep, ParentTimeoutStep, ReadBackStep, FailStep,
      CheckResultStep, FinishStep, CompensateStep, QuarantineStep, Ledger, WorkerAccounted, ExecutorAccounted,
      ClientStep, TickStep, WorkerStep, ExecutorStep, LeaseOk, EffectOk, WorkerOk, ExecutorOk, Log, Settlements,
      Minting;
    match l
    case Client(_, _, _, _, _, _, _, _, _) => ClientKeepsAccounted(w, l);
    case Enroll(id) => SurroundingsKeepAccounted(w, EnrollStep(w, id));
    case Tick(pid, enabled) => TickKeepsAccounted(w, pid, enabled);
    case ByWorker(pid, work) => WorkerStepKeepsAccounted(w, pid, work);
    case ByExecutor(e, act) => ExecutorStepKeepsAccounted(w, e, act);
    case _ => EnvironmentKeepsAccounted(w, l);
  }

  lemma {:induction false} RunKeepsAccounted(w: World, labels: seq<Label>)
    requires Safe(w) && Accounted(w)
    ensures Accounted(Run(w, labels))
    decreases |labels|
  {
    hide WorkerLease, Proven, Current, ClaimOk, Owns, RecordOk, WroteSettled, SameRuntime, MutationOk, Unrepeated,
      GiveUpOk, Forward, ValidHost, Dispatch, ProbeFor, Admits, AlreadyDone, LockFree, FirstPending, TickOn,
      CallSimulationStep, MintStep, SpawnStep, ParentTimeoutStep, ReadBackStep, FailStep, CheckResultStep, FinishStep,
      CompensateStep, QuarantineStep, Gone, ClaimStep, ArmStep, InspectStep, JournalStep, ClearStep, StartCommandStep,
      CommandReturnsStep, ReinspectStep, SettleStep, ConfirmStep, ReportStep, KillExecutorStep, Unanswered, DaemonOf,
      MintedBy, AboutToMutate, Justified, SettledFor, MayStillMutate, NoForwardYet, BeforeJournal, ClientStep,
      EnrollStep, TickStep, WorkerStep, ExecutorStep, LateEffectStep, FlapStep, AdvanceStep, ForeignStep, Live,
      Matches, KindOf, Target, Holds, HasNonce, OperationOk, InstanceOk, LeaseOk, EffectOk, WorkerOk, ExecutorOk, Log,
      Settlements, Minting, Queue, Untried, Exclusive, Processes, Ledger, WorkerAccounted, ExecutorAccounted, Step,
      Safe, Accounted, Coupling, Journaling;
    if labels != [] {
      var before := labels[..|labels| - 1];
      RunKeepsAccounted(w, before);
      RunKeepsSafe(w, before);
      StepKeepsAccounted(Run(w, before), labels[|labels| - 1]);
    }
  }
}
