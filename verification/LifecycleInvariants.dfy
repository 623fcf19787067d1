/**
 What every step of the lifecycle machine keeps, foreign writers included.
 */
module LifecycleInvariants {
  import opened Schema
  import opened LifecycleModel
  import opened LifecycleMachine
  import opened LifecycleFrames

  // ------------------------------------------------- instances and operations

  /** An operation that has not reached `committed` or `rolled_back`. */
  ghost predicate Live(phase: Phase) { phase != Committed && phase != RolledBack }

  /** The instance states an operation phase may show up in, and the other way round. */
  ghost predicate Matches(state: InstanceState, op: Operation) {
    match state
    case Starting => op.desired == Running && op.phase in {Queued, Applying, RollingBack}
    case Stopping => op.desired == Stopped && op.phase in {Queued, Applying, RollingBack}
    case Recovering => op.phase == RollingBack
    case RecoveryRequired => op.phase == Quarantined
    case _ => false
  }

  ghost predicate OperationOk(db: Db, o: OpId)
    requires o in db.operations
  {
    var op := db.operations[o];
    && op.id == o
    && op.instance in db.instances
    && op.policy == db.instances[op.instance].policy
    && (Live(op.phase) ==> db.instances[op.instance].operation == Some(o))
  }

  ghost predicate InstanceOk(db: Db, id: InstanceId)
    requires id in db.instances
  {
    var i := db.instances[id];
    match i.operation
    case None =>
      && (i.state.Requested? || i.state.Rejected? || i.state.Idle?)
      && (i.state.Idle? ==> i.observation.Some? && i.observation.value.state == i.state.run)
    case Some(o) =>
      && o in db.operations
      && var op := db.operations[o];
      && op.instance == id
      && Live(op.phase)
      && Matches(i.state, op)
      && i.observation == Some(op.baseline)
      && op.baseline.state != op.desired
      && op.fence == (if op.phase == Queued then None else Some(i.fence))
  }

  ghost predicate Coupling(db: Db) {
    && (forall o | o in db.operations :: OperationOk(db, o))
    && (forall id | id in db.instances :: InstanceOk(db, id))
  }

  /** Coupling survives when one instance and one operation of that instance change. */
  lemma LocalChange(db: Db, db': Db, id: InstanceId, o: OpId)
    requires Coupling(db) && id in db'.instances && o in db'.operations
    requires db'.instances == db.instances[id := db'.instances[id]]
    requires db'.operations == db.operations[o := db'.operations[o]]
    requires db'.operations[o].instance == id
    requires o in db.operations ==> db.operations[o].instance == id
    requires id in db.instances ==>
      && db.instances[id].policy == db'.instances[id].policy
      && (db.instances[id].operation.Some? ==> db.instances[id].operation == Some(o))
    requires OperationOk(db', o) && InstanceOk(db', id)
    ensures Coupling(db')
  {
    forall p | p in db'.operations
      ensures OperationOk(db', p)
    {
      if p != o { assert OperationOk(db, p); }
    }
    forall j | j in db'.instances
      ensures InstanceOk(db', j)
    {
      if j != id { assert InstanceOk(db, j); }
    }
  }

  lemma SameTables(db: Db, db': Db)
    requires Coupling(db) && db'.instances == db.instances && db'.operations == db.operations
    ensures Coupling(db')
  {
    forall o | o in db'.operations
      ensures OperationOk(db', o)
    {
      assert OperationOk(db, o);
    }
    forall id | id in db'.instances
      ensures InstanceOk(db', id)
    {
      assert InstanceOk(db, id);
    }
  }

  lemma InstanceChange(db: Db, db': Db, id: InstanceId)
    requires Coupling(db) && id in db'.instances
    requires db'.instances == db.instances[id := db'.instances[id]] && db'.operations == db.operations
    requires id in db.instances ==>
      db.instances[id].policy == db'.instances[id].policy && db.instances[id].operation == None
    requires db'.instances[id].operation == None && InstanceOk(db', id)
    ensures Coupling(db')
  {
    forall p | p in db'.operations
      ensures OperationOk(db', p)
    {
      assert OperationOk(db, p);
    }
    forall j | j in db'.instances
      ensures InstanceOk(db', j)
    {
      if j != id { assert InstanceOk(db, j); }
    }
  }

  /** What admission may do to rows a worker or an executor relies on: nothing, except
      that `recover` reopens a quarantined operation. */
  ghost predicate Undisturbed(db: Db, db': Db) {
    && db'.leases == db.leases && db'.effects == db.effects
    && (forall o | o in db.operations ::
         && o in db'.operations
         && (|| db'.operations[o] == db.operations[o]
             || (&& db.operations[o].phase == Quarantined
                 && db'.operations[o] == db.operations[o].(phase := RollingBack, error := false))))
    && (forall id | id in db.instances ::
         && id in db'.instances
         && db'.instances[id].policy == db.instances[id].policy
         && db'.instances[id].fence >= db.instances[id].fence
         && (db.instances[id].operation.Some? ==>
               && db'.instances[id].operation == db.instances[id].operation
               && db'.instances[id].fence == db.instances[id].fence))
  }

  /** What one admission may do to the row it addresses, given what was inspected. */
  ghost predicate Grounded(db: Db, db': Db, id: InstanceId, inspected: Option<Obs>) {
    && (forall j | j in db.instances :: j in db'.instances)
    && (forall j | j in db'.instances && j != id :: j in db.instances && db'.instances[j] == db.instances[j])
    && (id in db'.instances ==>
          var i := db'.instances[id];
          && (i.state.Idle? ==>
                || (id in db.instances && db.instances[id].state.Idle? && db.instances[id].observation == i.observation)
                || (inspected.Some? && i.observation == inspected && id in db.instances))
          && (i.operation.Some? ==>
                || (id in db.instances && db.instances[id].operation == i.operation)
                || (&& inspected.Some? && id in db.instances
                    && i.operation.value !in db.operations && i.operation.value in db'.operations
                    && db'.operations[i.operation.value].baseline == inspected.value)))
    && (forall o | o in db.operations :: o in db'.operations && db'.operations[o].baseline == db.operations[o].baseline)
  }

  /** The documents once the action's instance row is written. */
  ghost function Written(tx: Tx<Db, Change, Error>, id: InstanceId): Db
    requires tx.Done?
  {
    tx.docs.(instances := tx.docs.instances[id := tx.value.instance])
  }

  lemma ApproveKeeps(db: Db, id: InstanceId, host: Host, probe: Probe)
    requires Coupling(db) && id in db.instances
    ensures var tx := ApproveTx(db, id, db.instances[id], host, probe);
            tx.Done? ==>
              Coupling(Written(tx, id)) && Undisturbed(db, Written(tx, id)) && Grounded(db, Written(tx, id), id, probe.inspected)
  {
    var tx := ApproveTx(db, id, db.instances[id], host, probe);
    assert InstanceOk(db, id);
    if tx.Done? { InstanceChange(db, Written(tx, id), id); }
  }

  lemma TransferKeeps(db: Db, id: InstanceId, newOwner: Uid, host: Host)
    requires Coupling(db) && id in db.instances
    ensures var tx := TransferTx(db, db.instances[id], newOwner, host);
            tx.Done? ==>
              Coupling(Written(tx, id)) && Undisturbed(db, Written(tx, id)) && Grounded(db, Written(tx, id), id, None)
  {
    var tx := TransferTx(db, db.instances[id], newOwner, host);
    assert InstanceOk(db, id);
    if tx.Done? { InstanceChange(db, Written(tx, id), id); }
  }

  lemma RecoverCouples(db: Db, id: InstanceId)
    requires Coupling(db) && id in db.instances
    ensures var tx := RecoverTx(db, db.instances[id]); tx.Done? ==> Coupling(Written(tx, id))
  {
    hide Live;
    var tx := RecoverTx(db, db.instances[id]);
    assert InstanceOk(db, id);
    if tx.Done? {
      assert OperationOk(db, tx.value.operation.value);
      LocalChange(db, Written(tx, id), id, tx.value.operation.value);
    }
  }

  lemma RecoverDisturbs(db: Db, id: InstanceId)
    requires id in db.instances && InstanceOk(db, id)
    requires db.instances[id].operation.Some? && db.instances[id].operation.value in db.operations ==>
      db.operations[db.instances[id].operation.value].id == db.instances[id].operation.value
    ensures var tx := RecoverTx(db, db.instances[id]); tx.Done? ==> Undisturbed(db, Written(tx, id))
  {
    hide Matches;
    assert db.instances[id].state == RecoveryRequired && db.instances[id].operation.Some? ==>
      db.instances[id].operation.value in db.operations && db.operations[db.instances[id].operation.value].phase == Quarantined by {
      MatchesQuarantine(db, id);
    }
  }

  lemma MatchesQuarantine(db: Db, id: InstanceId)
    requires id in db.instances && InstanceOk(db, id)
    ensures var i := db.instances[id];
            i.state == RecoveryRequired && i.operation.Some? ==>
              i.operation.value in db.operations && db.operations[i.operation.value].phase == Quarantined
  {}

  lemma RecoverGrounds(db: Db, id: InstanceId)
    requires id in db.instances && InstanceOk(db, id)
    requires db.instances[id].operation.Some? && db.instances[id].operation.value in db.operations ==>
      db.operations[db.instances[id].operation.value].id == db.instances[id].operation.value
    ensures var tx := RecoverTx(db, db.instances[id]); tx.Done? ==> Grounded(db, Written(tx, id), id, None)
  {}

  lemma RecoverKeeps(db: Db, id: InstanceId)
    requires Coupling(db) && id in db.instances
    ensures var tx := RecoverTx(db, db.instances[id]);
            tx.Done? ==>
              Coupling(Written(tx, id)) && Undisturbed(db, Written(tx, id)) && Grounded(db, Written(tx, id), id, None)
  {
    assert InstanceOk(db, id);
    if db.instances[id].operation.Some? { assert OperationOk(db, db.instances[id].operation.value); }
    hide Coupling, Undisturbed, Grounded, RecoverTx, InstanceOk;
    RecoverCouples(db, id);
    RecoverDisturbs(db, id);
    RecoverGrounds(db, id);
  }

  lemma ChangeCouples(db: Db, uid: Uid, id: InstanceId, desired: RunState, host: Host, probe: Probe)
    requires Coupling(db) && id in db.instances && probe.op !in db.operations
    ensures var tx := ChangeTx(db, uid, id, db.instances[id], desired, host, probe); tx.Done? ==> Coupling(Written(tx, id))
  {
    hide PolicyHolds, Matches;
    var tx := ChangeTx(db, uid, id, db.instances[id], desired, host, probe);
    assert InstanceOk(db, id);
    if tx.Done? { LocalChange(db, Written(tx, id), id, probe.op); }
  }

  lemma ChangeDisturbsNothing(db: Db, uid: Uid, id: InstanceId, desired: RunState, host: Host, probe: Probe)
    requires id in db.instances && probe.op !in db.operations
    ensures var tx := ChangeTx(db, uid, id, db.instances[id], desired, host, probe); tx.Done? ==> Undisturbed(db, Written(tx, id))
  {
    hide PolicyHolds;
  }

  lemma ChangeGrounds(db: Db, uid: Uid, id: InstanceId, desired: RunState, host: Host, probe: Probe)
    requires Coupling(db) && id in db.instances && probe.op !in db.operations
    ensures var tx := ChangeTx(db, uid, id, db.instances[id], desired, host, probe); tx.Done? ==> Grounded(db, Written(tx, id), id, probe.inspected)
  {
    hide PolicyHolds, Matches;
    assert InstanceOk(db, id);
  }

  lemma ChangeKeeps(db: Db, uid: Uid, id: InstanceId, desired: RunState, host: Host, probe: Probe)
    requires Coupling(db) && id in db.instances && probe.op !in db.operations
    ensures var tx := ChangeTx(db, uid, id, db.instances[id], desired, host, probe);
            tx.Done? ==>
              Coupling(Written(tx, id)) && Undisturbed(db, Written(tx, id)) && Grounded(db, Written(tx, id), id, probe.inspected)
  {
    hide Coupling, Undisturbed, Grounded, ChangeTx;
    ChangeCouples(db, uid, id, desired, host, probe);
    ChangeDisturbsNothing(db, uid, id, desired, host, probe);
    ChangeGrounds(db, uid, id, desired, host, probe);
  }

  /** Generation, saved responses, claims and audit events play no part in coupling. */
  lemma RenumberKeepsCoupling(mid: Db, db': Db, id: InstanceId, g: nat)
    requires Coupling(mid) && id in mid.instances && db'.operations == mid.operations
    requires db'.instances == mid.instances[id := mid.instances[id].(generation := g)]
    ensures Coupling(db')
  {
    hide Live, Matches;
    forall o | o in db'.operations
      ensures OperationOk(db', o)
    {
      assert OperationOk(mid, o);
    }
    forall j | j in db'.instances
      ensures InstanceOk(db', j)
    {
      assert InstanceOk(mid, j);
    }
  }

  lemma RenumberUndisturbed(db: Db, mid: Db, db': Db, id: InstanceId, g: nat)
    requires Undisturbed(db, mid) && id in mid.instances
    requires db'.instances == mid.instances[id := mid.instances[id].(generation := g)]
    requires db'.operations == mid.operations && db'.leases == mid.leases && db'.effects == mid.effects
    ensures Undisturbed(db, db')
  {}

  lemma RenumberGrounded(db: Db, mid: Db, db': Db, id: InstanceId, inspected: Option<Obs>, g: nat)
    requires Grounded(db, mid, id, inspected) && id in mid.instances
    requires db'.instances == mid.instances[id := mid.instances[id].(generation := g)]
    requires db'.operations == mid.operations && db'.leases == mid.leases && db'.effects == mid.effects
    ensures Grounded(db, db', id, inspected)
  {}

  lemma Renumber(db: Db, mid: Db, db': Db, id: InstanceId, inspected: Option<Obs>, g: nat)
    requires Coupling(mid) && Undisturbed(db, mid) && Grounded(db, mid, id, inspected) && id in mid.instances
    requires db'.instances == mid.instances[id := mid.instances[id].(generation := g)]
    requires db'.operations == mid.operations && db'.leases == mid.leases && db'.effects == mid.effects
    ensures Coupling(db') && Undisturbed(db, db') && Grounded(db, db', id, inspected)
  {
    hide Coupling, Undisturbed, Grounded;
    RenumberKeepsCoupling(mid, db', id, g);
    RenumberUndisturbed(db, mid, db', id, g);
    RenumberGrounded(db, mid, db', id, inspected, g);
  }

  lemma RejectKeeps(db: Db, id: InstanceId)
    requires Coupling(db) && id in db.instances && db.instances[id].state == Requested
    ensures var db' := db.(instances := db.instances[id := db.instances[id].(state := Rejected)]);
            Coupling(db') && Undisturbed(db, db') && forall seen :: Grounded(db, db', id, seen)
  {
    assert InstanceOk(db, id);
    InstanceChange(db, db.(instances := db.instances[id := db.instances[id].(state := Rejected)]), id);
  }

  lemma GroundsAnyway(db: Db, db': Db, id: InstanceId, seen: Option<Obs>)
    requires Grounded(db, db', id, None)
    ensures Grounded(db, db', id, seen)
  {}

  lemma ActionKeeps(db: Db, uid: Uid, req: Request, host: Host, probe: Probe)
    requires Coupling(db) && probe.op !in db.operations && !req.action.Create? && req.instance in db.instances
    ensures var tx := ActionTx(db, uid, req, db.instances[req.instance], host, probe);
            tx.Done? ==>
              && Coupling(Written(tx, req.instance)) && Undisturbed(db, Written(tx, req.instance))
              && Grounded(db, Written(tx, req.instance), req.instance, probe.inspected)
  {
    hide Coupling, Undisturbed, Grounded, ApproveTx, TransferTx, RecoverTx, ChangeTx;
    var id := req.instance;
    match req.action
    case Approve(_) => ApproveKeeps(db, id, host, probe);
    case Reject(_) => if db.instances[id].state == Requested { RejectKeeps(db, id); }
    case Transfer(_, newOwner) =>
      TransferKeeps(db, id, newOwner, host);
      var tx := TransferTx(db, db.instances[id], newOwner, host);
      if tx.Done? { GroundsAnyway(db, Written(tx, id), id, probe.inspected); }
    case Recover(_) =>
      RecoverKeeps(db, id);
      if RecoverTx(db, db.instances[id]).Done? { GroundsAnyway(db, Written(RecoverTx(db, db.instances[id]), id), id, probe.inspected); }
    case Start(_) => ChangeKeeps(db, uid, id, Running, host, probe);
    case Stop(_) => ChangeKeeps(db, uid, id, Stopped, host, probe);
  }

  lemma MutateKeeps(db: Db, uid: Uid, req: Request, host: Host, probe: Probe)
    requires Coupling(db) && probe.op !in db.operations && !req.action.Create?
    ensures var tx := MutateTx(db, uid, req, host, probe);
            tx.Done? ==>
              && Coupling(Written(tx, req.instance)) && Undisturbed(db, Written(tx, req.instance))
              && Grounded(db, Written(tx, req.instance), req.instance, probe.inspected)
  {
    hide Coupling, Undisturbed, Grounded, ActionTx;
    var tx := MutateTx(db, uid, req, host, probe);
    if tx.Done? {
      var id := req.instance;
      var inner := ActionTx(db, uid, req, db.instances[id], host, probe);
      ActionKeeps(db, uid, req, host, probe);
      var g := tx.value.instance.generation;
      assert Written(tx, id).instances == Written(inner, id).instances[id := Written(inner, id).instances[id].(generation := g)];
      Renumber(db, Written(inner, id), Written(tx, id), id, probe.inspected, g);
    }
  }

  lemma AdmitKeeps(db: Db, uid: Uid, req: Request, host: Host, probe: Probe)
    requires Coupling(db) && probe.op !in db.operations
    ensures var db' := After(AdmitTx(db, uid, req, host, probe), db);
            Coupling(db') && Undisturbed(db, db') && Grounded(db, db', req.instance, probe.inspected)
  {
    hide MutateTx, AdminOnly, ActionTx, Live, Matches, PolicyHolds, View, PutOnce, ApproveTx, TransferTx, RecoverTx,
      ChangeTx, ClaimAll, Coupling;
    var tx := AdmitTx(db, uid, req, host, probe);
    var id := req.instance;
    if tx.Done? && Key(uid, req.id) !in db.requests {
      var inner := if req.action.Create? then CreateTx(db, uid, req, host) else MutateTx(db, uid, req, host, probe);
      var mid := Written(inner, id);
      if req.action.Create? { InstanceChange(db, mid, id); } else { MutateKeeps(db, uid, req, host, probe); }
      var g := inner.value.instance.generation;
      assert tx.docs.instances == mid.instances[id := mid.instances[id].(generation := g)];
      Renumber(db, mid, tx.docs, id, probe.inspected, g);
    }
  }

  lemma ReserveKeepsCoupling(db: Db, o: OpId, enabled: bool)
    requires Coupling(db) && Pending(db, o)
    ensures ReserveTx(db, o, enabled).Done?
    ensures Coupling(ReserveTx(db, o, enabled).docs)
  {
    assert OperationOk(db, o);
    assert InstanceOk(db, db.operations[o].instance);
    LocalChange(db, ReserveTx(db, o, enabled).docs, db.operations[o].instance, o);
  }

  /** The worker's own operation is still its instance's current one, at its fence. */
  ghost predicate Holds(db: Db, op: Operation) {
    && op.id in db.operations && db.operations[op.id] == op
    && op.instance in db.instances
    && db.instances[op.instance].operation == Some(op.id)
    && op.fence == Some(db.instances[op.instance].fence)
  }

  lemma FinishKeepsCoupling(db: Db, op: Operation, observation: Option<Obs>, phase: Phase)
    requires Coupling(db) && Holds(db, op) && phase in {Committed, RolledBack, Quarantined}
    requires phase != Quarantined ==> observation.Some?
    requires op.phase in {Applying, RollingBack}
    ensures FinishTx(db, op, observation, phase).Done?
    ensures Coupling(FinishTx(db, op, observation, phase).docs)
  {
    assert OperationOk(db, op.id) && InstanceOk(db, op.instance);
    LocalChange(db, FinishTx(db, op, observation, phase).docs, op.instance, op.id);
  }

  lemma CompensateKeepsCoupling(db: Db, op: Operation)
    requires Coupling(db) && Holds(db, op) && op.phase in {Applying, RollingBack}
    ensures Coupling(CompensateTx(db, op).docs)
  {
    assert OperationOk(db, op.id) && InstanceOk(db, op.instance);
    LocalChange(db, CompensateTx(db, op).docs, op.instance, op.id);
  }

  // ------------------------------------------------------- leases and journal

  ghost predicate LeaseOk(db: Db, n: Nonce)
    requires n in db.leases
  {
    var l := db.leases[n];
    && l.op in db.operations && db.operations[l.op].instance == l.instance
    && l.instance in db.instances && l.fence <= db.instances[l.instance].fence
    && KindOf(db.instances[l.instance]) == Production
  }

  ghost predicate EffectOk(db: Db, id: InstanceId)
    requires id in db.effects
  {
    var r := db.effects[id];
    && id in db.instances && KindOf(db.instances[id]) == Production
    && r.op in db.operations && db.operations[r.op].instance == id
    && r.desired == Target(db.operations[r.op], r.restore) && r.fence <= db.instances[id].fence
    && (r.phase == Intent ==> db.instances[id].operation == Some(r.op))
    && (r.phase != Intent ==> r.observation.Some?)
    && (r.phase == Verified ==> r.observation.value.state == r.desired)
  }

  ghost predicate Journaling(db: Db) {
    && (forall n | n in db.leases :: LeaseOk(db, n))
    && (forall id | id in db.effects :: EffectOk(db, id))
  }

  lemma UndisturbedKeepsJournaling(db: Db, db': Db)
    requires Journaling(db) && Undisturbed(db, db')
    ensures Journaling(db')
  {
    forall n | n in db'.leases
      ensures LeaseOk(db', n)
    {
      assert LeaseOk(db, n);
    }
    forall id | id in db'.effects
      ensures EffectOk(db', id)
    {
      assert EffectOk(db, id);
    }
  }

  // --------------------------------------------------- workers and executors

  ghost predicate HasNonce(at: WorkerAt) { at.Minted? || at.Waiting? || at.ChildDone? }

  ghost predicate WorkerLease(db: Db, k: Worker, n: Nonce) {
    && n in db.leases
    && var l := db.leases[n];
       l.op == k.op.id && l.instance == k.op.instance && Some(l.fence) == k.op.fence && l.restore == k.restore
  }

  /** A production call that returned left a verified record behind. */
  ghost predicate Proven(db: Db, k: Worker, result: Obs) {
    k.op.policy.content.backend == Production ==>
      && k.op.instance in db.effects
      && var r := db.effects[k.op.instance];
         r.phase == Verified && r.op == k.op.id && r.observation == Some(result) && r.restore == k.restore
         && Some(r.fence) == k.op.fence
  }

  ghost predicate WorkerOk(db: Db, k: Worker) {
    && Holds(db, k.op)
    && k.op.phase == (if k.restore then RollingBack else Applying)
    && (k.second ==> k.restore && !k.at.Failing?)
    && (HasNonce(k.at) ==> WorkerLease(db, k, k.at.nonce))
    && (k.at.Returned? ==> Proven(db, k, k.at.result))
    && (k.at.Checked? ==> Proven(db, k, k.at.result) && k.at.result.state == Target(k.op, k.restore))
  }

  /** The operation behind a live executor is still current, at the lease's fence. */
  ghost predicate Current(db: Db, l: Lease) {
    && l.op in db.operations && l.instance in db.instances
    && db.operations[l.op].instance == l.instance
    && db.instances[l.instance].operation == Some(l.op)
    && db.instances[l.instance].fence == l.fence
    && db.operations[l.op].fence == Some(l.fence)
    && db.operations[l.op].phase in {Applying, RollingBack, Quarantined}
  }

  ghost predicate ClaimOk(db: Db, n: Nonce, claim: Claim)
    requires n in db.leases
  {
    && claim.lease.(consumed := true) == db.leases[n]
    && claim.lease.op in db.operations
    && var op := db.operations[claim.lease.op];
       claim.op.id == op.id && claim.op.instance == op.instance && claim.op.baseline == op.baseline
       && claim.op.desired == op.desired && claim.op.id == claim.lease.op
  }

  ghost predicate WroteSettled(at: ExecutorAt) { at.Confirming? || at.Confirmed? }

  /** An executor past its intent transaction owns the journal record. */
  ghost predicate RecordOk(db: Db, claim: Claim, record: Effect) {
    && claim.lease.instance in db.effects && db.effects[claim.lease.instance] == record
    && record.op == claim.op.id && record.fence == claim.lease.fence && record.restore == claim.lease.restore
    && record.desired == Target(claim.op, claim.lease.restore)
  }

  ghost predicate ExecutorOk(db: Db, x: Executor) {
    && x.nonce in db.leases
    && Current(db, db.leases[x.nonce])
    && (!x.at.Unclaimed? ==> ClaimOk(db, x.nonce, x.at.claim))
    && (Owns(x.at) ==>
          && RecordOk(db, x.at.claim, x.at.record) && x.at.record.phase == Intent
          && x.at.record.before.state != x.at.record.desired)
    && (WroteSettled(x.at) ==>
          && RecordOk(db, x.at.claim, x.at.record) && x.at.record.phase == Settled
          && x.at.record.observation.Some?)
    && (x.at.Confirmed? ==>
          && x.at.seen.state == x.at.record.desired
          && SameRuntime(x.at.seen, x.at.record.observation.value))
  }

  /** One worker, one executor, and never both acting: the worker is inside
      `communicate`, or has given up and may only write `recovery_required`. */
  ghost predicate Exclusive(w: World) {
    && (forall p, q | p in w.workers && q in w.workers :: p == q)
    && (forall e, f | e in w.executors && f in w.executors :: e == f)
    && (forall p, e | p in w.workers && e in w.executors ::
          || (w.workers[p].at.Waiting? && w.workers[p].at.child == e && w.workers[p].at.nonce == w.executors[e].nonce)
          || w.workers[p].at.Quarantining?)
  }

  ghost predicate Processes(w: World) {
    && (forall p | p in w.workers :: WorkerOk(w.db, w.workers[p]))
    && (forall e | e in w.executors :: ExecutorOk(w.db, w.executors[e]))
  }

  ghost predicate Safe(w: World) {
    Coupling(w.db) && Journaling(w.db) && Exclusive(w) && Processes(w)
  }

  // ------------------------------------------------------------- one step each

  lemma InitialSafe(w: World)
    requires Initial(w)
    ensures Safe(w)
  {}

  lemma UndisturbedKeepsWorker(db: Db, db': Db, k: Worker)
    requires WorkerOk(db, k) && Coupling(db) && Undisturbed(db, db') && k.op.phase != Quarantined
    ensures WorkerOk(db', k)
  {}

  lemma UndisturbedKeepsExecutor(db: Db, db': Db, x: Executor)
    requires ExecutorOk(db, x) && Undisturbed(db, db')
    ensures ExecutorOk(db', x)
  {
    var l := db.leases[x.nonce];
    assert l.op in db'.operations && l.instance in db'.instances;
  }

  lemma UndisturbedKeepsProcesses(w: World, w': World)
    requires Processes(w) && Coupling(w.db) && Undisturbed(w.db, w'.db)
    requires w'.workers == w.workers && w'.executors == w.executors
    ensures Processes(w')
  {
    hide Undisturbed, Coupling, ExecutorOk;
    forall p | p in w'.workers
      ensures WorkerOk(w'.db, w'.workers[p])
    {
      UndisturbedKeepsWorker(w.db, w'.db, w.workers[p]);
    }
    forall e | e in w'.executors
      ensures ExecutorOk(w'.db, w'.executors[e])
    {
      UndisturbedKeepsExecutor(w.db, w'.db, w.executors[e]);
    }
  }

  /** A dispatch that changes anything did so in its admission, or added an event. */
  lemma DispatchKeeps(db: Db, uid: Uid, req: Request, host: Host, probe: Probe, busy: bool, auditBusy: bool)
    requires Coupling(db) && probe.op !in db.operations
    ensures var db' := Dispatch(db, uid, req, host, probe, busy, auditBusy).0; Coupling(db') && (db' == db || Undisturbed(db, db'))
  {
    hide AdmitTx, Grounded, Coupling;
    var mid := After(AdmitTx(db, uid, req, host, probe), db);
    var db' := Dispatch(db, uid, req, host, probe, busy, auditBusy).0;
    AdmitKeeps(db, uid, req, host, probe);
    if db' != db { SameTables(mid, db'); }
  }

  /** Admission never touches an operation some process is working on. */
  lemma ClientKeepsSafe(w: World, l: Label)
    requires Safe(w) && l.Client?
    ensures Safe(ClientStep(w, l))
  {
    hide Dispatch, Journaling, Undisturbed, Coupling, Processes, Target, Live, Matches, Holds, HasNonce, WorkerLease,
      Proven, Current, ClaimOk, Owns, RecordOk, WroteSettled, SameRuntime, DaemonOf, SimOf, PolicyHolds, AdminOnly,
      ActionTx, View, PutOnce, RuntimeIn, OperationOk, InstanceOk, WorkerOk, ExecutorOk, Distinct, Actual, KindOf,
      Access, CreateTx, MutateTx, Record, Admits, AlreadyDone, AdmitTx, LeaseOk, EffectOk;
    var w' := ClientStep(w, l);
    if ValidHost(l.host) && l.uuid !in w.db.operations && w'.db != w.db {
      DispatchKeeps(w.db, l.uid, l.req, l.host, ProbeFor(w, l), l.busy, l.auditBusy);
      UndisturbedKeepsJournaling(w.db, w'.db);
      UndisturbedKeepsProcesses(w, w');
    } else {
      assert w'.db == w.db;
      SameStoreKeepsSafe(w, w');
    }
  }

  /** Neither store nor processes change. */
  lemma SameStoreKeepsSafe(w: World, w': World)
    requires Safe(w) && w'.db == w.db.(registrations := w'.db.registrations)
    requires w'.workers == w.workers && w'.executors == w.executors
    ensures Safe(w')
  {
    SameTables(w.db, w'.db);
    UndisturbedKeepsJournaling(w.db, w'.db);
    UndisturbedKeepsProcesses(w, w');
  }

  /** A worker moves on without writing to the store and without a live helper. */
  lemma WorkerMovesKeepsSafe(w: World, w': World, pid: Pid)
    requires Safe(w) && w'.db == w.db && w'.executors == w.executors && pid in w.workers
    requires pid in w'.workers && w'.workers == w.workers[pid := w'.workers[pid]]
    requires WorkerOk(w'.db, w'.workers[pid])
    requires w.executors == map[] || w'.workers[pid].at.Quarantining?
    ensures Safe(w')
  {
    assert forall p | p in w'.workers :: p == pid;
    forall e | e in w'.executors
      ensures ExecutorOk(w'.db, w'.executors[e])
    {
      assert ExecutorOk(w.db, w.executors[e]);
    }
  }

  /** A lone worker writes to the store and moves on. */
  lemma WorkerWritesKeepsSafe(w: World, w': World, pid: Pid)
    requires Safe(w) && w.executors == map[] && pid in w.workers && w.workers.Keys == {pid}
    requires w'.executors == map[] && pid in w'.workers && w'.workers == w.workers[pid := w'.workers[pid]]
    requires Coupling(w'.db) && Journaling(w'.db) && WorkerOk(w'.db, w'.workers[pid])
    ensures Safe(w')
  {
    assert forall p | p in w'.workers :: p == pid;
  }

  lemma WorkerGoneKeepsSafe(w: World, pid: Pid)
    requires Safe(w)
    ensures Safe(Gone(w, pid))
  {
    var w' := Gone(w, pid);
    forall p | p in w'.workers
      ensures WorkerOk(w'.db, w'.workers[p])
    {
      assert WorkerOk(w.db, w.workers[p]);
    }
    forall e | e in w'.executors
      ensures ExecutorOk(w'.db, w'.executors[e])
    {
      assert ExecutorOk(w.db, w.executors[e]);
    }
  }

  /** A worker that is not in `communicate` and has not given up runs alone. */
  lemma Alone(w: World, pid: Pid)
    requires Exclusive(w) && pid in w.workers
    requires !w.workers[pid].at.Waiting? && !w.workers[pid].at.Quarantining?
    ensures w.executors == map[] && w.workers == map[pid := w.workers[pid]]
  {
    forall p | p in w.workers
      ensures p == pid
    {}
    forall e | e in w.executors
      ensures false
    {}
  }

  lemma TickOnKeepsSafe(w: World, pid: Pid, o: OpId, enabled: bool)
    requires Safe(w) && LockFree(w) && Pending(w.db, o)
    ensures Safe(TickOn(w, pid, o, enabled))
  {
    assert OperationOk(w.db, o) && InstanceOk(w.db, w.db.operations[o].instance);
    ReserveKeepsCoupling(w.db, o, enabled);
    ReserveKeepsJournaling(w.db, o, enabled);
    var w' := TickOn(w, pid, o, enabled);
    assert w'.workers.Keys == {pid};
    assert WorkerOk(w'.db, w'.workers[pid]);
  }

  lemma TickKeepsSafe(w: World, pid: Pid, enabled: bool)
    requires Safe(w)
    ensures Safe(TickStep(w, pid, enabled))
  {
    if LockFree(w) && exists o :: FirstPending(w.db, o) {
      var o :| FirstPending(w.db, o) && TickStep(w, pid, enabled) == TickOn(w, pid, o, enabled);
      TickOnKeepsSafe(w, pid, o, enabled);
    }
  }

  lemma ReserveKeepsJournaling(db: Db, o: OpId, enabled: bool)
    requires Coupling(db) && Journaling(db) && Pending(db, o) && ReserveTx(db, o, enabled).Done?
    ensures Journaling(ReserveTx(db, o, enabled).docs)
  {
    hide OperationOk, InstanceOk, Terminal, Coupling;
    var db' := ReserveTx(db, o, enabled).docs;
    forall n | n in db'.leases
      ensures LeaseOk(db', n)
    {
      assert LeaseOk(db, n);
    }
    forall id | id in db'.effects
      ensures EffectOk(db', id)
    {
      assert EffectOk(db, id);
    }
  }

  lemma FailKeepsSafe(w: World, pid: Pid)
    requires Safe(w) && pid in w.workers
    requires !w.workers[pid].at.Waiting? && !w.workers[pid].at.Quarantining?
    ensures Safe(Put(w, pid, Failed(w.workers[pid])))
  {
    Alone(w, pid);
    assert WorkerOk(w.db, w.workers[pid]);
    WorkerMovesKeepsSafe(w, Put(w, pid, Failed(w.workers[pid])), pid);
  }

  /** The simulated resource is not part of the authority's store. */
  lemma SimulationKeepsSafe(w: World, sim: map<InstanceId, SimResource>)
    requires Safe(w)
    ensures Safe(w.(sim := sim))
  {
    SameStoreKeepsSafe(w, w.(sim := sim));
  }

  lemma ReturnKeepsSafe(w: World, pid: Pid, result: Obs)
    requires Safe(w) && pid in w.workers && (w.workers[pid].at.Calling? || w.workers[pid].at.ChildDone?)
    requires Proven(w.db, w.workers[pid], result)
    ensures Safe(Put(w, pid, w.workers[pid].(at := Returned(result))))
  {
    Alone(w, pid);
    assert WorkerOk(w.db, w.workers[pid]);
    WorkerMovesKeepsSafe(w, Put(w, pid, w.workers[pid].(at := Returned(result))), pid);
  }

  lemma CallSimulationKeepsSafe(w: World, pid: Pid, fault: bool)
    requires Safe(w)
    ensures Safe(CallSimulationStep(w, pid, fault))
  {
    hide OperationOk, InstanceOk, LeaseOk, EffectOk, ExecutorOk, SimOf, Live, Matches, KindOf, Current, ClaimOk, Owns,
      RecordOk, WroteSettled, SameRuntime;
    var w' := CallSimulationStep(w, pid, fault);
    if w' != w {
      var k := w.workers[pid];
      SimulationKeepsSafe(w, w'.sim);
      var mid := w.(sim := w'.sim);
      assert WorkerOk(mid.db, k);
      if w'.workers[pid].at.Returned? {
        assert w' == Put(mid, pid, k.(at := Returned(w'.workers[pid].at.result)));
        ReturnKeepsSafe(mid, pid, w'.workers[pid].at.result);
      } else {
        assert w' == Put(mid, pid, Failed(k));
        FailKeepsSafe(mid, pid);
      }
    }
  }

  lemma MintKeepsDb(db: Db, op: Operation, restore: bool, enabled: bool, bound: bool,
                    nonce: Nonce, binding: nat, expires: real)
    requires Coupling(db) && Journaling(db) && Holds(db, op) && nonce !in db.leases
    requires op.policy.content.backend == Production
    ensures var tx := MintTx(db, op, restore, enabled, bound, nonce, binding, expires);
            tx.Done? ==>
              && Coupling(tx.docs) && Journaling(tx.docs) && Holds(tx.docs, op) && tx.docs.effects == db.effects
              && nonce in tx.docs.leases
              && tx.docs.leases[nonce] == Lease(op.id, op.instance, op.fence.value, restore, binding, false, expires)
  {
    hide InstanceOk, Owned;
    var db' := After(MintTx(db, op, restore, enabled, bound, nonce, binding, expires), db);
    assert OperationOk(db, op.id);
    SameTables(db, db');
    forall n | n in db'.leases
      ensures LeaseOk(db', n)
    {
      if n in db.leases { assert LeaseOk(db, n); }
    }
    forall id | id in db'.effects
      ensures EffectOk(db', id)
    {
      assert EffectOk(db, id);
    }
  }

  lemma MintedKeepsSafe(w: World, pid: Pid, db': Db, nonce: Nonce)
    requires Safe(w) && pid in w.workers && w.workers[pid].at.Calling?
    requires Coupling(db') && Journaling(db') && Holds(db', w.workers[pid].op)
    requires WorkerLease(db', w.workers[pid], nonce)
    ensures Safe(Put(w.(db := db'), pid, w.workers[pid].(at := Minted(nonce))))
  {
    hide Journaling, Holds, ExecutorOk, Live, Matches, KindOf;
    Alone(w, pid);
    assert WorkerOk(w.db, w.workers[pid]);
    WorkerWritesKeepsSafe(w, Put(w.(db := db'), pid, w.workers[pid].(at := Minted(nonce))), pid);
  }

  lemma MintKeepsSafe(w: World, pid: Pid, enabled: bool, bound: bool, nonce: Nonce, binding: nat)
    requires Safe(w)
    ensures Safe(MintStep(w, pid, enabled, bound, nonce, binding))
  {
    hide InstanceOk, OperationOk, EffectOk, LeaseOk, MintTx, ExecutorOk, Current, ClaimOk, Owns, RecordOk,
      WroteSettled, SameRuntime, Put, Failed, Coupling;
    var w' := MintStep(w, pid, enabled, bound, nonce, binding);
    if w' != w {
      var k := w.workers[pid];
      assert WorkerOk(w.db, k);
      var tx := MintTx(w.db, k.op, k.restore, enabled, bound, nonce, binding, w.now + w.timeouts[k.op.instance]);
      if tx.Raise? {
        FailKeepsSafe(w, pid);
        assert w' == Put(w, pid, Failed(k));
      } else {
        MintKeepsDb(w.db, k.op, k.restore, enabled, bound, nonce, binding, w.now + w.timeouts[k.op.instance]);
        assert w' == Put(w.(db := tx.docs), pid, k.(at := Minted(nonce)));
        MintedKeepsSafe(w, pid, tx.docs, nonce);
      }
    }
  }

  lemma SpawnKeepsSafe(w: World, pid: Pid, child: Pid)
    requires Safe(w)
    ensures Safe(SpawnStep(w, pid, child))
  {
    hide Target, KindOf, OperationOk, InstanceOk, LeaseOk;
    var w' := SpawnStep(w, pid, child);
    if w' != w {
      Alone(w, pid);
      assert WorkerOk(w.db, w.workers[pid]) && LeaseOk(w.db, w.workers[pid].at.nonce);
      assert ExecutorOk(w'.db, w'.executors[child]);
    }
  }

  lemma ParentTimeoutKeepsSafe(w: World, pid: Pid)
    requires Safe(w)
    ensures Safe(ParentTimeoutStep(w, pid))
  {
    hide OperationOk, InstanceOk, LeaseOk, EffectOk, ExecutorOk, Live, Matches, KindOf, Current, ClaimOk, Owns,
      RecordOk, WroteSettled, SameRuntime, Coupling, Journaling, Exclusive;
    var w' := ParentTimeoutStep(w, pid);
    if w' != w {
      assert WorkerOk(w.db, w.workers[pid]);
      WorkerMovesKeepsSafe(w, w', pid);
    }
  }

  lemma ReadBackKeepsSafe(w: World, pid: Pid)
    requires Safe(w)
    ensures Safe(ReadBackStep(w, pid))
  {
    hide OperationOk, InstanceOk, LeaseOk, EffectOk, ExecutorOk, Owned, Live, Matches, KindOf, Current, ClaimOk, Owns,
      RecordOk, WroteSettled, SameRuntime, HasNonce, WorkerLease, Proven, Target, Coupling, Journaling;
    var w' := ReadBackStep(w, pid);
    if w' != w {
      var k := w.workers[pid];
      assert WorkerOk(w.db, k);
      if w'.workers[pid].at.Returned? {
        assert w' == Put(w, pid, k.(at := Returned(w'.workers[pid].at.result)));
        ReturnKeepsSafe(w, pid, w'.workers[pid].at.result);
      } else {
        assert w' == Put(w, pid, Failed(k));
        FailKeepsSafe(w, pid);
      }
    }
  }

  lemma CheckedWorker(w: World, pid: Pid)
    requires pid in w.workers && w.workers[pid].at.Returned? && WorkerOk(w.db, w.workers[pid])
    requires CheckResultStep(w, pid).workers[pid].at.Checked?
    ensures var w' := CheckResultStep(w, pid);
            && w' == w.(workers := w.workers[pid := w'.workers[pid]]) && WorkerOk(w'.db, w'.workers[pid])
  {
    hide Actual, KindOf;
  }

  lemma CheckedKeepsSafe(w: World, pid: Pid)
    requires Safe(w) && pid in w.workers && w.workers[pid].at.Returned? && CheckResultStep(w, pid).workers[pid].at.Checked?
    ensures Safe(CheckResultStep(w, pid))
  {
    hide Coupling, Journaling, Actual, KindOf;
    Alone(w, pid);
    assert WorkerOk(w.db, w.workers[pid]);
    CheckedWorker(w, pid);
    hide Safe, CheckResultStep, WorkerOk;
    WorkerMovesKeepsSafe(w, CheckResultStep(w, pid), pid);
  }

  lemma CheckResultKeepsSafe(w: World, pid: Pid)
    requires Safe(w)
    ensures Safe(CheckResultStep(w, pid))
  {
    hide Safe, Actual;
    if pid in w.workers && w.workers[pid].at.Returned? {
      if CheckResultStep(w, pid).workers[pid].at.Checked? { CheckedKeepsSafe(w, pid); } else { FailKeepsSafe(w, pid); }
    }
  }

  /** Finishing never frees an instance whose journal still says intent. */
  lemma FinishKeepsJournaling(db: Db, op: Operation, observation: Option<Obs>, phase: Phase)
    requires Journaling(db) && Holds(db, op)
    requires phase != Quarantined ==> observation.Some?
    requires phase != Quarantined && op.instance in db.effects ==> db.effects[op.instance].phase != Intent
    ensures Journaling(After(FinishTx(db, op, observation, phase), db))
  {
    var db' := After(FinishTx(db, op, observation, phase), db);
    forall n | n in db'.leases
      ensures LeaseOk(db', n)
    {
      assert LeaseOk(db, n);
    }
    forall id | id in db'.effects
      ensures EffectOk(db', id)
    {
      assert EffectOk(db, id);
    }
  }

  lemma FinishKeepsSafe(w: World, pid: Pid, busy: bool)
    requires Safe(w)
    ensures Safe(FinishStep(w, pid, busy))
  {
    var w' := FinishStep(w, pid, busy);
    if w' != w {
      var k := w.workers[pid];
      Alone(w, pid);
      assert WorkerOk(w.db, k) && OperationOk(w.db, k.op.id);
      if k.op.instance in w.db.effects { assert EffectOk(w.db, k.op.instance); }
      var phase := if k.restore then RolledBack else Committed;
      FinishKeepsCoupling(w.db, k.op, Some(k.at.result), phase);
      FinishKeepsJournaling(w.db, k.op, Some(k.at.result), phase);
      if busy { FailKeepsSafe(w, pid); }
    }
  }

  lemma CompensateKeepsJournaling(db: Db, op: Operation)
    requires Journaling(db) && Holds(db, op)
    ensures Journaling(CompensateTx(db, op).docs)
  {
    var db' := CompensateTx(db, op).docs;
    forall n | n in db'.leases
      ensures LeaseOk(db', n)
    {
      assert LeaseOk(db, n);
    }
    forall id | id in db'.effects
      ensures EffectOk(db', id)
    {
      assert EffectOk(db, id);
    }
  }

  lemma CompensateKeepsSafe(w: World, pid: Pid, busy: bool)
    requires Safe(w)
    ensures Safe(CompensateStep(w, pid, busy))
  {
    hide Target, OperationOk, InstanceOk, LeaseOk, EffectOk, ExecutorOk, Live, Matches, KindOf, Current, ClaimOk,
      Owns, RecordOk, WroteSettled, SameRuntime, Gone, Coupling, Journaling, Exclusive;
    var w' := CompensateStep(w, pid, busy);
    if w' != w {
      var k := w.workers[pid];
      Alone(w, pid);
      assert WorkerOk(w.db, k);
      if busy {
        assert w' == Gone(w, pid);
        WorkerGoneKeepsSafe(w, pid);
      } else {
        CompensateKeepsCoupling(w.db, k.op);
        CompensateKeepsJournaling(w.db, k.op);
        WorkerWritesKeepsSafe(w, w', pid);
      }
    }
  }

  /** The helper may outlive this write; its operation stays current. */
  lemma QuarantineKeepsSafe(w: World, pid: Pid, busy: bool)
    requires Safe(w)
    ensures Safe(QuarantineStep(w, pid, busy))
  {
    hide OperationOk, InstanceOk, EffectOk, LeaseOk, Coupling, Journaling;
    var w' := QuarantineStep(w, pid, busy);
    if w' != w {
      var k := w.workers[pid];
      assert WorkerOk(w.db, k);
      FinishKeepsCoupling(w.db, k.op, None, Quarantined);
      FinishKeepsJournaling(w.db, k.op, None, Quarantined);
      if busy {
        WorkerGoneKeepsSafe(w, pid);
      } else {
        forall e | e in w'.executors
          ensures ExecutorOk(w'.db, w'.executors[e])
        {
          assert ExecutorOk(w.db, w.executors[e]);
        }
      }
    }
  }

  // -------------------------------------------------------- executor steps

  /** With an executor alive, a worker is either waiting for it or has given up. */
  lemma OneExecutor(w: World, e: Pid)
    requires Exclusive(w) && e in w.executors
    ensures w.executors == map[e := w.executors[e]]
    ensures forall p | p in w.workers :: w.workers[p].at.Waiting? || w.workers[p].at.Quarantining?
  {
    assert forall f | f in w.executors :: f == e;
  }

  lemma ExecutorStands(w: World, e: Pid)
    requires Safe(w) && e in w.executors
    ensures ExecutorOk(w.db, w.executors[e])
  {}

  /** An executor moves on without writing to the store. */
  lemma ExecutorMovesKeepsSafe(w: World, w': World, e: Pid)
    requires Safe(w) && e in w.executors && e in w'.executors && w'.db == w.db && w'.workers == w.workers
    requires w'.executors == w.executors[e := w'.executors[e]] && w'.executors[e].nonce == w.executors[e].nonce
    requires ExecutorOk(w'.db, w'.executors[e])
    ensures Safe(w')
  {
    hide SameRuntime, Holds, HasNonce, WorkerLease, Proven, Target, OperationOk, InstanceOk, LeaseOk, EffectOk, Live,
      Matches, KindOf, ExecutorOk, WorkerOk, Coupling;
    OneExecutor(w, e);
    forall p | p in w'.workers
      ensures WorkerOk(w'.db, w'.workers[p])
    {
      assert WorkerOk(w.db, w.workers[p]);
    }
  }

  /** With no executor left, a waiting parent learns the exit status. */
  lemma ReapKeepsSafe(w: World, e: Pid, ok: bool)
    requires Safe(w) && w.executors == map[]
    ensures Safe(Exit(w, e, ok))
  {
    var w' := Exit(w, e, ok);
    assert w'.executors == map[];
    forall p | p in w'.workers
      ensures WorkerOk(w'.db, w'.workers[p])
    {
      assert WorkerOk(w.db, w.workers[p]);
    }
  }

  lemma ExitKeepsSafe(w: World, e: Pid, ok: bool)
    requires Safe(w) && e in w.executors
    ensures Safe(Exit(w, e, ok))
  {
    hide InstanceOk, LeaseOk, EffectOk, ExecutorOk, Live, Matches, KindOf, Current, ClaimOk, Owns, RecordOk,
      WroteSettled, SameRuntime, WorkerLease, Proven, Target, OperationOk;
    OneExecutor(w, e);
    var mid := w.(executors := map[]);
    forall p | p in mid.workers
      ensures WorkerOk(mid.db, mid.workers[p])
    {
      assert WorkerOk(w.db, w.workers[p]);
    }
    ReapKeepsSafe(mid, e, ok);
    assert Exit(mid, e, ok) == Exit(w, e, ok);
  }

  /** Only leases, effects and events differ, and what they hold stays well formed. */
  ghost predicate Rewrites(db: Db, db': Db) {
    && db'.instances == db.instances && db'.operations == db.operations
    && (forall n | n in db.leases :: n in db'.leases && db'.leases[n] in {db.leases[n], db.leases[n].(consumed := true)})
    && (forall n | n in db'.leases :: n in db.leases)
  }

  lemma RewritesKeepsWorkers(w: World, db': Db)
    requires Processes(w) && Rewrites(w.db, db')
    requires forall p | p in w.workers :: w.workers[p].at.Waiting? || w.workers[p].at.Quarantining?
    ensures forall p | p in w.workers :: WorkerOk(db', w.workers[p])
  {
    hide Proven, Target, Current, ClaimOk, Owns, RecordOk, WroteSettled, SameRuntime, ExecutorOk;
    forall p | p in w.workers
      ensures WorkerOk(db', w.workers[p])
    {
      assert WorkerOk(w.db, w.workers[p]);
    }
  }

  lemma RewritesKeepsDb(db: Db, db': Db, id: InstanceId)
    requires Coupling(db) && Journaling(db) && Rewrites(db, db')
    requires forall j | j in db'.effects && j != id :: j in db.effects && db'.effects[j] == db.effects[j]
    requires id in db'.effects ==> EffectOk(db', id)
    ensures Coupling(db') && Journaling(db')
  {
    SameTables(db, db');
    forall n | n in db'.leases
      ensures LeaseOk(db', n)
    {
      assert LeaseOk(db, n);
    }
    forall j | j in db'.effects
      ensures EffectOk(db', j)
    {
      if j != id { assert EffectOk(db, j); }
    }
  }

  /** The lone executor writes a lease or its own journal record. */
  lemma ExecutorWritesKeepsSafe(w: World, w': World, e: Pid, id: InstanceId)
    requires Safe(w) && e in w.executors && w'.workers == w.workers && Rewrites(w.db, w'.db)
    requires e in w'.executors && w'.executors == w.executors[e := w'.executors[e]]
    requires w'.executors[e].nonce == w.executors[e].nonce
    requires forall j | j in w'.db.effects && j != id :: j in w.db.effects && w'.db.effects[j] == w.db.effects[j]
    requires id in w'.db.effects ==> EffectOk(w'.db, id)
    requires ExecutorOk(w'.db, w'.executors[e])
    ensures Safe(w')
  {
    hide WorkerOk, ExecutorOk, Coupling, Journaling;
    OneExecutor(w, e);
    RewritesKeepsDb(w.db, w'.db, id);
    RewritesKeepsWorkers(w, w'.db);
    forall p | p in w'.workers
      ensures WorkerOk(w'.db, w'.workers[p])
    {
      assert WorkerOk(w'.db, w.workers[p]);
    }
  }

  lemma ClaimedExecutor(db: Db, x: Executor, now: real, binding: nat, bound: bool, enabled: bool)
    requires Coupling(db) && ExecutorOk(db, x) && x.at.Unclaimed?
    requires ClaimTx(db, x.nonce, now, binding, bound, enabled).Done?
    ensures var tx := ClaimTx(db, x.nonce, now, binding, bound, enabled);
            Rewrites(db, tx.docs) && tx.docs.effects == db.effects && ExecutorOk(tx.docs, x.(at := Claimed(tx.value)))
  {
    hide Owned, Live;
    assert OperationOk(db, db.leases[x.nonce].op);
  }

  lemma ClaimKeepsSafe(w: World, e: Pid, binding: nat, bound: bool, enabled: bool)
    requires Safe(w)
    ensures Safe(ClaimStep(w, e, binding, bound, enabled))
  {
    hide Coupling, Exclusive, ExecutorOk, ClaimTx, Rewrites;
    if e in w.executors && w.executors[e].at.Unclaimed? {
      var x := w.executors[e];
      ExecutorStands(w, e);
      var tx := ClaimTx(w.db, x.nonce, w.now, binding, bound, enabled);
      if tx.Raise? {
        ExitKeepsSafe(w, e, false);
      } else {
        ClaimedExecutor(w.db, x, w.now, binding, bound, enabled);
        var id := tx.value.lease.instance;
        SameEffect(w.db, tx.docs, id);
        ExecutorWritesKeepsSafe(w, ClaimStep(w, e, binding, bound, enabled), e, id);
      }
    }
  }

  lemma SameEffect(db: Db, db': Db, id: InstanceId)
    requires Journaling(db) && Rewrites(db, db') && db'.effects == db.effects
    ensures id in db'.effects ==> EffectOk(db', id)
  {
    if id in db.effects { assert EffectOk(db, id); }
  }

  lemma ArmKeepsSafe(w: World, e: Pid)
    requires Safe(w)
    ensures Safe(ArmStep(w, e))
  {
    hide Safe, Current, Live, Matches, KindOf, Target, Holds, HasNonce, WorkerLease, Proven, ClaimOk;
    var w' := ArmStep(w, e);
    if e in w.executors {
      ExecutorStands(w, e);
      if e in w'.executors { ExecutorMovesKeepsSafe(w, w', e); } else { ExitKeepsSafe(w, e, false); }
    }
  }

  lemma InspectKeepsSafe(w: World, e: Pid)
    requires Safe(w)
    ensures Safe(InspectStep(w, e))
  {
    hide Safe, Current;
    var w' := InspectStep(w, e);
    if e in w.executors {
      ExecutorStands(w, e);
      if e in w'.executors { ExecutorMovesKeepsSafe(w, w', e); } else { ExitKeepsSafe(w, e, false); }
    }
  }

  lemma ClearKeepsSafe(w: World, e: Pid)
    requires Safe(w)
    ensures Safe(ClearStep(w, e))
  {
    hide Safe, Current, Owned, Live, Matches, WorkerLease, Proven, ClaimOk;
    var w' := ClearStep(w, e);
    if e in w.executors {
      ExecutorStands(w, e);
      if e in w'.executors { ExecutorMovesKeepsSafe(w, w', e); } else { ExitKeepsSafe(w, e, false); }
    }
  }

  lemma StartCommandKeepsSafe(w: World, e: Pid)
    requires Safe(w)
    ensures Safe(StartCommandStep(w, e))
  {
    hide Safe, Current, Live, Matches, KindOf, Target, Holds, HasNonce;
    var w' := StartCommandStep(w, e);
    if e in w.executors {
      ExecutorStands(w, e);
      if e in w'.executors { ExecutorMovesKeepsSafe(w, w', e); } else { ExitKeepsSafe(w, e, false); }
    }
  }

  lemma ReinspectKeepsSafe(w: World, e: Pid)
    requires Safe(w)
    ensures Safe(ReinspectStep(w, e))
  {
    hide Safe, Current;
    var w' := ReinspectStep(w, e);
    if e in w.executors {
      ExecutorStands(w, e);
      if e in w'.executors { ExecutorMovesKeepsSafe(w, w', e); } else { ExitKeepsSafe(w, e, false); }
    }
  }

  lemma ConfirmKeepsSafe(w: World, e: Pid)
    requires Safe(w)
    ensures Safe(ConfirmStep(w, e))
  {
    hide Safe, Current, Exclusive, Processes, DaemonOf, SameRuntime, InstanceOk, LeaseOk, EffectOk, WorkerOk;
    var w' := ConfirmStep(w, e);
    if e in w.executors {
      ExecutorStands(w, e);
      if e in w'.executors { ExecutorMovesKeepsSafe(w, w', e); } else { ExitKeepsSafe(w, e, false); }
    }
  }

  lemma CommandReturnsKeepsSafe(w: World, e: Pid, outcome: Obs)
    requires Safe(w)
    ensures Safe(CommandReturnsStep(w, e, outcome))
  {
    hide Safe, Current, Live, Matches, KindOf, WorkerLease, Proven, ClaimOk;
    var w' := CommandReturnsStep(w, e, outcome);
    if e in w.executors {
      ExecutorStands(w, e);
      if e in w'.executors { ExecutorMovesKeepsSafe(w, w', e); } else { ExitKeepsSafe(w, e, false); }
    }
  }

  lemma JournalRewrites(db: Db, claim: Claim, before: Obs, now: real)
    requires Coupling(db) && JournalTx(db, claim, before, now).Done?
    requires claim.op.id in db.operations && db.operations[claim.op.id].instance == claim.lease.instance
    requires db.operations[claim.op.id].baseline == claim.op.baseline
    requires db.operations[claim.op.id].desired == claim.op.desired
    requires claim.lease.instance in db.instances && KindOf(db.instances[claim.lease.instance]) == Production
    requires db.instances[claim.lease.instance].operation == Some(claim.op.id)
    ensures var db' := JournalTx(db, claim, before, now).docs;
            Rewrites(db, db') && claim.lease.instance in db'.effects && EffectOk(db', claim.lease.instance)
  {}

  lemma JournalWritesOne(db: Db, claim: Claim, before: Obs, now: real)
    requires JournalTx(db, claim, before, now).Done?
    ensures var tx := JournalTx(db, claim, before, now); tx.docs.effects == db.effects[claim.lease.instance := tx.value]
  {}

  lemma JournaledKeepsSafe(w: World, e: Pid)
    requires Safe(w) && e in w.executors && w.executors[e].at.Inspected?
    requires JournalTx(w.db, w.executors[e].at.claim, w.executors[e].at.before, w.now).Done?
    ensures Safe(JournalStep(w, e))
  {
    hide Holds, WorkerOk, OperationOk, InstanceOk, Owns, RecordOk, WroteSettled, JournalTx;
    var w' := JournalStep(w, e);
    var x := w.executors[e];
    var id := x.at.claim.lease.instance;
    var tx := JournalTx(w.db, x.at.claim, x.at.before, w.now);
    assert ExecutorOk(w.db, x) && OperationOk(w.db, x.at.claim.op.id);
    JournalRewrites(w.db, x.at.claim, x.at.before, w.now);
    JournaledExecutor(w.db, x, w.now);
    JournalWritesOne(w.db, x.at.claim, x.at.before, w.now);
    assert w'.executors[e].at == (if tx.value.phase == Settled then Confirming(x.at.claim, x.at.deadline, tx.value)
                                  else Journaled(x.at.claim, x.at.deadline, tx.value));
    ExecutorWritesKeepsSafe(w, w', e, id);
  }

  lemma JournaledExecutor(db: Db, x: Executor, now: real)
    requires ExecutorOk(db, x) && x.at.Inspected? && JournalTx(db, x.at.claim, x.at.before, now).Done?
    ensures var tx := JournalTx(db, x.at.claim, x.at.before, now);
            ExecutorOk(tx.docs, x.(at := if tx.value.phase == Settled then Confirming(x.at.claim, x.at.deadline, tx.value)
                                         else Journaled(x.at.claim, x.at.deadline, tx.value)))
  {}

  lemma JournalKeepsSafe(w: World, e: Pid)
    requires Safe(w)
    ensures Safe(JournalStep(w, e))
  {
    if e in w.executors && w.executors[e].at.Inspected? {
      if JournalTx(w.db, w.executors[e].at.claim, w.executors[e].at.before, w.now).Done? {
        JournaledKeepsSafe(w, e);
      } else {
        ExitKeepsSafe(w, e, false);
      }
    }
  }

  /** A report rewrites the executor's own record and leaves it well formed. */
  lemma ReportRewrites(db: Db, claim: Claim, record: Effect, seen: Obs, phase: EffectPhase)
    requires RecordOk(db, claim, record) && EffectOk(db, claim.lease.instance)
    requires ReportTx(db, claim, record, seen, phase).Done? && phase != Intent
    requires phase == Verified ==> seen.state == record.desired
    ensures var tx := ReportTx(db, claim, record, seen, phase);
            && Rewrites(db, tx.docs) && tx.docs.leases == db.leases
            && tx.docs.effects == db.effects[claim.lease.instance := tx.value]
            && EffectOk(tx.docs, claim.lease.instance) && RecordOk(tx.docs, claim, tx.value)
            && tx.value == record.(phase := phase, observation := Some(seen))
  {}

  lemma SettledExecutor(db: Db, db': Db, x: Executor, record: Effect)
    requires ExecutorOk(db, x) && x.at.Reinspected? && Rewrites(db, db') && db'.leases == db.leases
    requires RecordOk(db', x.at.claim, record) && record.phase == Settled && record.observation.Some?
    ensures ExecutorOk(db', x.(at := Confirming(x.at.claim, x.at.deadline, record)))
  {}

  lemma SettleKeepsSafe(w: World, e: Pid)
    requires Safe(w)
    ensures Safe(SettleStep(w, e))
  {
    hide Coupling, Exclusive, ReportTx, Rewrites, Live, Matches, KindOf, Target, Holds, HasNonce, WorkerLease,
      OperationOk, InstanceOk, Owned, Proven, Current, ClaimOk;
    if e in w.executors && w.executors[e].at.Reinspected? {
      var x := w.executors[e];
      ExecutorStands(w, e);
      var tx := ReportTx(w.db, x.at.claim, x.at.record, x.at.seen, Settled);
      if tx.Raise? {
        ExitKeepsSafe(w, e, false);
      } else {
        ReportRewrites(w.db, x.at.claim, x.at.record, x.at.seen, Settled);
        SettledExecutor(w.db, tx.docs, x, tx.value);
        ExecutorWritesKeepsSafe(w, SettleStep(w, e), e, x.at.claim.lease.instance);
      }
    }
  }

  /** The verified record is the executor's last write. */
  lemma WriteAndExitKeepsSafe(w: World, db': Db, e: Pid, id: InstanceId, ok: bool)
    requires Safe(w) && e in w.executors && Rewrites(w.db, db')
    requires forall j | j in db'.effects && j != id :: j in w.db.effects && db'.effects[j] == w.db.effects[j]
    requires id in db'.effects ==> EffectOk(db', id)
    ensures Safe(Exit(w.(db := db'), e, ok))
  {
    hide WorkerOk, ExecutorOk, Coupling, Journaling;
    OneExecutor(w, e);
    RewritesKeepsDb(w.db, db', id);
    RewritesKeepsWorkers(w, db');
    var mid := w.(db := db', executors := map[]);
    forall p | p in mid.workers
      ensures WorkerOk(mid.db, mid.workers[p])
    {
      assert WorkerOk(db', w.workers[p]);
    }
    ReapKeepsSafe(mid, e, ok);
    assert Exit(mid, e, ok) == Exit(w.(db := db'), e, ok);
  }

  lemma ReportKeepsSafe(w: World, e: Pid)
    requires Safe(w)
    ensures Safe(ReportStep(w, e))
  {
    hide Coupling, Exclusive, ReportTx, Rewrites, Matches, KindOf, Target, Holds, HasNonce, WorkerLease, Processes,
      Exit, OperationOk, InstanceOk, Owned, LeaseOk, Proven, Current, ClaimOk;
    if e in w.executors && w.executors[e].at.Confirmed? {
      var x := w.executors[e];
      ExecutorStands(w, e);
      var tx := ReportTx(w.db, x.at.claim, x.at.record, x.at.seen, Verified);
      if tx.Raise? {
        ExitKeepsSafe(w, e, false);
      } else {
        ReportRewrites(w.db, x.at.claim, x.at.record, x.at.seen, Verified);
        WriteAndExitKeepsSafe(w, tx.docs, e, x.at.claim.lease.instance, true);
      }
    }
  }

  lemma WorkerStepKeepsSafe(w: World, pid: Pid, work: WorkerAct)
    requires Safe(w)
    ensures Safe(WorkerStep(w, pid, work))
  {
    hide SimChangeTx, MintTx, ReadBackTx, Actual, Target, FinishTx, Completed, CompensateTx, Live, Matches, KindOf,
      Holds, HasNonce, WorkerLease, Proven, Current, ClaimOk, Owns, RecordOk, WroteSettled, SameRuntime, SimOf, Owned,
      PutOnce, DaemonOf, CheckResultStep, FinishStep, CompensateStep, QuarantineStep, Gone, Put, Failed, OperationOk,
      InstanceOk, LeaseOk, EffectOk, WorkerOk, ExecutorOk, Processes, CallSimulationStep, MintStep, SpawnStep,
      ParentTimeoutStep, ReadBackStep, Coupling, Journaling, Exclusive, Safe;
    match work
    case CallSimulation(fault) => CallSimulationKeepsSafe(w, pid, fault);
    case MintLease(enabled, bound, nonce, binding) => MintKeepsSafe(w, pid, enabled, bound, nonce, binding);
    case Spawn(child) => SpawnKeepsSafe(w, pid, child);
    case ParentTimeout => ParentTimeoutKeepsSafe(w, pid);
    case ReadBack => ReadBackKeepsSafe(w, pid);
    case Fail => if FailStep(w, pid) != w { FailKeepsSafe(w, pid); }
    case CheckResult => CheckResultKeepsSafe(w, pid);
    case Finish(busy) => FinishKeepsSafe(w, pid, busy);
    case Compensate(busy) => CompensateKeepsSafe(w, pid, busy);
    case Quarantine(busy) => QuarantineKeepsSafe(w, pid, busy);
    case KillWorker => WorkerGoneKeepsSafe(w, pid);
  }

  lemma ExecutorStepKeepsSafe(w: World, e: Pid, act: ExecutorAct)
    requires Safe(w)
    ensures Safe(ExecutorStep(w, e, act))
  {
    match act
    case ClaimLease(binding, bound, enabled) => ClaimKeepsSafe(w, e, binding, bound, enabled);
    case Journal => JournalKeepsSafe(w, e);
    case CommandReturns(outcome) => CommandReturnsKeepsSafe(w, e, outcome);
    case Settle => SettleKeepsSafe(w, e);
    case Report => ReportKeepsSafe(w, e);
    case KillExecutor => if e in w.executors { ExitKeepsSafe(w, e, false); }
    case Arm => ArmKeepsSafe(w, e);
    case Inspect => InspectKeepsSafe(w, e);
    case Clear => ClearKeepsSafe(w, e);
    case StartCommand => StartCommandKeepsSafe(w, e);
    case Reinspect => ReinspectKeepsSafe(w, e);
    case Confirm => ConfirmKeepsSafe(w, e);
  }

  lemma EnrollKeepsSafe(w: World, id: InstanceId)
    requires Safe(w)
    ensures Safe(EnrollStep(w, id))
  {
    hide Matches, KindOf, Target, Holds, HasNonce, WorkerLease, Proven, Current, ClaimOk, Owns, RecordOk,
      WroteSettled, SameRuntime, OperationOk, InstanceOk, LeaseOk, EffectOk, WorkerOk, ExecutorOk, Live, Journaling,
      Exclusive, Processes;
    SameStoreKeepsSafe(w, EnrollStep(w, id));
  }

  /** The daemon, the simulated resource and the clock are outside the store. */
  lemma EnvironmentKeepsSafe(w: World, w': World)
    requires Safe(w) && w'.db == w.db && w'.workers == w.workers && w'.executors == w.executors
    ensures Safe(w')
  {
    SameStoreKeepsSafe(w, w');
  }

  lemma StepKeepsSafe(w: World, l: Label)
    requires Safe(w)
    ensures Safe(Step(w, l))
  {
    hide Safe, InspectStep, JournalStep, ClearStep, StartCommandStep, CommandReturnsStep, ReinspectStep, SettleStep,
      ConfirmStep, ReportStep, KillExecutorStep, RuntimeIn, Live, Matches, KindOf, Target, Holds, HasNonce,
      WorkerLease, Proven, Current, ClaimOk, Owns, RecordOk, WroteSettled, SameRuntime, Distinct, AdmitTx, Actual,
      Pending, ReserveTx, Put, SimChangeTx, Failed, MintTx, ReadBackTx, FinishTx, Completed, CompensateTx, ClaimTx,
      Exit, PutE, JournalTx, LaunchTx, ReportTx, ExecutorOk, ValidHost, Dispatch, ProbeFor, Admits, AlreadyDone,
      LockFree, FirstPending, TickOn, CallSimulationStep, MintStep, SpawnStep, ParentTimeoutStep, ReadBackStep,
      FailStep, CheckResultStep, FinishStep, CompensateStep, QuarantineStep, Gone, ClaimStep, ArmStep, EnrollStep,
      TickStep, WorkerStep, ExecutorStep, Unanswered, DaemonOf, OperationOk, InstanceOk, LeaseOk, EffectOk, WorkerOk,
      Coupling, Journaling, Exclusive, Processes, ClientStep;
    match l
    case Client(_, _, _, _, _, _, _, _, _) => ClientKeepsSafe(w, l);
    case Enroll(id) => EnrollKeepsSafe(w, id);
    case Tick(pid, enabled) => TickKeepsSafe(w, pid, enabled);
    case ByWorker(pid, work) => WorkerStepKeepsSafe(w, pid, work);
    case ByExecutor(e, act) => ExecutorStepKeepsSafe(w, e, act);
    case LateEffect(id, outcome) => EnvironmentKeepsSafe(w, LateEffectStep(w, id, outcome));
    case Flap(id, healthy) => EnvironmentKeepsSafe(w, FlapStep(w, id, healthy));
    case Advance(delta) => EnvironmentKeepsSafe(w, AdvanceStep(w, delta));
    case Foreign(id, resource, runtime) => EnvironmentKeepsSafe(w, ForeignStep(w, id, resource, runtime));
  }

  lemma {:induction false} RunKeepsSafe(w: World, labels: seq<Label>)
    requires Safe(w)
    ensures Safe(Run(w, labels))
    decreases |labels|
  {
    if labels != [] {
      RunKeepsSafe(w, labels[..|labels| - 1]);
      StepKeepsSafe(Run(w, labels[..|labels| - 1]), labels[|labels| - 1]);
    }
  }
}
