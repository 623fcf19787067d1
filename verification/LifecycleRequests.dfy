/**
 What a client asks for and what it gets: exactly when a new request is accepted, what an
 accepted one does, and, over runs, that the operation a start or a stop answers with is
 the one the client asked for.
 */
module LifecycleRequests {
  import opened Schema
  import opened LifecycleModel
  import opened LifecycleMachine
  import opened LifecycleFrames
  import opened LifecycleInvariants
  import opened LifecycleAdmission
  import opened LifecycleEndings
  import opened LifecycleTheorems

  // ------------------------------------------------------------ who may ask for what

  /** Administrators and the owner always have access; an operator only as long as the
      profile is the one the instance was requested under. */
  ghost predicate HasAccess(uid: Uid, i: Instance, host: Host) {
    || uid in host.admins || uid == i.owner
    || (PolicyHolds(i, host) && uid in i.policy.content.operators)
  }

  /** At rest: stopped or running, with nothing to do. */
  ghost predicate Resting(i: Instance) { i.state.Idle? && i.operation.None? }

  /** The backend is there and shows the instance as it is recorded. */
  ghost predicate Observed(i: Instance, host: Host, probe: Probe) {
    PolicyHolds(i, host) && probe.qualified && probe.inspected.Some? && probe.inspected == i.observation
  }

  /** The instance is stopped, its resources are nobody's, and no controller has it. */
  ghost predicate Free(db: Db, id: InstanceId, i: Instance, host: Host, probe: Probe) {
    && PolicyHolds(i, host) && probe.qualified && probe.inspected.Some? && probe.inspected.value.state == Stopped
    && Distinct(i.policy.content.resources) && (forall r | r in i.policy.content.resources :: r !in db.resources)
    && id !in db.registrations
  }

  /** What each action demands of an instance. */
  ghost predicate Demands(db: Db, req: Request, i: Instance, host: Host, probe: Probe)
    requires !req.action.Create?
  {
    match req.action
    case Approve(_) => i.state == Requested && Free(db, req.instance, i, host, probe)
    case Reject(_) => i.state == Requested
    case Transfer(_, newOwner) => Resting(i) && PolicyHolds(i, host) && newOwner in i.policy.content.requesters
    case Recover(_) => i.state == RecoveryRequired
    case Start(_) => Resting(i) && Observed(i, host, probe) && probe.newOperations
    case Stop(_) => Resting(i) && Observed(i, host, probe) && probe.newOperations
  }

  /** A request that the authority has to accept. */
  ghost predicate Acceptable(db: Db, uid: Uid, req: Request, host: Host, probe: Probe) {
    if req.action.Create? then
      && host.enabled && req.instance !in db.instances && req.action.profile in host.profiles
      && (uid in host.admins || uid in host.profiles[req.action.profile].requesters)
    else
      && (host.enabled || req.action.Recover?) && req.instance in db.instances
      && var i := db.instances[req.instance];
         && HasAccess(uid, i, host) && i.generation == req.action.expected
         && (req.action.Approve? || req.action.Reject? || req.action.Transfer? || req.action.Recover? ==> uid in host.admins)
         && Demands(db, req, i, host, probe)
  }

  lemma AccessMeans(uid: Uid, i: Instance, host: Host)
    ensures Access(uid, i, host).None? <==> HasAccess(uid, i, host)
  {}

  lemma ApproveDemands(db: Db, id: InstanceId, i: Instance, host: Host, probe: Probe)
    ensures ApproveTx(db, id, i, host, probe).Done? <==> i.state == Requested && Free(db, id, i, host, probe)
  {
    ClaimAllSucceeds(db.resources, i.policy.content.resources, id);
  }

  lemma ChangeDemands(db: Db, uid: Uid, id: InstanceId, i: Instance, desired: RunState, host: Host, probe: Probe)
    ensures ChangeTx(db, uid, id, i, desired, host, probe).Done? <==> Resting(i) && Observed(i, host, probe) && probe.newOperations
  {}

  lemma RecoverDemands(db: Db, id: InstanceId)
    requires Coupling(db) && id in db.instances
    ensures RecoverTx(db, db.instances[id]).Done? <==> db.instances[id].state == RecoveryRequired
  {
    assert InstanceOk(db, id);
  }

  lemma ActionDemands(db: Db, uid: Uid, req: Request, host: Host, probe: Probe)
    requires Coupling(db) && !req.action.Create? && req.instance in db.instances
    ensures var i := db.instances[req.instance];
            ActionTx(db, uid, req, i, host, probe).Done? <==> Demands(db, req, i, host, probe)
  {
    hide Coupling, ApproveTx, ChangeTx, RecoverTx, Free, Observed;
    var i := db.instances[req.instance];
    match req.action
    case Approve(_) => ApproveDemands(db, req.instance, i, host, probe);
    case Reject(_) =>
    case Transfer(_, _) =>
    case Recover(_) => RecoverDemands(db, req.instance);
    case Start(_) => ChangeDemands(db, uid, req.instance, i, Running, host, probe);
    case Stop(_) => ChangeDemands(db, uid, req.instance, i, Stopped, host, probe);
  }

  /** A request under a new key is accepted exactly when it is acceptable. */
  lemma AcceptedExactly(db: Db, uid: Uid, req: Request, host: Host, probe: Probe)
    requires Coupling(db) && Key(uid, req.id) !in db.requests
    ensures AdmitTx(db, uid, req, host, probe).Done? <==> Acceptable(db, uid, req, host, probe)
  {
    hide Coupling, ActionTx, Access, HasAccess, Demands;
    if !req.action.Create? && req.instance in db.instances {
      AccessMeans(uid, db.instances[req.instance], host);
      ActionDemands(db, uid, req, host, probe);
      ActionActed(db, uid, req, host, probe);
    }
  }

  // ---------------------------------------------------------- what is done about it

  /** What the authority answers to a new request, and what it leaves. */
  ghost predicate Decided(db: Db, uid: Uid, req: Request, host: Host, probe: Probe, db': Db, answer: Option<Response>) {
    && (answer.Some? <==> Acceptable(db, uid, req, host, probe))
    && (answer.Some? ==>
          && req.instance in db'.instances && answer.value.instance == View(db'.instances[req.instance])
          && if req.action.Create? then
               && req.action.profile in host.profiles && answer.value.operation.None?
               && db'.instances[req.instance] ==
                    Instance(req.action.profile, Digest(host.profiles[req.action.profile]), uid, 0, 0, Requested, None, None)
             else
               && req.instance in db.instances
               && Granted(db, db', uid, req, probe, db.instances[req.instance], db'.instances[req.instance], answer.value.operation))
  }

  /** The answered operation is this client's, on this instance, towards this state, from what
      was seen; it is queued, or done because the state was already there. */
  ghost predicate Answers(db': Db, uid: Uid, id: InstanceId, desired: RunState, seen: Obs, o: OpId) {
    && o in db'.operations
    && var op := db'.operations[o];
       && op.id == o && op.instance == id && op.uid == uid && op.desired == desired && op.baseline == seen && op.fence.None?
       && op.phase == (if seen.state == desired then Committed else Queued)
  }

  /** What an accepted action leaves of the row it found. */
  ghost predicate Granted(db: Db, db': Db, uid: Uid, req: Request, probe: Probe, i: Instance, i': Instance, answer: Option<OpId>)
    requires !req.action.Create?
  {
    && i'.profile == i.profile && i'.policy == i.policy && i'.generation == i.generation + 1
    && match req.action
       case Approve(_) =>
         && i'.state == Idle(Stopped) && i'.observation == probe.inspected && answer.None?
         && (forall r | r in i.policy.content.resources :: r in db'.resources && db'.resources[r] == req.instance)
       case Reject(_) => i'.state == Rejected && answer.None?
       case Transfer(_, newOwner) => i'.owner == newOwner && i'.fence == i.fence + 1 && i'.state == i.state && answer.None?
       case Recover(_) =>
         && i'.state == Recovering && answer == i.operation && answer.Some? && i'.operation == answer
         && answer.value in db.operations && answer.value in db'.operations
         && db'.operations[answer.value] == db.operations[answer.value].(phase := RollingBack, error := false)
       case Start(_) =>
         && answer == Some(probe.op) && probe.inspected.Some?
         && Answers(db', uid, req.instance, Running, probe.inspected.value, probe.op)
         && (if probe.inspected.value.state == Running then i'.state == i.state && i'.operation.None?
             else i'.state == Starting && i'.operation == answer)
       case Stop(_) =>
         && answer == Some(probe.op) && probe.inspected.Some?
         && Answers(db', uid, req.instance, Stopped, probe.inspected.value, probe.op)
         && (if probe.inspected.value.state == Stopped then i'.state == i.state && i'.operation.None?
             else i'.state == Stopping && i'.operation == answer)
  }

  lemma ApproveGrants(db: Db, id: InstanceId, i: Instance, host: Host, probe: Probe)
    requires ApproveTx(db, id, i, host, probe).Done?
    ensures var tx := ApproveTx(db, id, i, host, probe);
            && tx.value.instance == i.(state := Idle(Stopped), observation := probe.inspected) && tx.value.operation.None?
            && (forall r | r in i.policy.content.resources :: r in tx.docs.resources && tx.docs.resources[r] == id)
  {
    ClaimAllOwns(db.resources, i.policy.content.resources, id);
  }

  lemma ChangeGrants(db: Db, uid: Uid, id: InstanceId, i: Instance, desired: RunState, host: Host, probe: Probe)
    requires ChangeTx(db, uid, id, i, desired, host, probe).Done?
    ensures var tx := ChangeTx(db, uid, id, i, desired, host, probe);
            && tx.value.operation == Some(probe.op) && probe.inspected.Some? && i.operation.None?
            && Answers(tx.docs, uid, id, desired, probe.inspected.value, probe.op)
            && tx.value.instance ==
                 if probe.inspected.value.state == desired then i
                 else i.(state := if desired == Running then Starting else Stopping, operation := Some(probe.op))
  {}

  lemma RecoverGrants(db: Db, id: InstanceId)
    requires Coupling(db) && id in db.instances && RecoverTx(db, db.instances[id]).Done?
    ensures var i := db.instances[id];
            var tx := RecoverTx(db, i);
            && tx.value == Change(i.(state := Recovering), i.operation) && i.operation.Some?
            && i.operation.value in db.operations && i.operation.value in tx.docs.operations
            && tx.docs.operations[i.operation.value] == db.operations[i.operation.value].(phase := RollingBack, error := false)
  {
    assert InstanceOk(db, id);
    assert OperationOk(db, db.instances[id].operation.value);
  }

  lemma ActionGrants(db: Db, uid: Uid, req: Request, host: Host, probe: Probe)
    requires Coupling(db) && !req.action.Create? && req.instance in db.instances
    requires ActionTx(db, uid, req, db.instances[req.instance], host, probe).Done?
    ensures var i := db.instances[req.instance];
            var tx := ActionTx(db, uid, req, i, host, probe);
            Granted(db, tx.docs, uid, req, probe, i, tx.value.instance.(generation := i.generation + 1), tx.value.operation)
  {
    hide Coupling, ApproveTx, ChangeTx, RecoverTx, Answers;
    var i := db.instances[req.instance];
    match req.action
    case Approve(_) => ApproveGrants(db, req.instance, i, host, probe);
    case Reject(_) =>
    case Transfer(_, _) =>
    case Recover(_) => RecoverGrants(db, req.instance);
    case Start(_) => ChangeGrants(db, uid, req.instance, i, Running, host, probe);
    case Stop(_) => ChangeGrants(db, uid, req.instance, i, Stopped, host, probe);
  }

  lemma SameTablesGrant(db: Db, mid: Db, db': Db, uid: Uid, req: Request, probe: Probe, i: Instance, i': Instance, answer: Option<OpId>)
    requires !req.action.Create? && Granted(db, mid, uid, req, probe, i, i', answer)
    requires db'.operations == mid.operations && db'.resources == mid.resources
    ensures Granted(db, db', uid, req, probe, i, i', answer)
  {}

  /** The answer of an accepted request, and what it did to the row it addressed. */
  lemma AcceptedDoes(db: Db, uid: Uid, req: Request, host: Host, probe: Probe)
    requires Coupling(db) && Key(uid, req.id) !in db.requests && AdmitTx(db, uid, req, host, probe).Done?
    ensures var tx := AdmitTx(db, uid, req, host, probe); Decided(db, uid, req, host, probe, tx.docs, Some(tx.value))
  {
    hide Coupling, ActionTx, Access, Granted, Acceptable;
    AcceptedExactly(db, uid, req, host, probe);
    if !req.action.Create? {
      var i := db.instances[req.instance];
      ActionGrants(db, uid, req, host, probe);
      ActionActed(db, uid, req, host, probe);
      var mid := ActionTx(db, uid, req, i, host, probe);
      var tx := AdmitTx(db, uid, req, host, probe);
      SameTablesGrant(db, mid.docs, tx.docs, uid, req, probe, i, mid.value.instance.(generation := i.generation + 1), mid.value.operation);
    }
  }

  /** `dispatch` under a new key on a free store: accepted exactly when acceptable, and then
      answered and done as asked. */
  lemma DispatchDecides(db: Db, uid: Uid, req: Request, host: Host, probe: Probe, auditBusy: bool)
    requires Coupling(db) && Key(uid, req.id) !in db.requests
    ensures var (db', answer) := Dispatch(db, uid, req, host, probe, false, auditBusy); Decided(db, uid, req, host, probe, db', answer)
  {
    hide Coupling, AdmitTx, Granted, Acceptable;
    AcceptedExactly(db, uid, req, host, probe);
    if AdmitTx(db, uid, req, host, probe).Done? { AcceptedDoes(db, uid, req, host, probe); }
  }

  // -------------------------------------------------------------------- over runs

  /** The operation is the one this request asked for. */
  ghost predicate Serves(req: Request, uid: Uid, o: Option<OpId>, operations: map<OpId, Operation>) {
    match req.action
    case Start(_) =>
      && o.Some? && o.value in operations && operations[o.value].instance == req.instance
      && operations[o.value].uid == uid && operations[o.value].desired == Running
    case Stop(_) =>
      && o.Some? && o.value in operations && operations[o.value].instance == req.instance
      && operations[o.value].uid == uid && operations[o.value].desired == Stopped
    case Recover(_) => o.Some? && o.value in operations && operations[o.value].instance == req.instance
    case _ => o.None?
  }

  ghost predicate Served(db: Db) {
    forall key | key in db.requests ::
      Serves(db.requests[key].hash.content, key.uid, db.requests[key].response.operation, db.operations)
  }

  /** What an operation was asked to do never changes. */
  ghost predicate AskStays(operations: map<OpId, Operation>, operations': map<OpId, Operation>) {
    forall o | o in operations ::
      && o in operations'
      && operations'[o].instance == operations[o].instance && operations'[o].uid == operations[o].uid
      && operations'[o].desired == operations[o].desired && operations'[o].baseline == operations[o].baseline
  }

  lemma ServesStays(req: Request, uid: Uid, o: Option<OpId>, operations: map<OpId, Operation>, operations': map<OpId, Operation>)
    requires Serves(req, uid, o, operations) && AskStays(operations, operations')
    ensures Serves(req, uid, o, operations')
  {}

  lemma SameRequestsServed(db: Db, db': Db)
    requires Served(db) && db'.requests == db.requests && AskStays(db.operations, db'.operations)
    ensures Served(db')
  {
    hide Serves, AskStays;
    forall key | key in db'.requests
      ensures Serves(db'.requests[key].hash.content, key.uid, db'.requests[key].response.operation, db'.operations)
    {
      ServesStays(db.requests[key].hash.content, key.uid, db.requests[key].response.operation, db.operations, db'.operations);
    }
  }

  lemma AcceptedServes(db: Db, uid: Uid, req: Request, host: Host, probe: Probe)
    requires Coupling(db) && Key(uid, req.id) !in db.requests && AdmitTx(db, uid, req, host, probe).Done?
    ensures var tx := AdmitTx(db, uid, req, host, probe); Serves(req, uid, tx.value.operation, tx.docs.operations)
  {
    hide AdmitTx;
    AcceptedDoes(db, uid, req, host, probe);
    if req.action.Recover? {
      var o := db.instances[req.instance].operation.value;
      assert OperationOk(db, o) && InstanceOk(db, req.instance);
    }
  }

  lemma AdmitWrites(db: Db, uid: Uid, req: Request, host: Host, probe: Probe)
    ensures var tx := AdmitTx(db, uid, req, host, probe);
            tx.Done? ==>
              if Key(uid, req.id) in db.requests then tx.docs == db
              else tx.docs.requests == db.requests[Key(uid, req.id) := Saved(Digest(req), tx.value)]
  {
    hide ActionTx, Access;
    if !req.action.Create? && req.instance in db.instances { ActionActed(db, uid, req, host, probe); }
  }

  lemma AdmitServes(db: Db, uid: Uid, req: Request, host: Host, probe: Probe)
    requires Coupling(db) && probe.op !in db.operations && Served(db)
    ensures Served(After(AdmitTx(db, uid, req, host, probe), db))
  {
    hide AdmitTx, Coupling, Serves, AskStays, Grounded;
    var tx := AdmitTx(db, uid, req, host, probe);
    if tx.Done? && Key(uid, req.id) !in db.requests {
      AdmitWrites(db, uid, req, host, probe);
      AdmitKeeps(db, uid, req, host, probe);
      AcceptedServes(db, uid, req, host, probe);
      UndisturbedAsk(db, tx.docs);
      forall key | key in tx.docs.requests
        ensures Serves(tx.docs.requests[key].hash.content, key.uid, tx.docs.requests[key].response.operation, tx.docs.operations)
      {
        if key != Key(uid, req.id) {
          ServesStays(db.requests[key].hash.content, key.uid, db.requests[key].response.operation, db.operations, tx.docs.operations);
        }
      }
    } else {
      AdmitWrites(db, uid, req, host, probe);
    }
  }

  lemma UndisturbedAsk(db: Db, db': Db)
    requires Undisturbed(db, db')
    ensures AskStays(db.operations, db'.operations)
  {}

  lemma ClientKeepsServed(w: World, l: Label)
    requires Safe(w) && Served(w.db) && l.Client?
    ensures Served(ClientStep(w, l).db)
  {
    hide AdmitTx, ProbeFor, ValidHost, Admits, AlreadyDone, Coupling, Journaling, Exclusive, Processes, Serves;
    AdmitServesAll(w, l);
  }

  lemma AdmitServesAll(w: World, l: Label)
    requires Safe(w) && Served(w.db) && l.Client?
    ensures l.uuid !in w.db.operations ==> Served(After(AdmitTx(w.db, l.uid, l.req, l.host, ProbeFor(w, l)), w.db))
  {
    hide Coupling, Journaling, Exclusive, Processes, AdmitTx, Actual, Served;
    if l.uuid !in w.db.operations { AdmitServes(w.db, l.uid, l.req, l.host, ProbeFor(w, l)); }
  }

  lemma FinishAsks(db: Db, op: Operation, observation: Option<Obs>, phase: Phase)
    requires Holds(db, op) && (phase != Quarantined ==> observation.Some?)
    ensures AskStays(db.operations, After(FinishTx(db, op, observation, phase), db).operations)
  {}

  lemma WorkerHolds(w: World, pid: Pid)
    requires Safe(w) && pid in w.workers
    ensures Holds(w.db, w.workers[pid].op)
  {}

  lemma FinishStepAsks(w: World, pid: Pid, busy: bool)
    requires pid in w.workers && Holds(w.db, w.workers[pid].op)
    ensures AskStays(w.db.operations, FinishStep(w, pid, busy).db.operations)
  {
    hide FinishTx, Completed, AskStays, Holds;
    var k := w.workers[pid];
    AskItself(w.db.operations);
    if k.at.Checked? { FinishAsks(w.db, k.op, Some(k.at.result), if k.restore then RolledBack else Committed); }
  }

  lemma QuarantineStepAsks(w: World, pid: Pid, busy: bool)
    requires pid in w.workers && Holds(w.db, w.workers[pid].op)
    ensures AskStays(w.db.operations, QuarantineStep(w, pid, busy).db.operations)
  {
    hide FinishTx, Completed, AskStays, Holds;
    AskItself(w.db.operations);
    FinishAsks(w.db, w.workers[pid].op, None, Quarantined);
  }

  lemma CompensateStepAsks(w: World, pid: Pid, busy: bool)
    requires pid in w.workers && Holds(w.db, w.workers[pid].op)
    ensures AskStays(w.db.operations, CompensateStep(w, pid, busy).db.operations)
  {
    hide CompensateTx, AskStays, Holds;
    AskItself(w.db.operations);
    CompensateAsks(w.db, w.workers[pid].op);
  }

  lemma CompensateAsks(db: Db, op: Operation)
    requires Holds(db, op)
    ensures AskStays(db.operations, After(CompensateTx(db, op), db).operations)
  {}

  lemma AskItself(operations: map<OpId, Operation>)
    ensures AskStays(operations, operations)
  {}

  lemma WorkerAsks(w: World, pid: Pid, work: WorkerAct)
    requires Safe(w) && Writes(work)
    ensures AskStays(w.db.operations, WorkerStep(w, pid, work).db.operations)
  {
    hide Safe, FinishStep, CompensateStep, QuarantineStep, AskStays, Holds;
    AskItself(w.db.operations);
    if pid in w.workers {
      WorkerHolds(w, pid);
      match work
      case Finish(busy) => FinishStepAsks(w, pid, busy);
      case Compensate(busy) => CompensateStepAsks(w, pid, busy);
      case Quarantine(busy) => QuarantineStepAsks(w, pid, busy);
    } else {
      NoWorkerAsks(w, pid, work);
    }
  }

  lemma NoWorkerAsks(w: World, pid: Pid, work: WorkerAct)
    requires pid !in w.workers && Writes(work)
    ensures WorkerStep(w, pid, work) == w
  {}

  lemma ReserveAsks(db: Db, o: OpId, enabled: bool)
    requires o in db.operations
    ensures AskStays(db.operations, After(ReserveTx(db, o, enabled), db).operations)
  {}

  lemma TickAsks(w: World, pid: Pid, enabled: bool)
    ensures AskStays(w.db.operations, TickStep(w, pid, enabled).db.operations)
  {
    hide TickStep, ReserveTx;
    var o := TickPicks(w, pid, enabled);
    if TickStep(w, pid, enabled) != w { ReserveAsks(w.db, o, enabled); }
  }

  lemma SameWorkAsks(w: World, w': World)
    requires SameWork(w, w')
    ensures AskStays(w.db.operations, w'.db.operations)
  {}

  lemma StepKeepsServed(w: World, l: Label)
    requires Safe(w) && Served(w.db)
    ensures Served(Step(w, l).db)
  {
    hide Safe, Served, AskStays, ClientStep, TickStep, WorkerStep, ExecutorStep, LateEffectStep, FlapStep, AdvanceStep,
      ForeignStep, SameWork;
    var w' := Step(w, l);
    match l
    case Client(_, _, _, _, _, _, _, _, _) => ClientKeepsServed(w, l);
    case Enroll(id) => EnrollAsks(w, id); SameRequestsServed(w.db, w'.db);
    case Tick(pid, enabled) => TickFrame(w, pid, enabled); TickAsks(w, pid, enabled); SameRequestsServed(w.db, w'.db);
    case ByWorker(pid, work) =>
      WorkerFrame(w, pid, work);
      if Writes(work) { WorkerAsks(w, pid, work); } else { SameWorkAsks(w, w'); }
      SameRequestsServed(w.db, w'.db);
    case ByExecutor(e, act) => ExecutorFrame(w, e, act); SameWorkAsks(w, w'); SameRequestsServed(w.db, w'.db);
    case _ => EnvironmentFrame(w, l);
  }

  lemma EnrollAsks(w: World, id: InstanceId)
    ensures AskStays(w.db.operations, EnrollStep(w, id).db.operations)
  {}

  lemma {:induction false} RunKeepsServed(w: World, labels: seq<Label>)
    requires Safe(w) && Served(w.db)
    ensures Served(Run(w, labels).db)
    decreases |labels|
  {
    hide Safe, Served, Step;
    if labels != [] {
      var before := labels[..|labels| - 1];
      RunKeepsServed(w, before);
      RunKeepsSafe(w, before);
      StepKeepsServed(Run(w, before), labels[|labels| - 1]);
    }
  }

  /** The state a start or a stop asks for. */
  ghost function Wanted(action: Action): RunState
    requires action.Start? || action.Stop?
  {
    if action.Start? then Running else Stopped
  }

  lemma ServedOne(db: Db, key: Key)
    requires Served(db) && key in db.requests
    ensures Serves(db.requests[key].hash.content, key.uid, db.requests[key].response.operation, db.operations)
  {}

  lemma CommittedEnded(w: World, op: Operation)
    requires EndedTrue(w, op) && op.phase == Committed
    ensures exists c | c in w.history.completions + w.history.already :: Records(c, op) && c.actual.state == op.desired
  {}

  /** Over every run without a foreign writer: the operation a client's accepted start or stop
      was answered with is that client's, on that instance, towards the state it asked for;
      and when it shows committed, the resource was in that state as it ended. */
  lemma ClientsGetWhatTheyAskFor(w: World, labels: seq<Label>, key: Key)
    requires Initial(w) && NoForeign(labels) && key in Run(w, labels).db.requests
    requires var action := Run(w, labels).db.requests[key].hash.content.action; action.Start? || action.Stop?
    ensures var w' := Run(w, labels);
            var req := w'.db.requests[key].hash.content;
            var o := w'.db.requests[key].response.operation;
            && o.Some? && o.value in w'.db.operations
            && var op := w'.db.operations[o.value];
               && op.instance == req.instance && op.uid == key.uid && op.desired == Wanted(req.action)
               && (op.phase == Committed ==>
                     exists c | c in w'.history.completions + w'.history.already ::
                       Records(c, op) && c.actual.state == Wanted(req.action))
  {
    hide Run, Initial, Served, EndedTrue, Safe, Records;
    ServedAtFirst(w);
    RunKeepsServed(w, labels);
    CrashSafeAgreement(w, labels);
    var w' := Run(w, labels);
    ServedOne(w'.db, key);
    var op := w'.db.operations[w'.db.requests[key].response.operation.value];
    if op.phase == Committed { CommittedEnded(w', op); }
  }

  lemma ServedAtFirst(w: World)
    requires Initial(w)
    ensures Safe(w) && Served(w.db)
  {
    InitialSafe(w);
  }
}
