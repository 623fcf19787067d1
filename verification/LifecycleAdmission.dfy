/**
 What admission guarantees over a whole run: durable idempotency, one accepted mutation
 per generation, exclusive resources, and a single authority per instance.
 */
module LifecycleAdmission {
  import opened Schema
  import opened LifecycleModel
  import opened LifecycleMachine
  import opened LifecycleFrames
  import opened LifecycleInvariants

  // ---------------------------------------------------------- the invariants

  type Rows = map<InstanceId, Instance>

  ghost predicate SavedOk(rows: Rows, key: Key, saved: Saved) {
    var req := saved.hash.content;
    && req.id == key.request
    && req.instance in rows
    && (!req.action.Create? ==> req.action.expected < rows[req.instance].generation)
  }

  /** Two accepted requests that quote the same generation of the same instance, or
      that both create it. */
  ghost predicate Rival(a: Request, b: Request) {
    && a.instance == b.instance
    && (a.action.Create? <==> b.action.Create?)
    && (!a.action.Create? && !b.action.Create? ==> a.action.expected == b.action.expected)
  }

  ghost predicate RequestsOk(rows: Rows, requests: map<Key, Saved>) {
    && (forall key | key in requests :: SavedOk(rows, key, requests[key]))
    && (forall a, b | a in requests && b in requests && Rival(requests[a].hash.content, requests[b].hash.content) :: a == b)
  }

  ghost predicate Approved(state: InstanceState) { !state.Requested? && !state.Rejected? }

  /** An approved instance owns every resource of the profile it was requested under,
      and nothing else is owned by anyone. */
  ghost predicate ClaimsOk(rows: Rows, resources: map<Resource, InstanceId>) {
    && (forall id | id in rows && Approved(rows[id].state) ::
          forall r | r in rows[id].policy.content.resources :: r in resources && resources[r] == id)
    && (forall r | r in resources ::
          && resources[r] in rows && Approved(rows[resources[r]].state)
          && r in rows[resources[r]].policy.content.resources)
  }

  ghost predicate AuthorityOk(rows: Rows, registrations: set<InstanceId>) {
    forall id | id in registrations && id in rows :: !Approved(rows[id].state)
  }

  ghost predicate Admitting(db: Db) {
    && RequestsOk(db.instances, db.requests)
    && ClaimsOk(db.instances, db.resources)
    && AuthorityOk(db.instances, db.registrations)
  }

  // ------------------------------------------------------------- the claim loop

  /** The loop claims exactly the named resources, and only free ones. */
  lemma {:induction false} ClaimAllOwns(resources: map<Resource, InstanceId>, names: seq<Resource>, id: InstanceId)
    requires ClaimAll(resources, names, id).Some?
    ensures var claims := ClaimAll(resources, names, id).value;
            && (forall r | r in resources :: r !in names && r in claims && claims[r] == resources[r])
            && (forall r | r in names :: r in claims && claims[r] == id)
            && (forall r | r in claims :: r in resources || r in names)
    decreases |names|
  {
    if names != [] {
      assert names == [names[0]] + names[1..];
      ClaimAllOwns(resources[names[0] := id], names[1..], id);
    }
  }

  /** It succeeds exactly when every name is free and no name is listed twice. */
  lemma {:induction false} ClaimAllSucceeds(resources: map<Resource, InstanceId>, names: seq<Resource>, id: InstanceId)
    ensures ClaimAll(resources, names, id).Some? <==> Distinct(names) && forall r | r in names :: r !in resources
    decreases |names|
  {
    if names != [] {
      var rest := names[1..];
      assert names == [names[0]] + rest;
      ClaimAllSucceeds(resources[names[0] := id], rest, id);
      if ClaimAll(resources, names, id).Some? {
        forall i, j | 0 <= i < j < |names|
          ensures names[i] != names[j]
        {
          assert rest[j - 1] == names[j] && names[j] in rest;
          if i > 0 { assert rest[i - 1] == names[i]; }
        }
      }
      if Distinct(names) && forall r | r in names :: r !in resources {
        forall j | 0 <= j < |rest|
          ensures rest[j] !in resources[names[0] := id]
          ensures forall i | 0 <= i < j :: rest[i] != rest[j]
        {
          assert rest[j] == names[j + 1] && names[j + 1] in names && names[0] != names[j + 1];
          assert forall i | 0 <= i < j :: rest[i] == names[i + 1];
        }
      }
    }
  }

  // ------------------------------------------------------------------ admission

  /** One row changes: its generation grows, its policy stays. */
  ghost predicate Grown(rows: Rows, rows': Rows, id: InstanceId) {
    && id in rows' && rows' == rows[id := rows'[id]]
    && (id in rows ==> rows'[id].policy == rows[id].policy && rows'[id].generation > rows[id].generation)
  }

  lemma NewRequest(rows: Rows, rows': Rows, requests: map<Key, Saved>, uid: Uid, req: Request, response: Response)
    requires RequestsOk(rows, requests) && Key(uid, req.id) !in requests && Grown(rows, rows', req.instance)
    requires req.action.Create? ==> req.instance !in rows
    requires !req.action.Create? ==> req.instance in rows && rows[req.instance].generation == req.action.expected
    ensures RequestsOk(rows', requests[Key(uid, req.id) := Saved(Digest(req), response)])
  {
    var key := Key(uid, req.id);
    var requests' := requests[key := Saved(Digest(req), response)];
    forall k | k in requests'
      ensures SavedOk(rows', k, requests'[k])
    {
      if k != key { assert SavedOk(rows, k, requests[k]); }
    }
    forall a, b | a in requests' && b in requests' && Rival(requests'[a].hash.content, requests'[b].hash.content)
      ensures a == b
    {
      if a != key { assert SavedOk(rows, a, requests[a]); }
      if b != key { assert SavedOk(rows, b, requests[b]); }
    }
  }

  /** What the action does to rows and claims, before the row is written. */
  ghost predicate Acted(db: Db, tx: Tx<Db, Change, Error>, i: Instance) {
    tx.Done? ==>
      && tx.docs.instances == db.instances && tx.docs.requests == db.requests
      && tx.docs.registrations == db.registrations
      && tx.value.instance.policy == i.policy && tx.value.instance.generation == i.generation
  }

  /** An approval claims the policy's resources for an instance no controller knows;
      nothing else claims or approves. */
  ghost predicate Claimed(db: Db, tx: Tx<Db, Change, Error>, id: InstanceId, i: Instance) {
    tx.Done? ==>
      if Approved(tx.value.instance.state) && !Approved(i.state) then
        && id !in db.registrations
        && ClaimAll(db.resources, i.policy.content.resources, id) == Some(tx.docs.resources)
      else
        tx.docs.resources == db.resources && (Approved(tx.value.instance.state) <==> Approved(i.state))
  }

  lemma ApproveActed(db: Db, id: InstanceId, i: Instance, host: Host, probe: Probe)
    ensures Acted(db, ApproveTx(db, id, i, host, probe), i) && Claimed(db, ApproveTx(db, id, i, host, probe), id, i)
  {}

  lemma ChangeActed(db: Db, uid: Uid, id: InstanceId, i: Instance, desired: RunState, host: Host, probe: Probe)
    ensures Acted(db, ChangeTx(db, uid, id, i, desired, host, probe), i)
    ensures Claimed(db, ChangeTx(db, uid, id, i, desired, host, probe), id, i)
  {}

  lemma RecoverActed(db: Db, id: InstanceId, i: Instance)
    ensures Acted(db, RecoverTx(db, i), i) && Claimed(db, RecoverTx(db, i), id, i)
  {}

  lemma ActionActed(db: Db, uid: Uid, req: Request, host: Host, probe: Probe)
    requires !req.action.Create? && req.instance in db.instances
    ensures Acted(db, ActionTx(db, uid, req, db.instances[req.instance], host, probe), db.instances[req.instance])
    ensures Claimed(db, ActionTx(db, uid, req, db.instances[req.instance], host, probe), req.instance, db.instances[req.instance])
  {
    var i := db.instances[req.instance];
    match req.action
    case Approve(_) => ApproveActed(db, req.instance, i, host, probe);
    case Reject(_) =>
    case Transfer(_, _) =>
    case Recover(_) => RecoverActed(db, req.instance, i);
    case Start(_) => ChangeActed(db, uid, req.instance, i, Running, host, probe);
    case Stop(_) => ChangeActed(db, uid, req.instance, i, Stopped, host, probe);
  }

  lemma ClaimsFollow(rows: Rows, rows': Rows, resources: map<Resource, InstanceId>, resources': map<Resource, InstanceId>, id: InstanceId)
    requires ClaimsOk(rows, resources) && Grown(rows, rows', id)
    requires if Approved(rows'[id].state) && !(id in rows && Approved(rows[id].state))
             then ClaimAll(resources, rows'[id].policy.content.resources, id) == Some(resources')
             else resources' == resources && (Approved(rows'[id].state) <==> (id in rows && Approved(rows[id].state)))
    ensures ClaimsOk(rows', resources')
  {
    if resources' != resources { ClaimAllOwns(resources, rows'[id].policy.content.resources, id); }
    else if Approved(rows'[id].state) && !(id in rows && Approved(rows[id].state)) {
      ClaimAllOwns(resources, rows'[id].policy.content.resources, id);
    }
  }

  lemma MutateKeepsAdmitting(db: Db, uid: Uid, req: Request, host: Host, probe: Probe)
    requires Coupling(db) && Admitting(db) && !req.action.Create? && Key(uid, req.id) !in db.requests
    requires MutateTx(db, uid, req, host, probe).Done?
    ensures var tx := MutateTx(db, uid, req, host, probe);
            Record(tx.docs, uid, req, tx.value).Done? && Admitting(Record(tx.docs, uid, req, tx.value).docs)
  {
    hide Approved, PolicyHolds, ApproveTx, TransferTx, RecoverTx, ChangeTx, ClaimAll, InstanceOk, RequestsOk,
      ClaimsOk, Coupling;
    var id := req.instance;
    var tx := MutateTx(db, uid, req, host, probe);
    var i := db.instances[id];
    ActionActed(db, uid, req, host, probe);
    var rows' := db.instances[id := tx.value.instance];
    NewRequest(db.instances, rows', db.requests, uid, req, Response(View(tx.value.instance), tx.value.operation));
    ClaimsFollow(db.instances, rows', db.resources, tx.docs.resources, id);
  }

  lemma CreateKeepsAdmitting(db: Db, uid: Uid, req: Request, host: Host)
    requires Admitting(db) && req.action.Create? && Key(uid, req.id) !in db.requests
    requires CreateTx(db, uid, req, host).Done?
    ensures var tx := CreateTx(db, uid, req, host);
            Record(tx.docs, uid, req, tx.value).Done? && Admitting(Record(tx.docs, uid, req, tx.value).docs)
  {
    var id := req.instance;
    var tx := CreateTx(db, uid, req, host);
    var rows' := db.instances[id := tx.value.instance];
    NewRequest(db.instances, rows', db.requests, uid, req, Response(View(tx.value.instance), tx.value.operation));
    ClaimsFollow(db.instances, rows', db.resources, db.resources, id);
  }

  lemma AdmitKeepsAdmitting(db: Db, uid: Uid, req: Request, host: Host, probe: Probe)
    requires Coupling(db) && Admitting(db)
    ensures Admitting(After(AdmitTx(db, uid, req, host, probe), db))
  {
    if AdmitTx(db, uid, req, host, probe).Done? && Key(uid, req.id) !in db.requests {
      if req.action.Create? { CreateKeepsAdmitting(db, uid, req, host); }
      else { MutateKeepsAdmitting(db, uid, req, host, probe); }
    }
  }

  // -------------------------------------------------------------- other steps

  /** Workers never approve, un-approve, re-home or rewind an instance. */
  ghost predicate Progressed(rows: Rows, rows': Rows) {
    && rows'.Keys == rows.Keys
    && (forall id | id in rows ::
          && rows'[id].policy == rows[id].policy && rows'[id].generation >= rows[id].generation
          && (Approved(rows'[id].state) <==> Approved(rows[id].state)))
  }

  lemma ProgressKeepsAdmitting(w: World, w': World)
    requires Admitting(w.db) && SameAdmissions(w, w') && Progressed(w.db.instances, w'.db.instances)
    ensures Admitting(w'.db)
  {
    forall key | key in w'.db.requests
      ensures SavedOk(w'.db.instances, key, w'.db.requests[key])
    {
      assert SavedOk(w.db.instances, key, w.db.requests[key]);
    }
  }

  lemma ReserveProgresses(db: Db, o: OpId, enabled: bool)
    requires o in db.operations
    ensures Progressed(db.instances, After(ReserveTx(db, o, enabled), db).instances)
  {}

  lemma TickProgresses(w: World, pid: Pid, enabled: bool)
    ensures Progressed(w.db.instances, TickStep(w, pid, enabled).db.instances)
  {
    hide TickStep, ReserveTx;
    var o := TickPicks(w, pid, enabled);
    if TickStep(w, pid, enabled) != w { ReserveProgresses(w.db, o, enabled); }
  }

  lemma FinishTxProgresses(db: Db, op: Operation, observation: Option<Obs>, phase: Phase)
    requires Coupling(db) && (phase != Quarantined ==> observation.Some?)
    ensures Progressed(db.instances, After(FinishTx(db, op, observation, phase), db).instances)
  {
    hide OperationOk;
    if op.instance in db.instances { assert InstanceOk(db, op.instance); }
  }

  lemma FinishProgresses(w: World, pid: Pid, busy: bool)
    requires Safe(w)
    ensures Progressed(w.db.instances, FinishStep(w, pid, busy).db.instances)
  {
    hide Journaling, Exclusive, Processes, Approved, FinishTx, OperationOk, InstanceOk, LeaseOk, EffectOk, WorkerOk;
    if pid in w.workers && w.workers[pid].at.Checked? {
      var k := w.workers[pid];
      FinishTxProgresses(w.db, k.op, Some(k.at.result), if k.restore then RolledBack else Committed);
    }
  }

  lemma QuarantineProgresses(w: World, pid: Pid, busy: bool)
    requires Safe(w)
    ensures Progressed(w.db.instances, QuarantineStep(w, pid, busy).db.instances)
  {
    hide Journaling, Exclusive, Processes, Approved, InstanceOk, LeaseOk, EffectOk, WorkerOk, ExecutorOk, Actual,
      Live, Matches, KindOf;
    if pid in w.workers { FinishTxProgresses(w.db, w.workers[pid].op, None, Quarantined); }
  }

  lemma WorkerProgresses(w: World, pid: Pid, work: WorkerAct)
    requires Safe(w)
    ensures Progressed(w.db.instances, WorkerStep(w, pid, work).db.instances)
  {
    hide Safe, Approved, CallSimulationStep, FailStep, CheckResultStep, ReadBackTx, Actual;
    match work
    case Finish(busy) => FinishProgresses(w, pid, busy);
    case Quarantine(busy) => QuarantineProgresses(w, pid, busy);
    case Compensate(busy) =>
    case _ => WorkerFrame(w, pid, work);
  }

  lemma ClientKeepsAdmitting(w: World, l: Label)
    requires Safe(w) && Admitting(w.db) && l.Client?
    ensures Admitting(ClientStep(w, l).db)
  {
    hide Rival, Approved, Distinct, AdmitTx, DaemonOf, SimOf, Live, Matches, Target, Holds, HasNonce, WorkerLease,
      Proven, Current, ClaimOk, Owns, RecordOk, WroteSettled, SameRuntime, Access, CreateTx, MutateTx, Record,
      RuntimeIn, Exclusive, Processes, RequestsOk, ClaimsOk, AuthorityOk, ValidHost, InstanceOk, LeaseOk, EffectOk,
      WorkerOk, ExecutorOk, SavedOk, ProbeFor, Coupling, Journaling;
    AdmitKeepsAdmitting(w.db, l.uid, l.req, l.host, ProbeFor(w, l));
  }

  lemma StepKeepsAdmitting(w: World, l: Label)
    requires Safe(w) && Admitting(w.db)
    ensures Admitting(Step(w, l).db)
  {
    hide ExecutorOk, SavedOk, Rival, Approved, ValidHost, Dispatch, ProbeFor, Admits, AlreadyDone, Unanswered,
      DaemonOf, Pending, ReserveTx, Put, SimChangeTx, Failed, MintTx, ReadBackTx, Actual, Target, FinishTx, Completed,
      CompensateTx, ClaimTx, Exit, PutE, JournalTx, LaunchTx, ReportTx, SameRuntime, Live, Matches, KindOf, Holds,
      HasNonce, WorkerLease, Proven, Current, ClaimOk, Owns, RecordOk, WroteSettled, Distinct, AdmitTx, RuntimeIn,
      Terminal, SimOf, Owned, PutOnce, Admissible, ParentTimeoutStep, ReadBackStep, FailStep, CheckResultStep,
      FinishStep, CompensateStep, QuarantineStep, Gone, ClaimStep, ArmStep, InspectStep, JournalStep, ClearStep,
      StartCommandStep, CommandReturnsStep, ReinspectStep, SettleStep, ConfirmStep, ReportStep, KillExecutorStep,
      OperationOk, InstanceOk, LeaseOk, EffectOk, WorkerOk, Coupling, Journaling, Exclusive, Processes, RequestsOk,
      ClaimsOk, ForeignStep, LockFree, FirstPending, TickOn, CallSimulationStep, MintStep, SpawnStep, TickStep,
      WorkerStep, ExecutorStep;
    match l
    case Client(_, _, _, _, _, _, _, _, _) => ClientKeepsAdmitting(w, l);
    case Enroll(id) =>
    case Tick(pid, enabled) =>
      TickFrame(w, pid, enabled);
      TickProgresses(w, pid, enabled);
      ProgressKeepsAdmitting(w, TickStep(w, pid, enabled));
    case ByWorker(pid, work) =>
      WorkerFrame(w, pid, work);
      WorkerProgresses(w, pid, work);
      ProgressKeepsAdmitting(w, WorkerStep(w, pid, work));
    case ByExecutor(e, act) =>
      ExecutorFrame(w, e, act);
      ProgressKeepsAdmitting(w, ExecutorStep(w, e, act));
    case _ => EnvironmentFrame(w, l);
  }

  lemma {:induction false} RunKeepsAdmitting(w: World, labels: seq<Label>)
    requires Safe(w) && Admitting(w.db)
    ensures Admitting(Run(w, labels).db)
    decreases |labels|
  {
    hide ClaimOk, Owns, RecordOk, WroteSettled, SameRuntime, ValidHost, Dispatch, ProbeFor, Admits, AlreadyDone,
      LockFree, FirstPending, TickOn, CallSimulationStep, MintStep, SpawnStep, ParentTimeoutStep, ReadBackStep,
      FailStep, CheckResultStep, FinishStep, CompensateStep, QuarantineStep, Gone, ClaimStep, ArmStep, InspectStep,
      JournalStep, ClearStep, StartCommandStep, CommandReturnsStep, ReinspectStep, SettleStep, ConfirmStep,
      ReportStep, KillExecutorStep, Unanswered, DaemonOf, Approved, ClientStep, EnrollStep, TickStep, WorkerStep,
      ExecutorStep, LateEffectStep, FlapStep, AdvanceStep, ForeignStep, Live, Matches, KindOf, Target, Holds,
      HasNonce, WorkerLease, Proven, Current, AuthorityOk, Step, OperationOk, InstanceOk, LeaseOk, EffectOk, WorkerOk,
      ExecutorOk, SavedOk, Rival, Journaling, Exclusive, Processes, RequestsOk, ClaimsOk, Safe, Admitting, Coupling;
    if labels != [] {
      var before := labels[..|labels| - 1];
      RunKeepsAdmitting(w, before);
      RunKeepsSafe(w, before);
      StepKeepsAdmitting(Run(w, before), labels[|labels| - 1]);
    }
  }

  lemma InitialAdmitting(w: World)
    requires Initial(w)
    ensures Admitting(w.db)
  {}

  // ------------------------------------------------------------------ replays

  /** A durable response is never rewritten. */
  lemma StepKeepsSaved(w: World, l: Label)
    ensures forall key | key in w.db.requests ::
      key in Step(w, l).db.requests && Step(w, l).db.requests[key] == w.db.requests[key]
  {
    hide InspectStep, JournalStep, ClearStep, StartCommandStep, CommandReturnsStep, ReinspectStep, SettleStep,
      ConfirmStep, ReportStep, KillExecutorStep, Unanswered, DaemonOf, SimOf, Distinct, AdmitTx, Pending, ReserveTx,
      Put, SimChangeTx, Failed, MintTx, ReadBackTx, Target, FinishTx, Completed, CompensateTx, ClaimTx, Exit, PutE,
      JournalTx, LaunchTx, ReportTx, SameRuntime, RuntimeIn, AlreadyDone, LockFree, FirstPending, TickOn,
      CallSimulationStep, MintStep, SpawnStep, ParentTimeoutStep, ReadBackStep, FailStep, CheckResultStep, FinishStep,
      CompensateStep, QuarantineStep, Gone, ClaimStep, ArmStep, TickStep, WorkerStep, ExecutorStep, LateEffectStep;
    match l
    case Client(_, _, _, _, _, _, _, _, _) => AdmitKeepsSaved(w.db, l.uid, l.req, l.host, ProbeFor(w, l));
    case Enroll(_) =>
    case Tick(pid, enabled) => TickFrame(w, pid, enabled);
    case ByWorker(pid, work) => WorkerFrame(w, pid, work);
    case ByExecutor(e, act) => ExecutorFrame(w, e, act);
    case _ => EnvironmentFrame(w, l);
  }

  lemma AdmitKeepsSaved(db: Db, uid: Uid, req: Request, host: Host, probe: Probe)
    ensures var db' := After(AdmitTx(db, uid, req, host, probe), db);
            forall key | key in db.requests :: key in db'.requests && db'.requests[key] == db.requests[key]
  {
    if !req.action.Create? { MutateKeepsRequests(db, uid, req, host, probe); }
  }

  lemma MutateKeepsRequests(db: Db, uid: Uid, req: Request, host: Host, probe: Probe)
    requires !req.action.Create?
    ensures After(MutateTx(db, uid, req, host, probe), db).requests == db.requests
  {}

  lemma {:induction false} RunKeepsSaved(w: World, labels: seq<Label>, key: Key)
    requires key in w.db.requests
    ensures key in Run(w, labels).db.requests && Run(w, labels).db.requests[key] == w.db.requests[key]
    decreases |labels|
  {
    if labels != [] {
      RunKeepsSaved(w, labels[..|labels| - 1], key);
      StepKeepsSaved(Run(w, labels[..|labels| - 1]), labels[|labels| - 1]);
    }
  }

  /** Once a request was accepted, sending it again at any later time, under any
      policy, returns the first response and changes nothing, or is refused for exactly
      the caller's lost access; a busy store answers nothing. */
  lemma ReplayIsStable(w: World, first: Label, labels: seq<Label>, again: Label)
    requires Safe(w) && Admitting(w.db) && first.Client? && again.Client?
    requires ValidHost(first.host) && first.uuid !in w.db.operations
    requires Dispatch(w.db, first.uid, first.req, first.host, ProbeFor(w, first), first.busy, first.auditBusy).1.Some?
    requires again.uid == first.uid && again.req == first.req
    ensures var answer := Dispatch(w.db, first.uid, first.req, first.host, ProbeFor(w, first), first.busy, first.auditBusy).1;
            var later := Run(ClientStep(w, first), labels);
            var (db', replay) := Dispatch(later.db, again.uid, again.req, again.host, ProbeFor(later, again), again.busy, again.auditBusy);
            && again.req.instance in later.db.instances
            && (replay.Some? <==> !again.busy && Access(again.uid, later.db.instances[again.req.instance], again.host).None?)
            && (replay.Some? ==> replay == answer && db' == later.db)
            && db'.(events := later.db.events) == later.db
  {
    hide Live, Matches, Target, Holds, HasNonce, WorkerLease, Proven, Current, ClaimOk, Owns, RecordOk, WroteSettled,
      SameRuntime, AdminOnly, ActionTx, View, PutOnce, RuntimeIn, LockFree, FirstPending, TickOn, CallSimulationStep,
      MintStep, SpawnStep, ParentTimeoutStep, ReadBackStep, FailStep, CheckResultStep, FinishStep, CompensateStep,
      QuarantineStep, Gone, ClaimStep, ArmStep, InspectStep, JournalStep, ClearStep, StartCommandStep,
      CommandReturnsStep, ReinspectStep, SettleStep, ConfirmStep, ReportStep, KillExecutorStep, Unanswered,
      AlreadyDone, PolicyHolds, OperationOk, InstanceOk, LeaseOk, EffectOk, WorkerOk, ExecutorOk, Rival, Approved,
      CreateTx, MutateTx, Record, DaemonOf, SimOf, EnrollStep, TickStep, WorkerStep, ExecutorStep, LateEffectStep,
      FlapStep, AdvanceStep, ForeignStep, Journaling, Exclusive, ClaimsOk, AuthorityOk;
    var mid := ClientStep(w, first);
    var key := Key(first.uid, first.req.id);
    AcceptedIsSaved(w.db, first.uid, first.req, first.host, ProbeFor(w, first));
    ClientKeepsSafe(w, first);
    ClientKeepsAdmitting(w, first);
    RunKeepsSaved(mid, labels, key);
    RunKeepsSafe(mid, labels);
    RunKeepsAdmitting(mid, labels);
    assert SavedOk(Run(mid, labels).db.instances, key, Run(mid, labels).db.requests[key]);
  }

  lemma AcceptedIsSaved(db: Db, uid: Uid, req: Request, host: Host, probe: Probe)
    requires AdmitTx(db, uid, req, host, probe).Done?
    ensures var tx := AdmitTx(db, uid, req, host, probe);
            Key(uid, req.id) in tx.docs.requests && tx.docs.requests[Key(uid, req.id)] == Saved(Digest(req), tx.value)
  {}

  /** A different request under a used key never changes anything but the audit log. */
  lemma ReusedKeyIsRefused(w: World, labels: seq<Label>, key: Key, again: Label)
    requires key in w.db.requests && again.Client? && key == Key(again.uid, again.req.id)
    requires again.req != w.db.requests[key].hash.content
    ensures var later := Run(w, labels);
            var probe := ProbeFor(later, again);
            var (db', replay) := Dispatch(later.db, again.uid, again.req, again.host, probe, again.busy, again.auditBusy);
            && AdmitTx(later.db, again.uid, again.req, again.host, probe) == Raise(IdempotencyConflict)
            && replay.None? && db'.(events := later.db.events) == later.db
  {
    RunKeepsSaved(w, labels, key);
  }

  // ------------------------------------------------------------------ theorems

  /** From a fresh store, at most one accepted mutation ever quotes a given generation
      of an instance, and at most one creates it. */
  lemma OneMutationPerGeneration(w: World, labels: seq<Label>, a: Key, b: Key)
    requires Initial(w)
    requires a in Run(w, labels).db.requests && b in Run(w, labels).db.requests
    requires Rival(Run(w, labels).db.requests[a].hash.content, Run(w, labels).db.requests[b].hash.content)
    ensures a == b
  {
    hide Initial, Run, Rival, Step, ClientStep, EnrollStep, TickStep, WorkerStep, ExecutorStep, LateEffectStep,
      FlapStep, AdvanceStep, ForeignStep, ValidHost, Dispatch, ProbeFor, Admits, AlreadyDone, LockFree, FirstPending,
      TickOn, CallSimulationStep, MintStep, SpawnStep, ParentTimeoutStep, ReadBackStep, FailStep, CheckResultStep,
      FinishStep, CompensateStep, QuarantineStep, Gone, ClaimStep, ArmStep, InspectStep, JournalStep, ClearStep,
      StartCommandStep, CommandReturnsStep, ReinspectStep, SettleStep, ConfirmStep, ReportStep, KillExecutorStep,
      Unanswered, DaemonOf;
    InitialSafe(w);
    InitialAdmitting(w);
    RunKeepsAdmitting(w, labels);
  }

  /** From a fresh store, approved instances own their policy's resources, pairwise
      disjoint, and every claim belongs to an approved instance. */
  lemma ResourcesAreExclusive(w: World, labels: seq<Label>, a: InstanceId, b: InstanceId)
    requires Initial(w)
    requires a in Run(w, labels).db.instances && b in Run(w, labels).db.instances && a != b
    requires Approved(Run(w, labels).db.instances[a].state) && Approved(Run(w, labels).db.instances[b].state)
    ensures var db := Run(w, labels).db;
            && (forall r | r in db.instances[a].policy.content.resources ::
                  r in db.resources && db.resources[r] == a && r !in db.instances[b].policy.content.resources)
            && (forall r | r in db.resources ::
                  db.resources[r] in db.instances && r in db.instances[db.resources[r]].policy.content.resources)
  {
    hide Initial, Run, Approved, Step, ClientStep, EnrollStep, TickStep, WorkerStep, ExecutorStep, LateEffectStep,
      FlapStep, AdvanceStep, ForeignStep, ValidHost, Dispatch, ProbeFor, Admits, AlreadyDone, LockFree, FirstPending,
      TickOn, CallSimulationStep, MintStep, SpawnStep, ParentTimeoutStep, ReadBackStep, FailStep, CheckResultStep,
      FinishStep, CompensateStep, QuarantineStep, Gone, ClaimStep, ArmStep, InspectStep, JournalStep, ClearStep,
      StartCommandStep, CommandReturnsStep, ReinspectStep, SettleStep, ConfirmStep, ReportStep, KillExecutorStep,
      Unanswered, DaemonOf;
    InitialSafe(w);
    InitialAdmitting(w);
    RunKeepsAdmitting(w, labels);
  }

  /** A refused approval leaves the claims, and everything but the audit log, alone. */
  lemma RefusalLeavesNoClaim(db: Db, uid: Uid, req: Request, host: Host, probe: Probe, busy: bool, auditBusy: bool)
    requires Dispatch(db, uid, req, host, probe, busy, auditBusy).1.None?
    ensures var db' := Dispatch(db, uid, req, host, probe, busy, auditBusy).0;
            db'.(events := db.events) == db && db.events <= db'.events && |db'.events| <= |db.events| + 1
  {}

  /** No step but an enrolment writes the registration table. */
  lemma StepLeavesRegistry(w: World, l: Label)
    requires !l.Enroll?
    ensures Step(w, l).db.registrations == w.db.registrations
  {
    hide ClientStep, TickStep, WorkerStep, ExecutorStep, LateEffectStep, FlapStep, AdvanceStep, ForeignStep;
    match l
    case Client(_, _, _, _, _, _, _, _, _) => ClientLeavesRegistry(w, l);
    case Tick(pid, enabled) => TickFrame(w, pid, enabled);
    case ByWorker(pid, work) => WorkerFrame(w, pid, work);
    case ByExecutor(e, act) => ExecutorFrame(w, e, act);
    case _ => EnvironmentFrame(w, l);
  }

  lemma ClientLeavesRegistry(w: World, l: Label)
    requires l.Client?
    ensures ClientStep(w, l).db.registrations == w.db.registrations
  {
    hide AdmitTx, ProbeFor, ValidHost, Admits, AlreadyDone;
    AdmitLeavesRegistry(w.db, l.uid, l.req, l.host, ProbeFor(w, l));
  }

  lemma AdmitLeavesRegistry(db: Db, uid: Uid, req: Request, host: Host, probe: Probe)
    ensures After(AdmitTx(db, uid, req, host, probe), db).registrations == db.registrations
  {
    hide ActionTx;
    if !req.action.Create? && req.instance in db.instances { ActionActed(db, uid, req, host, probe); }
  }

  /** An instance the deployment controller has registered is never beyond `requested`
      or `rejected` here. */
  lemma OneAuthority(w: World, labels: seq<Label>, id: InstanceId)
    requires Initial(w)
    requires id in Run(w, labels).db.registrations && id in Run(w, labels).db.instances
    ensures Run(w, labels).db.instances[id].state in {Requested, Rejected}
  {
    hide Initial, Run, Step, ClientStep, EnrollStep, TickStep, WorkerStep, ExecutorStep, LateEffectStep, FlapStep,
      AdvanceStep, ForeignStep, ValidHost, Dispatch, ProbeFor, Admits, AlreadyDone, LockFree, FirstPending, TickOn,
      CallSimulationStep, MintStep, SpawnStep, ParentTimeoutStep, ReadBackStep, FailStep, CheckResultStep, FinishStep,
      CompensateStep, QuarantineStep, Gone, ClaimStep, ArmStep, InspectStep, JournalStep, ClearStep, StartCommandStep,
      CommandReturnsStep, ReinspectStep, SettleStep, ConfirmStep, ReportStep, KillExecutorStep, Unanswered, DaemonOf;
    InitialSafe(w);
    InitialAdmitting(w);
    RunKeepsAdmitting(w, labels);
  }
}
