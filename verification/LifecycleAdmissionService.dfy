/**
 `Lifecycle.dispatch` and `_dispatch` as they run: one transaction whose draft is
 changed row by row, and a second one for the audit event of a refusal.
 */
module LifecycleAdmissionService {
  import opened Schema
  import opened Durable
  import opened LifecycleModel
  import opened LifecycleInvariants
  import opened LifecycleAdmission
  import opened LifecycleRequests

  class Admission {
    const store: Store<Db>
    const host: Host

    constructor (store: Store<Db>, host: Host)
      ensures this.store == store && this.host == host
    {
      this.store, this.host := store, host;
    }

    /** The claim loop: every resource is checked and put before the next one. */
    method Claim(names: seq<Resource>, id: InstanceId) returns (claimed: bool)
      requires store.open
      modifies store`draft
      ensures claimed <==> ClaimAll(old(store.draft.resources), names, id).Some?
      ensures claimed ==>
        store.draft == old(store.draft).(resources := ClaimAll(old(store.draft.resources), names, id).value)
    {
      var k := 0;
      while k < |names|
        invariant 0 <= k <= |names|
        invariant store.draft == old(store.draft).(resources := store.draft.resources)
        invariant ClaimAll(store.draft.resources, names[k..], id) == ClaimAll(old(store.draft.resources), names, id)
      {
        if names[k] in store.draft.resources { return false; }
        store.draft := store.draft.(resources := store.draft.resources[names[k] := id]);
        k := k + 1;
      }
      claimed := true;
    }

    method Approve(id: InstanceId, i: Instance, probe: Probe) returns (r: Result<Change, Error>)
      requires store.open
      modifies store`draft
      ensures Follows(ApproveTx(old(store.draft), id, i, host, probe), r, store.draft)
    {
      if i.state != Requested { return Err(StateConflict); }
      if !PolicyHolds(i, host) { return Err(PolicyChanged); }
      if !probe.qualified { return Err(BackendNotQualified); }
      if probe.inspected.None? { return Err(ObservationUnavailable); }
      if probe.inspected.value.state != Stopped { return Err(ExternalInstanceNotStopped); }
      var claimed := Claim(host.profiles[i.profile].resources, id);
      if !claimed { return Err(ResourceConflict); }
      if id in store.draft.registrations { return Err(LegacyAuthorityConflict); }
      r := Ok(Change(i.(state := Idle(Stopped), observation := probe.inspected), None));
    }

    method Recover(i: Instance) returns (r: Result<Change, Error>)
      requires store.open
      modifies store`draft
      ensures Follows(RecoverTx(old(store.draft), i), r, store.draft)
    {
      if i.state != RecoveryRequired { return Err(StateConflict); }
      if i.operation.None? || i.operation.value !in store.draft.operations { return Err(NotFound); }
      var operation := store.draft.operations[i.operation.value];
      operation := operation.(phase := RollingBack, error := false);
      store.draft := store.draft.(operations := store.draft.operations[operation.id := operation]);
      r := Ok(Change(i.(state := Recovering), Some(operation.id)));
    }

    /** `start` and `stop`. */
    method StartOrStop(uid: Uid, id: InstanceId, i: Instance, desired: RunState, probe: Probe) returns (r: Result<Change, Error>)
      requires store.open
      modifies store`draft
      ensures Follows(ChangeTx(old(store.draft), uid, id, i, desired, host, probe), r, store.draft)
    {
      if !i.state.Idle? || i.operation.Some? { return Err(OperationConflict); }
      if !PolicyHolds(i, host) { return Err(PolicyChanged); }
      if !probe.qualified { return Err(BackendNotQualified); }
      if !probe.newOperations { return Err(BackendOperationsDisabled); }
      if probe.inspected.None? { return Err(ObservationUnavailable); }
      if probe.inspected != i.observation { return Err(RuntimeIdentityDrift); }
      var seen := probe.inspected.value;
      var operation := Operation(probe.op, id, uid, seen, desired, Queued, false, i.policy, None);
      var instance := i;
      if seen.state == desired {
        operation := operation.(phase := Committed);
      } else {
        instance := i.(state := if desired == Running then Starting else Stopping, operation := Some(operation.id));
      }
      store.draft := store.draft.(operations := store.draft.operations[operation.id := operation]);
      r := Ok(Change(instance, Some(operation.id)));
    }

    /** Access, generation and the action itself. */
    method Mutate(uid: Uid, req: Request, probe: Probe) returns (r: Result<Change, Error>)
      requires store.open && !req.action.Create?
      modifies store`draft
      ensures Follows(MutateTx(old(store.draft), uid, req, host, probe), r, store.draft)
    {
      if req.instance !in store.draft.instances { return Err(NotFound); }
      var i := store.draft.instances[req.instance];
      var access := Access(uid, i, host);
      if access.Some? { return Err(access.value); }
      if i.generation != req.action.expected { return Err(GenerationConflict); }
      if AdminOnly(req.action) && uid !in host.admins { return Err(AdministratorRequired); }
      match req.action {
        case Approve(_) => r := Approve(req.instance, i, probe);
        case Reject(_) =>
          if i.state != Requested { return Err(StateConflict); }
          r := Ok(Change(i.(state := Rejected), None));
        case Transfer(_, newOwner) =>
          if !i.state.Idle? || i.operation.Some? { return Err(OperationConflict); }
          if !PolicyHolds(i, host) { return Err(PolicyChanged); }
          if newOwner !in host.profiles[i.profile].requesters { return Err(OwnerNotAllowed); }
          r := Ok(Change(i.(owner := newOwner, fence := i.fence + 1), None));
        case Recover(_) => r := Recover(i);
        case Start(_) => r := StartOrStop(uid, req.instance, i, Running, probe);
        case Stop(_) => r := StartOrStop(uid, req.instance, i, Stopped, probe);
      }
      if r.Ok? {
        var instance := r.value.instance;
        r := Ok(r.value.(instance := instance.(generation := instance.generation + 1)));
      }
    }

    /** `_dispatch` inside its transaction. */
    method Admit(uid: Uid, req: Request, probe: Probe) returns (r: Result<Response, Error>)
      requires store.open
      modifies store`draft
      ensures Follows(AdmitTx(old(store.draft), uid, req, host, probe), r, store.draft)
    {
      var key := Key(uid, req.id);
      if key in store.draft.requests {
        var saved := store.draft.requests[key];
        if saved.hash != Digest(req) { return Err(IdempotencyConflict); }
        if req.instance !in store.draft.instances { return Err(NotFound); }
        var access := Access(uid, store.draft.instances[req.instance], host);
        if access.Some? { return Err(access.value); }
        return Ok(saved.response);
      }
      if !host.enabled && !req.action.Recover? { return Err(NewOperationsDisabled); }
      var change: Result<Change, Error>;
      if req.action.Create? {
        var name := req.action.profile;
        if name !in host.profiles { return Err(ProfileNotRegistered); }
        if uid !in host.admins && uid !in host.profiles[name].requesters { return Err(Forbidden); }
        if req.instance in store.draft.instances { return Err(InstanceExists); }
        change := Ok(Change(
          Instance(name, Digest(host.profiles[name]), uid, 0, 0, Requested, None, None), None));
      } else {
        change := Mutate(uid, req, probe);
      }
      if change.Err? { return Err(change.error); }
      r := Save(uid, req, change.value);
    }

    /** Instance row, durable response, audit event. */
    method Save(uid: Uid, req: Request, change: Change) returns (r: Result<Response, Error>)
      requires store.open
      modifies store`draft
      ensures Follows(Record(old(store.draft), uid, req, change), r, store.draft)
    {
      var response := Response(View(change.instance), change.operation);
      store.draft := store.draft.(instances := store.draft.instances[req.instance := change.instance]);
      var requests := PutOnce(store.draft.requests, Key(uid, req.id), Saved(Digest(req), response));
      if requests.None? { return Err(ImmutableDocumentConflict); }
      store.draft := store.draft.(requests := requests.value);
      store.draft := store.draft.(events := store.draft.events +
        [Event(req.instance, uid, Accepted(req.action), change.instance.operation)]);
      r := Ok(response);
    }

    /** An accepted request commits everything it did; a refused one, wherever it
        failed, leaves at most its audit event. */
    method Dispatch(uid: Uid, req: Request, probe: Probe, busy: bool, auditBusy: bool) returns (answer: Option<Response>)
      requires !store.open
      modifies store
      ensures !store.open
      ensures (store.committed, answer) ==
        LifecycleModel.Dispatch(old(store.committed), uid, req, host, probe, busy, auditBusy)
      ensures Coupling(old(store.committed)) && Admitting(old(store.committed)) && probe.op !in old(store.committed).operations ==>
        Coupling(store.committed) && Admitting(store.committed)
      ensures Coupling(old(store.committed)) && Key(uid, req.id) !in old(store.committed).requests && !busy ==>
        Decided(old(store.committed), uid, req, host, probe, store.committed, answer)
    {
      hide Coupling, Admitting, Decided;
      if Coupling(store.committed) && Key(uid, req.id) !in store.committed.requests {
        DispatchDecides(store.committed, uid, req, host, probe, auditBusy);
      }
      if Coupling(store.committed) && Admitting(store.committed) && probe.op !in store.committed.operations {
        DispatchKeeps(store.committed, uid, req, host, probe, busy, auditBusy);
        DispatchKeepsAdmitting(store.committed, uid, req, host, probe, busy, auditBusy);
      }
      answer := None;
      var began := store.Begin(busy);
      if !began { return; }
      var result := Admit(uid, req, probe);
      if result.Ok? {
        store.Commit();
        return Some(result.value);
      }
      store.Rollback();
      began := store.Begin(auditBusy);
      if began {
        store.draft := store.draft.(events := store.draft.events + [Event(req.instance, uid, Refused(req.action), None)]);
        store.Commit();
      }
    }

    /** A client that sends its accepted request again gets its answer again, and nothing
        happens a second time. */
    method Resend(uid: Uid, req: Request, probe: Probe, again: Probe, busy: bool, auditBusy: bool, laterBusy: bool)
      returns (first: Option<Response>, second: Option<Response>)
      requires !store.open
      modifies store
      ensures !store.open
      ensures first == LifecycleModel.Dispatch(old(store.committed), uid, req, host, probe, busy, auditBusy).1
      ensures first.Some? ==>
        && second == (if laterBusy then None else first)
        && store.committed == LifecycleModel.Dispatch(old(store.committed), uid, req, host, probe, busy, auditBusy).0
    {
      hide AdmitTx;
      ghost var db := store.committed;
      first := Dispatch(uid, req, probe, busy, auditBusy);
      if first.Some? { AcceptedIsAnswered(db, uid, req, host, probe, again); }
      second := Dispatch(uid, req, again, laterBusy, true);
    }
  }

  /** A block that ends normally leaves the specified draft; one that raises is rolled
      back by its caller. */
  ghost predicate Follows<T>(tx: Tx<Db, T, Error>, r: Result<T, Error>, draft: Db) {
    match tx
    case Done(docs, value) => r == Ok(value) && draft == docs
    case Raise(error) => r == Err(error)
  }

  lemma DispatchKeepsAdmitting(db: Db, uid: Uid, req: Request, host: Host, probe: Probe, busy: bool, auditBusy: bool)
    requires Coupling(db) && Admitting(db)
    ensures Admitting(LifecycleModel.Dispatch(db, uid, req, host, probe, busy, auditBusy).0)
  {
    hide Coupling, AdmitTx;
    AdmitKeepsAdmitting(db, uid, req, host, probe);
  }

  /** Whoever had a request accepted still has access to its instance. */
  lemma AccessStays(db: Db, uid: Uid, req: Request, host: Host, probe: Probe)
    requires !req.action.Create? && MutateTx(db, uid, req, host, probe).Done?
    ensures Access(uid, MutateTx(db, uid, req, host, probe).value.instance, host).None?
  {
    var i := db.instances[req.instance];
    ActionKeepsOwner(db, uid, req, i, host, probe);
    hide ActionTx;
  }

  lemma ActionKeepsOwner(db: Db, uid: Uid, req: Request, i: Instance, host: Host, probe: Probe)
    requires !req.action.Create? && ActionTx(db, uid, req, i, host, probe).Done?
    ensures var i' := ActionTx(db, uid, req, i, host, probe).value.instance;
            i'.profile == i.profile && i'.policy == i.policy && (i'.owner == i.owner || AdminOnly(req.action))
  {}

  lemma AcceptedIsAnswered(db: Db, uid: Uid, req: Request, host: Host, probe: Probe, again: Probe)
    requires AdmitTx(db, uid, req, host, probe).Done?
    ensures var tx := AdmitTx(db, uid, req, host, probe); AdmitTx(tx.docs, uid, req, host, again) == tx
  {
    hide MutateTx;
    if Key(uid, req.id) !in db.requests && !req.action.Create? { AccessStays(db, uid, req, host, probe); }
  }
}
