/**
 The deployment actions of the control entry: a reservation and its execution in one
 request.
 */
module ControllerActions {
  import opened Schema
  import opened ControllerModel
  import opened ControllerInvariants
  import opened ControllerService
  import opened ControllerOutcomes
  import opened ControllerPermits

  lemma UsedPlanIsBehind(db: Db, p: PlanId)
    requires Sound(db) && Used(db.operations, p)
    ensures p in db.plans && db.plans[p] == p.plan && p.plan.instance in db.instances
    ensures p.plan.fence < db.instances[p.plan.instance].fence
  {
    var used :| used in db.operations && db.operations[used].plan == p;
    assert OperationOk(db.instances, db.operations[used]);
  }

  lemma KnownPlan(db: Db, p: PlanId)
    requires Sound(db) && p in db.plans
    ensures db.plans[p] == p.plan
  {}

  /** A plan that has reserved an operation is refused from then on, whatever the approval. */
  lemma UsedPlanIsRefused(db: Db, p: PlanId, nonce: Nonce, expected: Option<Action>, seen: Runtime, sound: bool,
                          o: OpId, executor: Executor, now: real)
    requires Sound(db) && Used(db.operations, p)
    ensures BeginTx(db, p, nonce, expected, seen, sound, o, executor, now).Raise?
  {
    hide Sound, Used;
    UsedPlanIsBehind(db, p);
  }

  /** What a reservation hands to its execution. */
  lemma BegunOwns(db: Db, p: PlanId, nonce: Nonce, expected: Option<Action>, seen: Runtime, sound: bool,
                  o: OpId, executor: Executor, now: real)
    requires Sound(db) && BeginTx(db, p, nonce, expected, seen, sound, o, executor, now).Done?
    ensures var tx := BeginTx(db, p, nonce, expected, seen, sound, o, executor, now);
            var op := tx.value;
            && op.id == o && op.plan == p && op.candidate == p.plan.candidate && op.baseline == p.plan.baseline
            && op.instance == p.plan.instance && op.phase == Reserved && o in tx.docs.operations && tx.docs.operations[o] == op
            && op.instance in tx.docs.instances && tx.docs.instances[op.instance].generation == p.plan.generation
            && Disowned(tx.docs, TokenOf(op)).None?
            && (expected.Some? ==> expected.value == p.plan.action)
            && nonce in db.approvals && !db.approvals[nonce].consumed
            && nonce in tx.docs.approvals && tx.docs.approvals[nonce].consumed
            && p in db.plans && db.plans[p] == p.plan && p !in db.cancelled
  {
    hide Sound;
    KnownPlan(db, p);
  }

  /** A request that has to be performed: the store is free, and the plan can be begun with this
      approval on the service as it runs. */
  ghost predicate Accepts(db: Db, runtimes: map<InstanceId, Runtime>, p: PlanId, nonce: Nonce, action: Action, e: Desk) {
    && !e.busy && p.plan.instance in runtimes
    && Beginnable(db, p, nonce, Some(action), runtimes[p.plan.instance], e.sound, e.now)
  }

  /** What the reservation of a request decides and leaves. */
  lemma RequestDecides(db: Db, runtimes: map<InstanceId, Runtime>, p: PlanId, nonce: Nonce, action: Action, o: OpId, executor: Executor, e: Desk)
    requires Sound(db) && o !in db.operations
    ensures !(p in db.plans && db.plans[p].instance in runtimes) ==> !Accepts(db, runtimes, p, nonce, action, e)
    ensures p in db.plans && db.plans[p].instance in runtimes ==>
      var tx := BeginTx(db, p, nonce, Some(action), runtimes[db.plans[p].instance], e.sound, o, executor, e.now);
      && (!e.busy && tx.Done? <==> Accepts(db, runtimes, p, nonce, action, e))
      && Sound(After(tx, db))
      && (tx.Done? ==>
            && p.plan.instance == db.plans[p].instance && p.plan.instance in db.instances
            && tx.value == Reservation(db.instances[p.plan.instance].fence + 1, p, o, executor, e.now)
            && tx.value.id == o && tx.value.plan == p && tx.value.phase == Reserved && tx.value.instance == p.plan.instance
            && tx.value.baseline == p.plan.baseline && tx.value.candidate == p.plan.candidate
            && o in tx.docs.operations && tx.docs.operations[o] == tx.value
            && p.plan.instance in tx.docs.instances && tx.docs.instances[p.plan.instance].generation == p.plan.generation
            && Disowned(tx.docs, TokenOf(tx.value)).None? && action == p.plan.action
            && nonce in db.approvals && !db.approvals[nonce].consumed
            && nonce in tx.docs.approvals && tx.docs.approvals[nonce].consumed
            && p !in db.cancelled && !Used(db.operations, p))
  {
    hide Sound, BeginTx;
    if p in db.plans {
      KnownPlan(db, p);
      if p.plan.instance in runtimes {
        var seen := runtimes[p.plan.instance];
        BeginKeeps(db, p, nonce, Some(action), seen, e.sound, o, executor, e.now);
        BeginExactly(db, p, nonce, Some(action), seen, e.sound, o, executor, e.now);
        if BeginTx(db, p, nonce, Some(action), seen, e.sound, o, executor, e.now).Done? {
          BegunOwns(db, p, nonce, Some(action), seen, e.sound, o, executor, e.now);
          if Used(db.operations, p) { UsedPlanIsRefused(db, p, nonce, Some(action), seen, e.sound, o, executor, e.now); }
        }
      }
    }
  }

  class Entry {
    const controller: Controller

    constructor (controller: Controller)
      ensures this.controller == controller
    {
      this.controller := controller;
    }

    /** The call reserved an operation and worked it. */
    ghost predicate Worked(p: PlanId, nonce: Nonce, o: OpId, executor: Executor, runtimes: map<InstanceId, Runtime>,
                           asked: seq<(InstanceId, SpecHash)>, r: Option<Phase>)
      reads controller, controller.store, controller.host
    {
      var db := controller.store.committed;
      && o in db.operations && db.operations[o].plan == p && Used(db.operations, p)
      && nonce in db.approvals && db.approvals[nonce].consumed
      && var op := db.operations[o].(phase := Reserved);
         && op.id == o && op.instance == p.plan.instance && op.baseline == p.plan.baseline && op.candidate == p.plan.candidate
         && Elsewhere(runtimes, controller.host.runtimes, op.instance) && Asked(asked, controller.host.asked, op)
         && (r.Some? ==> controller.Ends(op, p.plan.generation, r.value))
         && (r.None? ==> !Terminal(db.operations[o].phase))
    }

    /** `apply`, `disable` or `rollback`: refused without effect, or reserved under this very
        plan and approval, deployed at most once and restored at most once, and ended as the
        result says. */
    method Act(p: PlanId, nonce: Nonce, action: Action, o: OpId, executor: Executor, e: Desk, c: Course) returns (r: Option<Phase>)
      requires !controller.store.open && Sound(controller.store.committed) && o !in controller.store.committed.operations
      modifies controller.store, controller.host
      ensures !controller.store.open && Sound(controller.store.committed)
      ensures o !in controller.store.committed.operations ==>
        && r.None? && controller.store.committed == old(controller.store.committed)
        && controller.host.runtimes == old(controller.host.runtimes) && controller.host.asked == old(controller.host.asked)
      ensures o in controller.store.committed.operations ==>
        && Worked(p, nonce, o, executor, old(controller.host.runtimes), old(controller.host.asked), r)
        && p.plan.action == action && p !in old(controller.store.committed).cancelled
        && nonce in old(controller.store.committed).approvals && !old(controller.store.committed).approvals[nonce].consumed
        && !Used(old(controller.store.committed).operations, p)
      ensures o in controller.store.committed.operations <==> Accepts(old(controller.store.committed), old(controller.host.runtimes), p, nonce, action, e)
      ensures o in controller.store.committed.operations ==>
        var op := Reservation(old(controller.store.committed).instances[p.plan.instance].fence + 1, p, o, executor, e.now);
        var seen := old(controller.host.runtimes)[p.plan.instance];
        && Executes(op, seen, old(controller.host.serial), c, r)
        && p.plan.instance in controller.host.runtimes
        && controller.host.runtimes[p.plan.instance] == RunningAfter(op, seen, old(controller.host.serial), c)
        && controller.host.asked == old(controller.host.asked) + AllAsked(op, seen, old(controller.host.serial), c)
    {
      hide Sound, BeginTx, Asked, Elsewhere, Executes, RunningAfter, AllAsked, Accepts, Reservation;
      ghost var db := controller.store.committed;
      RequestDecides(db, controller.host.runtimes, p, nonce, action, o, executor, e);
      var operation := controller.Begin(p, nonce, Some(action), o, executor, e);
      if operation.None? { return None; }
      ghost var begun := controller.store.committed;
      r := controller.Execute(TokenOf(operation.value), c);
      assert controller.store.committed.operations[o].plan == p;
    }

    /** However many approvals a plan gets, it is performed once: after a request that reserved
        it, every later one is refused without effect. */
    method ActAgain(p: PlanId, nonce: Nonce, action: Action, o: OpId, executor: Executor, e: Desk, c: Course) returns (r: Option<Phase>)
      requires !controller.store.open && Sound(controller.store.committed) && o !in controller.store.committed.operations
      requires Used(controller.store.committed.operations, p)
      modifies controller.store, controller.host
      ensures r.None? && controller.store.committed == old(controller.store.committed)
      ensures controller.host.runtimes == old(controller.host.runtimes) && controller.host.asked == old(controller.host.asked)
    {
      r := Act(p, nonce, action, o, executor, e, c);
    }
  }
}
