/**
 `Lifecycle.tick` as it runs: reserve, call the backend, verify, finish; on an
 exception compensate, and quarantine what cannot be compensated.
 */
module LifecycleWorker {
  import opened Schema
  import opened Durable
  import opened LifecycleModel
  import opened LifecycleMachine
  import opened LifecycleInvariants
  import opened LifecycleBackends
  import opened LifecycleCalls
  import opened LifecycleAttempts
  import opened LifecycleProgress

  datatype Escape = WorkerBusy | StoreBusy

  lemma ReservedHolds(db: Db, o: OpId, enabled: bool)
    requires Coupling(db) && Pending(db, o)
    ensures var tx := ReserveTx(db, o, enabled);
            tx.Done? && Coupling(tx.docs) && Holds(tx.docs, tx.value.op) && tx.value.op.id == o
            && PendingSet(tx.docs) == PendingSet(db) && db.operations[o].id == o
  {
    ReserveKeepsCoupling(db, o, enabled);
    assert OperationOk(db, o);
    SamePendingIsSame(db, ReserveTx(db, o, enabled).docs);
  }

  class Worker {
    const store: Store<Db>
    const host: Host
    const simulation: SimulationBackend
    const production: ProductionBackend

    constructor (store: Store<Db>, host: Host, simulation: SimulationBackend, production: ProductionBackend)
      ensures this.store == store && this.host == host && this.simulation == simulation && this.production == production
    {
      this.store, this.host, this.simulation, this.production := store, host, simulation, production;
    }

    ghost predicate Valid()
      reads this, store, simulation, simulation.store, production, production.executor
    {
      && production.store == store && production.executor.store == store && production.executor.daemon == production.daemon
      && !store.open && !simulation.store.open
    }

    /** Everything a tick touches. */
    ghost function Here(): Scene
      reads this, store, simulation, simulation.store, production, production.daemon
    {
      Scene(store.committed, simulation.store.committed, production.daemon.runtime)
    }

    /** The resource behind an instance, as it is. */
    ghost function Resource(kind: Kind, id: InstanceId): Obs
      reads this, simulation, simulation.store, production, production.daemon
    {
      if kind == Production then production.daemon.At(id) else SimOf(simulation.store.committed, id).observation
    }

    /** The scan of `tick` over the operations, in order of their ids. */
    method FirstOpen(operations: map<OpId, Operation>) returns (first: Option<OpId>)
      ensures first.None? ==> forall o | o in operations :: Terminal(operations[o].phase)
      ensures first.Some? ==>
        && first.value in operations && !Terminal(operations[first.value].phase)
        && forall o | o in operations && !Terminal(operations[o].phase) :: first.value <= o
    {
      first := None;
      var rest := operations.Keys;
      while rest != {}
        invariant rest <= operations.Keys
        invariant first.None? ==> forall o | o in operations.Keys - rest :: Terminal(operations[o].phase)
        invariant first.Some? ==>
          && first.value in operations && !Terminal(operations[first.value].phase)
          && forall o | o in operations.Keys - rest && !Terminal(operations[o].phase) :: first.value <= o
        decreases |rest|
      {
        var o :| o in rest;
        if !Terminal(operations[o].phase) && (first.None? || o < first.value) { first := Some(o); }
        rest := rest - {o};
      }
    }

    /** A new fence for the instance, and the direction the operation goes. */
    method Take(o: OpId) returns (picked: Picked)
      requires store.open && o in store.draft.operations && ReserveTx(store.draft, o, host.enabled).Done?
      requires store.draft.operations[o].id == o
      modifies store`draft
      ensures ReserveTx(old(store.draft), o, host.enabled) == Done(store.draft, picked)
    {
      var op := store.draft.operations[o];
      var i := store.draft.instances[op.instance];
      var restore := op.phase != Queued || !host.enabled;
      i := i.(fence := i.fence + 1);
      op := op.(fence := Some(i.fence), phase := if restore then RollingBack else Applying);
      store.draft := store.draft.(instances := store.draft.instances[op.instance := i]);
      store.draft := store.draft.(operations := store.draft.operations[op.id := op]);
      store.draft := store.draft.(events := store.draft.events + [Event(op.instance, op.uid, Reached(op.phase), Some(op.id))]);
      picked := Picked(op, restore);
    }

    /** The first transaction of `tick`. */
    method Reserve(busy: bool) returns (r: Result<Option<Picked>, Escape>)
      requires !store.open && Coupling(store.committed)
      modifies store
      ensures !store.open && Coupling(store.committed)
      ensures r.Err? ==> busy && store.committed == old(store.committed)
      ensures r == Ok(None) ==> PendingSet(old(store.committed)) == {} && store.committed == old(store.committed)
      ensures r.Ok? && r.value.Some? ==>
        var picked := r.value.value;
        && FirstPending(old(store.committed), picked.op.id)
        && ReserveTx(old(store.committed), picked.op.id, host.enabled) == Done(store.committed, picked)
        && Holds(store.committed, picked.op) && PendingSet(store.committed) == PendingSet(old(store.committed))
    {
      var began := store.Begin(busy);
      if !began { return Err(StoreBusy); }
      var first := FirstOpen(store.draft.operations);
      if first.None? {
        store.Commit();
        return Ok(None);
      }
      hide Coupling, Holds, PendingSet, ReserveTx;
      ReservedHolds(store.draft, first.value, host.enabled);
      var picked := Take(first.value);
      store.Commit();
      r := Ok(Some(picked));
    }

    /** `_backend` and the call. A profile that changed, or a backend that no longer
        qualifies, is an exception like any other. */
    method Invoke(op: Operation, restore: bool, a: Attempt) returns (r: Result<Obs, Failure>)
      requires Valid() && Holds(store.committed, op) && op.policy == store.committed.instances[op.instance].policy
      modifies store, simulation.store, production.daemon
      ensures Valid() && OwnJournal(old(store.committed), store.committed, op.instance)
      ensures r.Ok? ==>
        Reads(op.policy.content.backend, r.value, Resource(op.policy.content.backend, op.instance))
        && Resource(op.policy.content.backend, op.instance).state == Target(op, restore)
      ensures (Here(), r) == InvokeOf(old(Here()), host, op, restore, a)
    {
      hide RunOf, SimChangeTx;
      if !PolicyHolds(store.committed.instances[op.instance], host) || !a.qualified { return Err(EffectFailed); }
      if op.policy.content.backend == Production {
        r := production.Run(op, restore, a.weather);
      } else {
        var result := simulation.Change(op.instance, op, restore, a.simBusy, a.simFault);
        r := if result.Some? then Ok(result.value) else Err(EffectFailed);
      }
    }

    /** The second look at the resource. */
    method Observe(op: Operation, a: Attempt) returns (seen: Option<Obs>)
      requires Valid()
      modifies production.daemon
      ensures var kind := op.policy.content.backend;
        && SameRuntime(Resource(kind, op.instance), old(Resource(kind, op.instance)))
        && (kind == Simulation ==> Resource(kind, op.instance) == old(Resource(kind, op.instance)))
        && (seen.Some? ==> seen.value == Resource(kind, op.instance))
      ensures (Here(), seen) == ObserveOf(old(Here()), op, a)
    {
      if !a.inspects { return None; }
      if op.policy.content.backend == Production {
        var current := production.daemon.Inspect(op.instance, a.healthy);
        seen := Some(current);
      } else {
        var resources := simulation.store.committed;
        seen := Some(if op.instance in resources then resources[op.instance].observation else UNTOUCHED.observation);
      }
    }

    /** `_finish`. */
    method Finish(op: Operation, observation: Option<Obs>, phase: Phase, busy: bool) returns (r: Option<()>)
      requires !store.open && (phase != Quarantined ==> observation.Some?)
      modifies store
      ensures !store.open
      ensures Transacted(FinishTx(old(store.committed), op, observation, phase), busy, old(store.committed), store.committed, r)
    {
      r := None;
      var began := store.Begin(busy);
      if !began { return; }
      if op.instance !in store.draft.instances { store.Rollback(); return; }
      var current := store.draft.instances[op.instance];
      if current.operation != Some(op.id) || Some(current.fence) != op.fence { store.Rollback(); return; }
      if phase == Quarantined {
        current := current.(state := RecoveryRequired);
      } else {
        current := current.(state := Idle(observation.value.state), observation := observation, operation := None);
      }
      current := current.(generation := current.generation + 1);
      store.draft := store.draft.(instances := store.draft.instances[op.instance := current]);
      store.draft := store.draft.(operations := store.draft.operations[op.id := op.(phase := phase)]);
      store.draft := store.draft.(events := store.draft.events + [Event(op.instance, op.uid, Reached(phase), Some(op.id))]);
      store.Commit();
      r := Some(());
    }

    /** The instance rests, its record is its resource, and the resource is in `state`. */
    ghost predicate Settled(op: Operation, phase: Phase, state: RunState)
      reads this, store, simulation, simulation.store, production, production.daemon
    {
      var db := store.committed;
      var kind := op.policy.content.backend;
      && op.id in db.operations && db.operations[op.id].phase == phase
      && op.instance in db.instances && db.instances[op.instance].state == Idle(state)
      && db.instances[op.instance].operation == None && db.instances[op.instance].observation.Some?
      && Reads(kind, db.instances[op.instance].observation.value, Resource(kind, op.instance))
      && Resource(kind, op.instance).state == state
    }

    /** The body of either `try`: call, compare with a second look, finish. */
    method Try(op: Operation, restore: bool, a: Attempt) returns (r: Outcome)
      requires Valid() && Coupling(store.committed) && Holds(store.committed, op)
      requires op.phase == (if restore then RollingBack else Applying)
      modifies store, simulation.store, production.daemon
      ensures Valid() && Coupling(store.committed)
      ensures r == Finished ==>
        && PendingSet(store.committed) == PendingSet(old(store.committed)) - {op.id} && op.id in PendingSet(old(store.committed))
        && Settled(op, if restore then RolledBack else Committed, Target(op, restore))
      ensures r != Finished ==> OwnJournal(old(store.committed), store.committed, op.instance)
      ensures (Here(), r) == TryOf(old(Here()), host, op, restore, a)
    {
      hide InvokeOf, ObserveOf;
      assert OperationOk(store.committed, op.id);
      var result := Invoke(op, restore, a);
      SameTables(old(store.committed), store.committed);
      if result.Err? { return if result.error == EffectInProgress then Abandoned else Failed; }
      var seen := Observe(op, a);
      if seen != Some(result.value) || result.value.state != Target(op, restore) { return Failed; }
      ghost var db := store.committed;
      var phase := if restore then RolledBack else Committed;
      FinishLeaves(db, op, Some(result.value), phase);
      FinishKeepsCoupling(db, op, Some(result.value), phase);
      assert PendingSet(db) == PendingSet(old(store.committed));
      var finished := Finish(op, Some(result.value), phase, a.finishBusy);
      r := if finished.Some? then Finished else Failed;
    }

    /** The compensation intent is durable before the backend is asked to restore. */
    method Compensate(op: Operation, busy: bool) returns (r: Option<Operation>)
      requires !store.open
      modifies store
      ensures !store.open
      ensures Transacted(CompensateTx(old(store.committed), op), busy, old(store.committed), store.committed, r)
    {
      r := None;
      var began := store.Begin(busy);
      if !began { return; }
      var failed := op.(phase := RollingBack, error := true);
      store.draft := store.draft.(operations := store.draft.operations[op.id := failed]);
      store.draft := store.draft.(events := store.draft.events + [Event(op.instance, op.uid, Reached(RollingBack), Some(op.id))]);
      store.Commit();
      r := Some(failed);
    }

    /** The last resort. */
    method Quarantine(op: Operation, busy: bool) returns (ok: bool)
      requires Valid() && Coupling(store.committed) && Holds(store.committed, op) && op.phase in {Applying, RollingBack}
      modifies store
      ensures Valid() && Coupling(store.committed)
      ensures ok ==>
        && PendingSet(store.committed) == PendingSet(old(store.committed)) - {op.id} && op.id in PendingSet(old(store.committed))
        && op.id in store.committed.operations && store.committed.operations[op.id].phase == Quarantined
        && op.instance in store.committed.instances && store.committed.instances[op.instance].state == RecoveryRequired
      ensures !ok ==> store.committed == old(store.committed)
      ensures (Here(), ok) == GiveUpOf(old(Here()), op, busy)
    {
      FinishLeaves(store.committed, op, None, Quarantined);
      FinishKeepsCoupling(store.committed, op, None, Quarantined);
      var finished := Finish(op, None, Quarantined, busy);
      ok := finished.Some?;
    }

    /** How a worked operation may end. */
    ghost predicate Ends(op: Operation)
      reads this, store, simulation, simulation.store, production, production.daemon
    {
      || Settled(op, Committed, op.desired)
      || Settled(op, RolledBack, op.baseline.state)
      || (op.id in store.committed.operations && store.committed.operations[op.id].phase == Quarantined
          && op.instance in store.committed.instances && store.committed.instances[op.instance].state == RecoveryRequired)
    }

    /** After the reservation: one try, and on failure one compensating try. */
    method Work(picked: Picked, c: Conditions) returns (ok: bool)
      requires Valid() && Coupling(store.committed) && Holds(store.committed, picked.op)
      requires picked.op.phase == (if picked.restore then RollingBack else Applying)
      modifies store, simulation.store, production.daemon
      ensures Valid() && Coupling(store.committed)
      ensures ok ==>
        PendingSet(store.committed) == PendingSet(old(store.committed)) - {picked.op.id}
        && picked.op.id in PendingSet(old(store.committed)) && Ends(picked.op)
      ensures !ok ==> PendingSet(store.committed) == PendingSet(old(store.committed))
      ensures (Here(), ok) == AttemptsOf(old(Here()), host, picked, c)
    {
      hide TryOf;
      var op := picked.op;
      var r := Try(op, picked.restore, c.first);
      if r == Finished { return true; }
      SamePendingIsSame(old(store.committed), store.committed);
      if r == Abandoned {
        ok := Quarantine(op, c.quarantineBusy);
        return;
      }
      ghost var db := store.committed;
      CompensateKeepsCoupling(db, op);
      SamePendingIsSame(db, CompensateTx(db, op).docs);
      var compensated := Compensate(op, c.compensateBusy);
      if compensated.None? { return false; }
      op := compensated.value;
      ghost var mid := store.committed;
      r := Try(op, true, c.second);
      if r == Finished { return true; }
      SamePendingIsSame(mid, store.committed);
      ok := Quarantine(op, c.quarantineBusy);
    }

    /** How a tick has to end after its reservation, from what was there and what happened
        around it. */
    ghost predicate MustEnd(found: Scene, picked: Picked, c: Conditions, ok: bool)
      reads this, store, simulation, simulation.store, production, production.daemon
      requires picked.op.fence.Some?
    {
      var op := picked.op;
      var done := Succeeds(found, host, op, picked.restore, c.first);
      var running := InProgress(found, host, op, picked.restore, c.first);
      && (done ==> ok && Settled(op, if picked.restore then RolledBack else Committed, Target(op, picked.restore)))
      && (!done && !running && !c.compensateBusy && Undone(found, host, picked, c) ==>
            ok && Settled(op, RolledBack, op.baseline.state))
      && (ok && EndsAs(store.committed, op, Quarantined) <==>
            !c.quarantineBusy && !done && (running || (!c.compensateBusy && !Undone(found, host, picked, c))))
    }

    /** After the reservation, with what has to come of it. */
    method Serve(picked: Picked, c: Conditions) returns (ok: bool)
      requires Valid() && Coupling(store.committed) && Holds(store.committed, picked.op)
      requires picked.op.phase == (if picked.restore then RollingBack else Applying)
      modifies store, simulation.store, production.daemon
      ensures Valid() && Coupling(store.committed)
      ensures ok ==>
        PendingSet(store.committed) == PendingSet(old(store.committed)) - {picked.op.id}
        && picked.op.id in PendingSet(old(store.committed)) && Ends(picked.op)
      ensures !ok ==> PendingSet(store.committed) == PendingSet(old(store.committed))
      ensures (Here(), ok) == AttemptsOf(old(Here()), host, picked, c)
      ensures Reserved(old(Here()), picked, c) ==> MustEnd(old(Here()), picked, c, ok)
    {
      hide AttemptsOf, Coupling, Holds, Reserved, Succeeds, InProgress, Undone, PendingSet;
      ghost var found := Here();
      ok := Work(picked, c);
      if Reserved(found, picked, c) {
        AttemptsExactly(found, host, picked, c);
        QuarantinedExactly(found, host, picked, c);
      }
    }

    /** `tick`: idle exactly when nothing is pending; otherwise it works off exactly the
        first pending operation, unless a busy store stops it half way, which leaves the
        operation pending and the tables coupled. */
    method Tick(c: Conditions) returns (r: Result<bool, Escape>)
      requires Valid() && Coupling(store.committed)
      modifies store, simulation.store, production.daemon
      ensures Valid() && Coupling(store.committed)
      ensures r == Ok(false) ==> PendingSet(old(store.committed)) == {} && store.committed == old(store.committed)
      ensures r.Err? ==> PendingSet(store.committed) == PendingSet(old(store.committed))
      ensures r == Ok(true) ==> exists o :: (
        && FirstPending(old(store.committed), o)
        && PendingSet(store.committed) == PendingSet(old(store.committed)) - {o} && Ends(old(store.committed).operations[o]))
      ensures c.locked && !c.reserveBusy && PendingSet(old(store.committed)) != {} ==> exists o :: (
        && FirstPending(old(store.committed), o) && ReserveTx(old(store.committed), o, host.enabled).Done?
        && var tx := ReserveTx(old(store.committed), o, host.enabled);
           var found := old(Here()).(db := tx.docs);
           && tx.value.op.fence.Some?
           && (tx.value.restore <==> old(store.committed).operations[o].phase != Queued || !host.enabled)
           && (Here(), r == Ok(true)) == AttemptsOf(found, host, tx.value, c)
           && (Reserved(found, tx.value, c) ==> MustEnd(found, tx.value, c, r == Ok(true))))
    {
      hide AttemptsOf, Reserved, MustEnd;
      if !c.locked { return Err(WorkerBusy); }
      var reserved := Reserve(c.reserveBusy);
      if reserved.Err? { return Err(reserved.error); }
      if reserved.value.None? { return Ok(false); }
      var picked := reserved.value.value;
      var ok := Serve(picked, c);
      assert ok ==> Ends(old(store.committed).operations[picked.op.id]);
      r := if ok then Ok(true) else Err(StoreBusy);
    }
  }
}
