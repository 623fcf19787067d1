/**
 The lifecycle backend contract, and the simulation and production backends as they
 run. Both honour the one contract `Honours`.
 */
module LifecycleBackends {
  import opened Schema
  import opened Durable
  import opened LifecycleModel
  import opened LifecycleCalls

  // ---------------------------------------------------------------- the contract

  /** One call of `apply` or `restore`: the resource before and after, and whether it
      is on record as this operation's own result. */
  datatype Call = Call(op: Operation, restore: bool, before: Obs, own: bool, after: Obs, marked: bool, result: Option<Obs>)

  /** A normal return is a verified desired or baseline state; a resource that is
      neither the baseline nor, for a restore, this operation's own is left alone; and
      a resource that was changed is marked, so that a later restore accepts it. */
  ghost predicate Honours(kind: Kind, c: Call) {
    && (c.result.Some? ==> Reads(kind, c.result.value, c.after) && c.after.state == Target(c.op, c.restore))
    && (!Reads(kind, c.before, c.op.baseline) && !(c.restore && c.own) ==> c.result.None? && Reads(kind, c.before, c.after))
    && (!Reads(kind, c.before, c.after) ==> c.marked)
  }

  // -------------------------------------------------------------------- simulation

  type Resources = map<InstanceId, SimResource>

  class SimulationBackend {
    const store: Store<Resources>

    constructor (store: Store<Resources>)
      ensures this.store == store
    {
      this.store := store;
    }

    /** `_change`. The injected fault strikes after the commit. */
    method Change(id: InstanceId, op: Operation, restore: bool, busy: bool, fault: bool) returns (r: Option<Obs>)
      requires !store.open && op.fence.Some?
      modifies store
      ensures !store.open
      ensures exists returned ::
        && Transacted(SimChangeTx(old(store.committed), id, op, restore), busy, old(store.committed), store.committed, returned)
        && r == (if fault then None else returned)
      ensures var was, now := SimOf(old(store.committed), id), SimOf(store.committed, id);
        Honours(Simulation, Call(op, restore, was.observation, was.operation == Some(op.id),
                                 now.observation, now.operation == Some(op.id), r))
    {
      ghost var tx := SimChangeTx(store.committed, id, op, restore);
      ghost var before := store.committed;
      r := None;
      var began := store.Begin(busy);
      if !began {
        assert Transacted(tx, busy, before, store.committed, None);
        return;
      }
      var resource := if id in store.draft then store.draft[id] else UNTOUCHED;
      var observed := resource.observation;
      if resource.fence > op.fence.value || (observed != op.baseline && !(restore && resource.operation == Some(op.id))) {
        store.Rollback();
        assert Transacted(tx, busy, before, store.committed, None);
        return;
      }
      var desired := Target(op, restore);
      var identity := None;
      if desired == Running { identity := Some(if restore then Relaunched(op.id) else Launched(op.id)); }
      var observation := Obs(desired, identity, "simulation", None);
      if restore && observed == op.baseline { observation := observed; }
      store.draft := store.draft[id := SimResource(observation, Some(op.id), op.fence.value)];
      store.Commit();
      assert Transacted(tx, busy, before, store.committed, Some(observation));
      if !fault { r := Some(observation); }
    }
  }

  /** A restore that has run once, crash or not, runs again with the same outcome, also
      under a later fence. */
  lemma SimulationRestoreIsIdempotent(sim: Resources, id: InstanceId, op: Operation, again: Operation)
    requires op.fence.Some? && again == op.(fence := again.fence, phase := again.phase, error := again.error)
    requires again.fence.Some? && again.fence.value >= op.fence.value
    requires SimChangeTx(sim, id, op, true).Done?
    ensures var once := SimChangeTx(sim, id, op, true);
            var twice := SimChangeTx(once.docs, id, again, true);
            && twice.Done? && twice.value == once.value
            && SimOf(twice.docs, id).observation == SimOf(once.docs, id).observation
  {}

  // -------------------------------------------------------------------- production

  /** The Docker or systemd runtimes; their health changes by itself. */
  class Daemon {
    var runtime: map<InstanceId, Obs>
    /** How many commands it was given. */
    ghost var commands: nat

    constructor ()
      ensures runtime == map[] && commands == 0
    {
      runtime, commands := map[], 0;
    }

    ghost function At(id: InstanceId): Obs
      reads this
    {
      RuntimeIn(runtime, id)
    }

    method Inspect(id: InstanceId, healthy: bool) returns (seen: Obs)
      modifies this
      ensures seen == At(id) && SameRuntime(seen, old(At(id))) && commands == old(commands)
      ensures seen == old(At(id)).(healthy := Some(healthy)) && runtime == old(runtime)[id := seen]
      ensures forall j | j != id :: At(j) == old(At(j))
    {
      seen := if id in runtime then runtime[id] else DOWN;
      seen := seen.(healthy := Some(healthy));
      runtime := runtime[id := seen];
    }

    /** A command that is refused, lost or late may or may not have had its effect. */
    method Mutate(id: InstanceId, outcome: Option<Obs>)
      modifies this
      ensures commands == old(commands) + 1
      ensures runtime == (if outcome.Some? then old(runtime)[id := outcome.value] else old(runtime))
      ensures outcome.Some? ==> At(id) == outcome.value
      ensures outcome.None? ==> At(id) == old(At(id))
      ensures forall j | j != id :: At(j) == old(At(j))
    {
      commands := commands + 1;
      if outcome.Some? { runtime := runtime[id := outcome.value]; }
    }
  }

  /** Only leases, journal records and events differ, and of the journal only `id`. */
  ghost predicate OwnJournal(db: Db, db': Db, id: InstanceId) {
    && db' == db.(leases := db'.leases, effects := db'.effects, events := db'.events)
    && (forall j | j != id :: (j in db'.effects <==> j in db.effects) && (j in db.effects ==> db'.effects[j] == db.effects[j]))
  }

  /** The last recorded result of the operation is what the runtime shows. */
  ghost predicate OwnResult(db: Db, id: InstanceId, o: OpId, runtime: Obs) {
    && id in db.effects && db.effects[id].op == o
    && db.effects[id].observation.Some? && SameRuntime(runtime, db.effects[id].observation.value)
  }

  ghost predicate Marked(db: Db, id: InstanceId, o: OpId) { id in db.effects && db.effects[id].op == o }

  ghost predicate UnknownIn(db: Db, id: InstanceId) { id in db.effects && db.effects[id].phase == Intent }

  /** The outcome of `execute` on a claimed lease. */
  ghost predicate Executed(db: Db, db': Db, claim: Claim, before: Obs, after: Obs, ok: bool) {
    var id := claim.lease.instance;
    && OwnJournal(db, db', id)
    && (ok ==>
          && id in db'.effects
          && var r := db'.effects[id];
             && r.op == claim.op.id && r.fence == claim.lease.fence && r.restore == claim.lease.restore && r.phase == Verified
             && r.observation == Some(after) && after.state == Target(claim.op, claim.lease.restore))
    && (UnknownIn(db, id) || (!SameRuntime(before, claim.op.baseline)
                              && !(claim.lease.restore && OwnResult(db, id, claim.op.id, before))) ==>
          !ok && SameRuntime(before, after) && db'.effects == db.effects)
    && (!SameRuntime(before, after) ==> Marked(db', id, claim.op.id))
    && (before.state == Target(claim.op, claim.lease.restore) ==> SameRuntime(before, after))
  }

  /** What an intent, or a match settled at once, was written for. */
  lemma JournalMeans(db: Db, claim: Claim, before: Obs, now: real)
    ensures var tx := JournalTx(db, claim, before, now);
            var id := claim.lease.instance;
            tx.Done? ==>
              && !UnknownIn(db, id)
              && (SameRuntime(before, claim.op.baseline) || (claim.lease.restore && OwnResult(db, id, claim.op.id, before)))
              && OwnJournal(db, tx.docs, id) && tx.docs.effects == db.effects[id := tx.value]
              && var r := tx.value;
                 && r.op == claim.op.id && r.fence == claim.lease.fence && r.restore == claim.lease.restore
                 && r.desired == Target(claim.op, claim.lease.restore)
                 && (if before.state == r.desired then r.phase == Settled && r.observation == Some(before) else r.phase == Intent)
  {}

  lemma OwnResultUpToHealth(db: Db, id: InstanceId, o: OpId, a: Obs, b: Obs)
    requires SameRuntime(a, b)
    ensures OwnResult(db, id, o, a) == OwnResult(db, id, o, b)
  {}

  /** At most one command, and none when the state already matches. */
  ghost predicate Sparing(matches: bool, before: nat, after: nat) {
    before <= after <= before + (if matches then 0 else 1)
  }

  class ProductionExecutor {
    const store: Store<Db>
    const daemon: Daemon

    constructor (store: Store<Db>, daemon: Daemon)
      ensures this.store == store && this.daemon == daemon
    {
      this.store, this.daemon := store, daemon;
    }

    /** What it works on. */
    ghost function Here(): Site
      reads this, store, daemon
    {
      Site(store.committed, daemon.runtime)
    }

    method Claim(nonce: Nonce, e: Weather) returns (r: Option<LifecycleModel.Claim>)
      requires !store.open
      modifies store
      ensures !store.open
      ensures Transacted(ClaimTx(old(store.committed), nonce, e.claimedAt, e.claimBinding, e.bound, e.enabled), e.claimBusy,
                         old(store.committed), store.committed, r)
    {
      r := None;
      var began := store.Begin(e.claimBusy);
      if !began { return; }
      if nonce !in store.draft.leases { store.Rollback(); return; }
      var lease := store.draft.leases[nonce];
      if !Owned(store.draft, lease.op, lease.fence) { store.Rollback(); return; }
      var op := store.draft.operations[lease.op];
      if || lease.consumed || e.claimedAt >= lease.expires || lease.binding != e.claimBinding || !e.bound
         || lease.restore != (op.phase == RollingBack) || (!lease.restore && !e.enabled) {
        store.Rollback();
        return;
      }
      r := Some(LifecycleModel.Claim(lease, op));
      lease := lease.(consumed := true);
      store.draft := store.draft.(leases := store.draft.leases[nonce := lease]);
      store.Commit();
    }

    /** The intent transaction. */
    method Journal(claim: LifecycleModel.Claim, before: Obs, now: real, busy: bool) returns (r: Option<Effect>)
      requires !store.open
      modifies store
      ensures !store.open
      ensures Transacted(JournalTx(old(store.committed), claim, before, now), busy, old(store.committed), store.committed, r)
    {
      r := None;
      var id := claim.lease.instance;
      var began := store.Begin(busy);
      if !began { return; }
      if !Owned(store.draft, claim.op.id, claim.lease.fence) { store.Rollback(); return; }
      var previous := None;
      if id in store.draft.effects { previous := Some(store.draft.effects[id]); }
      if previous.Some? {
        var p := previous.value;
        if p.phase == Intent || p.binding != claim.lease.binding || p.fence > claim.lease.fence {
          store.Rollback();
          return;
        }
      }
      if !Admissible(claim, before, previous) || now >= claim.lease.expires { store.Rollback(); return; }
      var desired := Target(claim.op, claim.lease.restore);
      var record := Effect(claim.op.id, claim.lease.fence, claim.lease.restore, claim.lease.binding, before, desired, Intent, None);
      if before.state == desired { record := record.(phase := Settled, observation := Some(before)); }
      store.draft := store.draft.(effects := store.draft.effects[id := record]);
      store.draft := store.draft.(events := store.draft.events + [Event(id, claim.op.uid, IntentRecorded, Some(claim.op.id))]);
      store.Commit();
      r := Some(record);
    }

    /** The check just before the command; it writes nothing. */
    method Clear(claim: LifecycleModel.Claim, now: real, busy: bool) returns (r: Option<()>)
      requires !store.open
      modifies store
      ensures !store.open && store.committed == old(store.committed)
      ensures Transacted(LaunchTx(old(store.committed), claim, now), busy, old(store.committed), store.committed, r)
    {
      r := None;
      var began := store.Begin(busy);
      if !began { return; }
      if Owned(store.draft, claim.op.id, claim.lease.fence) && now < claim.lease.expires {
        store.Commit();
        r := Some(());
      } else {
        store.Rollback();
      }
    }

    /** The settled and verified writes. */
    method Report(claim: LifecycleModel.Claim, record: Effect, seen: Obs, phase: EffectPhase, busy: bool) returns (r: Option<Effect>)
      requires !store.open
      modifies store
      ensures !store.open
      ensures Transacted(ReportTx(old(store.committed), claim, record, seen, phase), busy, old(store.committed), store.committed, r)
    {
      r := None;
      var id := claim.lease.instance;
      var began := store.Begin(busy);
      if !began { return; }
      if !Owned(store.draft, claim.op.id, claim.lease.fence) { store.Rollback(); return; }
      var written := record.(phase := phase, observation := Some(seen));
      store.draft := store.draft.(effects := store.draft.effects[id := written]);
      if phase == Verified {
        store.draft := store.draft.(events := store.draft.events + [Event(id, claim.op.uid, EffectVerified, Some(claim.op.id))]);
      }
      store.Commit();
      r := Some(written);
    }

    /** From an intent record to a settled one: clearance, command, second look. */
    method Act(claim: LifecycleModel.Claim, record: Effect, e: Weather) returns (r: Option<Effect>)
      requires !store.open && record.phase == Intent
      requires claim.lease.instance in store.committed.effects && store.committed.effects[claim.lease.instance] == record
      modifies store, daemon
      ensures !store.open && OwnJournal(old(store.committed), store.committed, claim.lease.instance)
      ensures r.Some? ==>
        && r.value == record.(phase := Settled, observation := Some(daemon.At(claim.lease.instance)))
        && claim.lease.instance in store.committed.effects && store.committed.effects[claim.lease.instance] == r.value
      ensures r.None? ==> store.committed == old(store.committed)
      ensures forall j | j != claim.lease.instance :: daemon.At(j) == old(daemon.At(j))
      ensures Sparing(false, old(daemon.commands), daemon.commands)
      ensures (Here(), r) == ActOf(old(Here()), claim, record, e)
    {
      r := None;
      var id := claim.lease.instance;
      var cleared := Clear(claim, e.launchedAt, e.launchBusy);
      if cleared.None? || !e.inTime { return; }
      daemon.Mutate(id, e.outcome);
      if !e.acknowledged || !e.reinspects { return; }
      var seen := daemon.Inspect(id, e.healthAfter);
      r := Report(claim, record, seen, Settled, e.settleBusy);
    }

    /** Verification and the verified record. */
    method Confirm(claim: LifecycleModel.Claim, record: Effect, e: Weather) returns (ok: bool)
      requires !store.open && record.phase == Settled && record.observation.Some?
      requires claim.lease.instance in store.committed.effects && store.committed.effects[claim.lease.instance] == record
      modifies store, daemon
      ensures !store.open && OwnJournal(old(store.committed), store.committed, claim.lease.instance)
      ensures SameRuntime(daemon.At(claim.lease.instance), old(daemon.At(claim.lease.instance)))
      ensures forall j | j != claim.lease.instance :: daemon.At(j) == old(daemon.At(j))
      ensures daemon.commands == old(daemon.commands)
      ensures claim.lease.instance in store.committed.effects
      ensures var seen := daemon.At(claim.lease.instance);
        store.committed.effects[claim.lease.instance] ==
          (if ok then record.(phase := Verified, observation := Some(seen)) else record)
        && (ok ==> seen.state == record.desired)
      ensures (Here(), ok) == ConfirmOf(old(Here()), claim, record, e)
    {
      ok := false;
      var id := claim.lease.instance;
      var seen := daemon.Inspect(id, e.healthAtEnd);
      if !e.verifies || seen.state != record.desired || (seen.state == Running && seen.healthy != Some(true))
         || !SameRuntime(seen, record.observation.value) {
        return;
      }
      var written := Report(claim, record, seen, Verified, e.reportBusy);
      ok := written.Some?;
    }

    /** `execute` after the lease is claimed. */
    method Work(claim: LifecycleModel.Claim, e: Weather) returns (ok: bool)
      requires !store.open
      modifies store, daemon
      ensures !store.open
      ensures Executed(old(store.committed), store.committed, claim, old(daemon.At(claim.lease.instance)),
                       daemon.At(claim.lease.instance), ok)
      ensures forall j | j != claim.lease.instance :: daemon.At(j) == old(daemon.At(j))
      ensures Sparing(old(daemon.At(claim.lease.instance)).state == Target(claim.op, claim.lease.restore), old(daemon.commands), daemon.commands)
      ensures (Here(), ok) == WorkOf(old(Here()), claim, e)
    {
      hide PerformOf, ReportTx, LaunchTx, JournalTx, OwnResult, Target;
      ok := false;
      if !e.inspects { return; }
      var before := daemon.Inspect(claim.lease.instance, e.healthBefore);
      JournalMeans(store.committed, claim, before, e.journaledAt);
      OwnResultUpToHealth(store.committed, claim.lease.instance, claim.op.id, old(daemon.At(claim.lease.instance)), before);
      var record := Journal(claim, before, e.journaledAt, e.journalBusy);
      if record.None? { return; }
      ok := Perform(claim, record.value, e);
    }

    /** From the journal record to the end: the command, unless the state already matches, and
        the verification. */
    method Perform(claim: LifecycleModel.Claim, record: Effect, e: Weather) returns (ok: bool)
      requires !store.open && (record.phase == Intent || (record.phase == Settled && record.observation.Some?))
      requires claim.lease.instance in store.committed.effects && store.committed.effects[claim.lease.instance] == record
      modifies store, daemon
      ensures !store.open && OwnJournal(old(store.committed), store.committed, claim.lease.instance)
      ensures forall j | j != claim.lease.instance :: daemon.At(j) == old(daemon.At(j))
      ensures Sparing(record.phase == Settled, old(daemon.commands), daemon.commands)
      ensures record.phase == Settled ==> SameRuntime(daemon.At(claim.lease.instance), old(daemon.At(claim.lease.instance)))
      ensures claim.lease.instance in store.committed.effects
      ensures var r := store.committed.effects[claim.lease.instance];
        && r == record.(phase := r.phase, observation := r.observation)
        && (ok ==> r.phase == Verified && r.observation == Some(daemon.At(claim.lease.instance)) && r.observation.value.state == record.desired)
      ensures (Here(), ok) == PerformOf(old(Here()), claim, record, e)
    {
      hide ActOf, ConfirmOf;
      ok := false;
      var settled := Some(record);
      if record.phase == Intent {
        settled := Act(claim, record, e);
        if settled.None? { return; }
      }
      ok := Confirm(claim, settled.value, e);
    }

    /** `execute`: a lease is good for one claim, and only its claim leads to a command. */
    method Execute(nonce: Nonce, e: Weather) returns (ok: bool)
      requires !store.open
      modifies store, daemon
      ensures !store.open
      ensures var tx := ClaimTx(old(store.committed), nonce, e.claimedAt, e.claimBinding, e.bound, e.enabled);
        if e.claimBusy || tx.Raise? then
          && !ok && store.committed == old(store.committed) && daemon.commands == old(daemon.commands)
          && forall j :: daemon.At(j) == old(daemon.At(j))
        else
          && Executed(tx.docs, store.committed, tx.value, old(daemon.At(tx.value.lease.instance)),
                      daemon.At(tx.value.lease.instance), ok)
          && Sparing(old(daemon.At(tx.value.lease.instance)).state == Target(tx.value.op, tx.value.lease.restore),
                     old(daemon.commands), daemon.commands)
          && forall j | j != tx.value.lease.instance :: daemon.At(j) == old(daemon.At(j))
      ensures (Here(), ok) == ExecuteOf(old(Here()), nonce, e)
    {
      ok := false;
      var claim := Claim(nonce, e);
      if claim.Some? { ok := Work(claim.value, e); }
    }
  }

  /** The worker's copy of an operation agrees with the stored row on what never changes. */
  ghost predicate Agrees(db: Db, op: Operation) {
    op.id in db.operations ==>
      && db.operations[op.id].id == op.id && db.operations[op.id].instance == op.instance
      && db.operations[op.id].baseline == op.baseline && db.operations[op.id].desired == op.desired
  }

  /** What the helper claims is what was issued. */
  lemma IssuedIsClaimed(db: Db, op: Operation, restore: bool, e: Weather)
    requires Agrees(db, op)
    requires MintTx(db, op, restore, e.mintEnabled, e.mintBound, e.nonce, e.binding, e.mintedAt + e.timeout).Done?
    ensures var minted := MintTx(db, op, restore, e.mintEnabled, e.mintBound, e.nonce, e.binding, e.mintedAt + e.timeout);
            var tx := ClaimTx(minted.docs, e.nonce, e.claimedAt, e.claimBinding, e.bound, e.enabled);
            && minted.value == e.nonce && OwnJournal(db, minted.docs, op.instance) && minted.docs.effects == db.effects
            && (tx.Done? ==>
                  && OwnJournal(db, tx.docs, op.instance) && tx.docs.effects == db.effects
                  && tx.value.lease.instance == op.instance && tx.value.lease.restore == restore && tx.value.op.id == op.id
                  && tx.value.op.baseline == op.baseline && Target(tx.value.op, restore) == Target(op, restore)
                  && Some(tx.value.lease.fence) == op.fence)
  {}

  /** A record read back is the verified one of this call. */
  lemma ReadIsVerified(db: Db, op: Operation, restore: bool)
    ensures var tx := ReadBackTx(db, op, restore);
            tx.Done? ==>
              && op.instance in db.effects && db.effects[op.instance].phase == Verified
              && db.effects[op.instance].observation == Some(tx.value) && tx.docs == db
  {}

  /** A call that stops before its helper has done nothing. */
  lemma NothingRun(op: Operation, seen: Obs, restore: bool, commands: nat)
    ensures Sparing(seen.state == Target(op, restore), commands, commands)
  {}

  class ProductionBackend {
    const store: Store<Db>
    const daemon: Daemon
    const executor: ProductionExecutor

    constructor (store: Store<Db>, daemon: Daemon)
      ensures this.store == store && this.daemon == daemon && executor.store == store && executor.daemon == daemon
    {
      this.store, this.daemon := store, daemon;
      executor := new ProductionExecutor(store, daemon);
    }

    /** `_mint`. */
    method Mint(op: Operation, restore: bool, e: Weather) returns (r: Option<Nonce>)
      requires !store.open
      modifies store
      ensures !store.open
      ensures Transacted(MintTx(old(store.committed), op, restore, e.mintEnabled, e.mintBound, e.nonce, e.binding, e.mintedAt + e.timeout),
                         e.mintBusy, old(store.committed), store.committed, r)
    {
      r := None;
      var began := store.Begin(e.mintBusy);
      if !began { return; }
      if !restore && !e.mintEnabled { store.Rollback(); return; }
      if op.fence.None? || !Owned(store.draft, op.id, op.fence.value) { store.Rollback(); return; }
      var current := store.draft.operations[op.id];
      if current.instance != op.instance || !e.mintBound || restore != (current.phase == RollingBack) { store.Rollback(); return; }
      var lease := Lease(op.id, op.instance, op.fence.value, restore, e.binding, false, e.mintedAt + e.timeout);
      var leases := PutOnce(store.draft.leases, e.nonce, lease);
      if leases.None? { store.Rollback(); return; }
      store.draft := store.draft.(leases := leases.value);
      store.draft := store.draft.(events := store.draft.events + [Event(op.instance, op.uid, LeaseIssued, Some(op.id))]);
      store.Commit();
      r := Some(e.nonce);
    }

    /** The last transaction of `_run`: a verified record of this very call, or nothing. */
    method ReadBack(op: Operation, restore: bool, busy: bool) returns (r: Option<Obs>)
      requires !store.open
      modifies store
      ensures !store.open && store.committed == old(store.committed)
      ensures Transacted(ReadBackTx(old(store.committed), op, restore), busy, old(store.committed), store.committed, r)
    {
      r := None;
      var began := store.Begin(busy);
      if !began { return; }
      if op.fence.Some? && Owned(store.draft, op.id, op.fence.value) && op.instance in store.draft.effects {
        var record := store.draft.effects[op.instance];
        if record.op == op.id && record.phase == Verified && record.restore == restore
           && Some(record.fence) == op.fence && record.observation.Some? {
          store.Commit();
          return record.observation;
        }
      }
      store.Rollback();
    }

    /** `_run`. Giving up on the helper is a failure of its own kind; what that helper
        still does belongs to the interleaved machine. */
    method Run(op: Operation, restore: bool, e: Weather) returns (r: Result<Obs, Failure>)
      requires !store.open && Agrees(store.committed, op) && executor.store == store && executor.daemon == daemon
      modifies store, daemon
      ensures !store.open && OwnJournal(old(store.committed), store.committed, op.instance)
      ensures forall j | j != op.instance :: daemon.At(j) == old(daemon.At(j))
      ensures var id := op.instance;
        var before := old(daemon.At(op.instance));
        && Honours(Production, Call(op, restore, before, OwnResult(old(store.committed), id, op.id, before),
                                    daemon.At(id), Marked(store.committed, id, op.id), if r.Ok? then Some(r.value) else None))
        && (UnknownIn(old(store.committed), id) ==> r.Err? && SameRuntime(before, daemon.At(id)))
      ensures Sparing(old(daemon.At(op.instance)).state == Target(op, restore), old(daemon.commands), daemon.commands)
      ensures old(daemon.At(op.instance)).state == Target(op, restore) ==> SameRuntime(old(daemon.At(op.instance)), daemon.At(op.instance))
      ensures r.Ok? ==>
        && op.instance in store.committed.effects
        && store.committed.effects[op.instance].phase == Verified
        && store.committed.effects[op.instance].observation == Some(r.value)
      ensures (Site(store.committed, daemon.runtime), r) == RunOf(old(Site(store.committed, daemon.runtime)), op, restore, e)
    {
      hide ExecuteOf, MintTx, ReadBackTx, Target, Agrees, Sparing, UnknownIn, Marked, OwnResult;
      ghost var db := store.committed;
      NothingRun(op, daemon.At(op.instance), restore, daemon.commands);
      r := Err(EffectFailed);
      var nonce := Mint(op, restore, e);
      if nonce.None? { return; }
      var ok := Help(db, nonce.value, op, restore, e);
      if e.gaveUp { return Err(EffectInProgress); }
      if !ok || e.helperFails { return; }
      ReadIsVerified(store.committed, op, restore);
      var result := ReadBack(op, restore, e.readBusy);
      if result.Some? { r := Ok(result.value); }
    }

    /** `_subprocess_executor`: the helper on the lease just issued, to its end. */
    method Help(ghost db: Db, nonce: Nonce, op: Operation, restore: bool, e: Weather) returns (ok: bool)
      requires !store.open && Agrees(db, op) && executor.store == store && executor.daemon == daemon
      requires MintTx(db, op, restore, e.mintEnabled, e.mintBound, e.nonce, e.binding, e.mintedAt + e.timeout) == Done(store.committed, nonce)
      modifies store, daemon
      ensures !store.open && OwnJournal(db, store.committed, op.instance)
      ensures forall j | j != op.instance :: daemon.At(j) == old(daemon.At(j))
      ensures var id := op.instance;
        var before := old(daemon.At(op.instance));
        && Honours(Production, Call(op, restore, before, OwnResult(db, id, op.id, before),
                                    daemon.At(id), Marked(store.committed, id, op.id), if ok then Some(daemon.At(id)) else None))
        && (UnknownIn(db, id) ==> !ok && SameRuntime(before, daemon.At(id)))
      ensures Sparing(old(daemon.At(op.instance)).state == Target(op, restore), old(daemon.commands), daemon.commands)
      ensures old(daemon.At(op.instance)).state == Target(op, restore) ==> SameRuntime(old(daemon.At(op.instance)), daemon.At(op.instance))
      ensures ok ==> op.instance in store.committed.effects && store.committed.effects[op.instance].observation == Some(daemon.At(op.instance))
      ensures (Site(store.committed, daemon.runtime), ok) == ExecuteOf(old(Site(store.committed, daemon.runtime)), e.nonce, e)
    {
      hide ExecuteOf, MintTx, ClaimTx, Target, Agrees;
      IssuedIsClaimed(db, op, restore, e);
      ok := executor.Execute(nonce, e);
    }

    /** A restore is idempotent: one that follows a restore that returned, whatever became of
        either in between, gives the daemon no command and leaves the runtime alone. */
    method RestoreTwice(op: Operation, e: Weather, f: Weather) returns (first: Result<Obs, Failure>, second: Result<Obs, Failure>, ghost again: nat)
      requires !store.open && Agrees(store.committed, op) && executor.store == store && executor.daemon == daemon
      modifies store, daemon
      ensures !store.open
      ensures first.Ok? ==>
        && again == 0 && first.value.state == op.baseline.state
        && SameRuntime(daemon.At(op.instance), first.value)
        && (second.Ok? ==> SameRuntime(second.value, first.value))
    {
      first := Run(op, true, e);
      ghost var given := daemon.commands;
      second := Run(op, true, f);
      again := daemon.commands - given;
    }
  }
}
