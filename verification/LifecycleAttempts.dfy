/**
 `tick` as a function of what it finds and of what the environment decides, and exactly how
 it ends: committed, rolled back, quarantined, or interrupted by a busy store.
 */
module LifecycleAttempts {
  import opened Schema
  import opened LifecycleModel
  import opened LifecycleInvariants
  import opened LifecycleCalls

  /** What the environment decides during one backend call and the check after it. */
  datatype Attempt = Attempt(qualified: bool, simBusy: bool, simFault: bool, weather: Weather,
                             inspects: bool, healthy: bool, finishBusy: bool)

  datatype Conditions = Conditions(locked: bool, reserveBusy: bool, first: Attempt, compensateBusy: bool,
                                   second: Attempt, quarantineBusy: bool)

  datatype Outcome = Finished | Abandoned | Failed

  /** Everything a tick touches. */
  datatype Scene = Scene(db: Db, sim: map<InstanceId, SimResource>, runtimes: map<InstanceId, Obs>)

  function SiteOf(c: Scene): Site { Site(c.db, c.runtimes) }

  // ----------------------------------------------------------------- step by step

  /** `_backend` and the call. */
  function InvokeOf(c: Scene, host: Host, op: Operation, restore: bool, a: Attempt): (Scene, Result<Obs, Failure>)
    requires op.fence.Some?
  {
    if op.instance !in c.db.instances || !PolicyHolds(c.db.instances[op.instance], host) || !a.qualified then (c, Err(EffectFailed))
    else if op.policy.content.backend == Production then
      var (s, r) := RunOf(SiteOf(c), op, restore, a.weather);
      (c.(db := s.db, runtimes := s.runtimes), r)
    else
      var tx := SimChangeTx(c.sim, op.instance, op, restore);
      if a.simBusy || tx.Raise? then (c, Err(EffectFailed))
      else (c.(sim := tx.docs), if a.simFault then Err(EffectFailed) else Ok(tx.value))
  }

  /** The second look. */
  function ObserveOf(c: Scene, op: Operation, a: Attempt): (Scene, Option<Obs>) {
    if !a.inspects then (c, None)
    else if op.policy.content.backend == Production then
      var s := Look(SiteOf(c), op.instance, a.healthy);
      (c.(runtimes := s.runtimes), Some(At(s, op.instance)))
    else (c, Some(SimOf(c.sim, op.instance).observation))
  }

  /** The body of either `try`. */
  function TryOf(c: Scene, host: Host, op: Operation, restore: bool, a: Attempt): (Scene, Outcome)
    requires op.fence.Some?
  {
    var (c1, result) := InvokeOf(c, host, op, restore, a);
    if result.Err? then (c1, if result.error == EffectInProgress then Abandoned else Failed)
    else
      var (c2, seen) := ObserveOf(c1, op, a);
      if seen != Some(result.value) || result.value.state != Target(op, restore) then (c2, Failed)
      else
        var tx := FinishTx(c2.db, op, Some(result.value), if restore then RolledBack else Committed);
        if a.finishBusy || tx.Raise? then (c2, Failed) else (c2.(db := tx.docs), Finished)
  }

  /** The last resort. */
  function GiveUpOf(c: Scene, op: Operation, busy: bool): (Scene, bool) {
    var tx := FinishTx(c.db, op, None, Quarantined);
    if busy || tx.Raise? then (c, false) else (c.(db := tx.docs), true)
  }

  /** The compensating attempt as it begins. */
  function Compensating(op: Operation): Operation { op.(phase := RollingBack, error := true) }

  function CompensatedOf(c: Scene, op: Operation): Scene { c.(db := After(CompensateTx(c.db, op), c.db)) }

  /** From the reservation to the end; `false` is a busy store. */
  function AttemptsOf(c: Scene, host: Host, picked: Picked, e: Conditions): (Scene, bool)
    requires picked.op.fence.Some?
  {
    var op := picked.op;
    var (c1, first) := TryOf(c, host, op, picked.restore, e.first);
    if first == Finished then (c1, true)
    else if first == Abandoned then GiveUpOf(c1, op, e.quarantineBusy)
    else if e.compensateBusy then (c1, false)
    else
      var (c2, second) := TryOf(CompensatedOf(c1, op), host, Compensating(op), true, e.second);
      if second == Finished then (c2, true) else GiveUpOf(c2, Compensating(op), e.quarantineBusy)
  }

  // ---------------------------------------------------------------- exactly when

  /** The simulated resource is the operation's to change. */
  ghost predicate SimStartable(c: Scene, op: Operation, restore: bool)
    requires op.fence.Some?
  {
    var resource := SimOf(c.sim, op.instance);
    && resource.fence <= op.fence.value
    && (resource.observation == op.baseline || (restore && resource.operation == Some(op.id)))
  }

  ghost predicate Qualifies(c: Scene, host: Host, op: Operation, a: Attempt) {
    op.instance in c.db.instances && PolicyHolds(c.db.instances[op.instance], host) && a.qualified
  }

  /** The attempt goes all the way: the backend gives a result, a second look finds it
      unchanged, and it is recorded. */
  ghost predicate Succeeds(c: Scene, host: Host, op: Operation, restore: bool, a: Attempt)
    requires op.fence.Some?
  {
    && Qualifies(c, host, op, a) && a.inspects && !a.finishBusy
    && if op.policy.content.backend == Production then
         Delivers(SiteOf(c), op, restore, a.weather) && a.healthy == a.weather.healthAtEnd
       else
         !a.simBusy && !a.simFault && SimStartable(c, op, restore)
  }

  /** The worker gives up on a helper that may still be running. */
  ghost predicate InProgress(c: Scene, host: Host, op: Operation, restore: bool, a: Attempt) {
    Qualifies(c, host, op, a) && op.policy.content.backend == Production && Issues(restore, a.weather) && a.weather.gaveUp
  }

  /** The worker holds the operation, and a nonce nobody has used. */
  ghost predicate Ready(c: Scene, op: Operation, restore: bool, a: Attempt) {
    && Holds(c.db, op) && op.phase == (if restore then RollingBack else Applying)
    && a.weather.nonce !in c.db.leases
  }

  lemma ReadyWorks(c: Scene, op: Operation, restore: bool, a: Attempt)
    requires Ready(c, op, restore, a)
    ensures Working(c.db, op, restore, a.weather)
  {}

  lemma SimExactly(c: Scene, op: Operation, restore: bool)
    requires op.fence.Some?
    ensures var tx := SimChangeTx(c.sim, op.instance, op, restore);
            && (tx.Done? <==> SimStartable(c, op, restore))
            && (tx.Done? ==>
                  && tx.value.state == Target(op, restore) && SimOf(tx.docs, op.instance).observation == tx.value
                  && SimOf(tx.docs, op.instance).operation == Some(op.id)
                  && SimOf(tx.docs, op.instance).fence == op.fence.value)
  {}

  lemma FinishExactly(db: Db, op: Operation, observation: Option<Obs>, phase: Phase)
    requires Holds(db, op) && (phase != Quarantined ==> observation.Some?)
    ensures FinishTx(db, op, observation, phase).Done?
    ensures var db' := FinishTx(db, op, observation, phase).docs;
            && op.id in db'.operations && db'.operations[op.id] == op.(phase := phase)
            && op.instance in db'.instances
            && db'.instances[op.instance].state == (if phase == Quarantined then RecoveryRequired else Idle(observation.value.state))
            && (phase != Quarantined ==>
                  db'.instances[op.instance].operation.None? && db'.instances[op.instance].observation == observation)
  {}

  lemma HoldsStays(db: Db, db': Db, op: Operation)
    requires Holds(db, op) && db'.operations == db.operations && db'.instances == db.instances
    ensures Holds(db', op)
  {}

  /** The documents a call leaves, as far as the rest of a tick depends on them. */
  lemma InvokeExactly(c: Scene, host: Host, op: Operation, restore: bool, a: Attempt)
    requires Ready(c, op, restore, a)
    ensures var (c1, r) := InvokeOf(c, host, op, restore, a);
            && c1.db.operations == c.db.operations && c1.db.instances == c.db.instances
            && (r == Err(EffectInProgress) <==> InProgress(c, host, op, restore, a))
            && (r.Ok? <==>
                  && Qualifies(c, host, op, a)
                  && if op.policy.content.backend == Production then Delivers(SiteOf(c), op, restore, a.weather)
                     else !a.simBusy && !a.simFault && SimStartable(c, op, restore))
            && (r.Ok? ==>
                  && r.value.state == Target(op, restore)
                  && if op.policy.content.backend == Production then
                       SameRuntime(At(SiteOf(c1), op.instance), r.value) && r.value.healthy == Some(a.weather.healthAtEnd)
                     else r.value == SimOf(c1.sim, op.instance).observation)
  {
    hide RunOf, SimChangeTx, Issues, Holds, PolicyHolds, Journals, Settles, Startable;
    ReadyHolds(c, op, restore, a);
    ReadyWorks(c, op, restore, a);
    RunExactly(SiteOf(c), op, restore, a.weather);
    SimExactly(c, op, restore);
  }

  lemma ReadyHolds(c: Scene, op: Operation, restore: bool, a: Attempt)
    requires Ready(c, op, restore, a)
    ensures Holds(c.db, op) && op.fence.Some?
  {}

  /** An attempt finishes exactly when it succeeds, and is abandoned exactly when it is still
      in progress. */
  lemma TryExactly(c: Scene, host: Host, op: Operation, restore: bool, a: Attempt)
    requires Ready(c, op, restore, a)
    ensures var (c1, r) := TryOf(c, host, op, restore, a);
            && (r == Finished <==> Succeeds(c, host, op, restore, a))
            && (r == Abandoned <==> InProgress(c, host, op, restore, a))
            && (r == Finished ==> op.id in c1.db.operations
                                  && c1.db.operations[op.id] == op.(phase := if restore then RolledBack else Committed))
            && (r != Finished ==> c1.db.operations == c.db.operations && c1.db.instances == c.db.instances)
  {
    hide InvokeOf, FinishTx, Holds, Delivers, SimStartable, Qualifies, Issues;
    ReadyHolds(c, op, restore, a);
    InvokeExactly(c, host, op, restore, a);
    var (c1, result) := InvokeOf(c, host, op, restore, a);
    if result.Ok? {
      var (c2, seen) := ObserveOf(c1, op, a);
      HoldsStays(c.db, c2.db, op);
      FinishExactly(c2.db, op, Some(result.value), if restore then RolledBack else Committed);
    }
  }

  /** A reservation goes forward exactly for a queued operation of an enabled authority; it
      gives the instance a new fence, and the operation that fence and its direction. */
  lemma ReserveExactly(db: Db, o: OpId, enabled: bool)
    requires Coupling(db) && o in db.operations && !Terminal(db.operations[o].phase)
    ensures var tx := ReserveTx(db, o, enabled);
            var op := db.operations[o];
            && tx.Done? && op.instance in db.instances
            && (tx.value.restore <==> op.phase != Queued || !enabled)
            && tx.value.op == op.(fence := Some(db.instances[op.instance].fence + 1),
                                  phase := if tx.value.restore then RollingBack else Applying)
            && Holds(tx.docs, tx.value.op) && tx.docs.leases == db.leases && tx.docs.effects == db.effects
  {
    assert OperationOk(db, o) && InstanceOk(db, db.operations[o].instance);
  }

  // ------------------------------------------------------------------ how a tick ends

  ghost predicate EndsAs(db: Db, op: Operation, phase: Phase) { op.id in db.operations && db.operations[op.id].phase == phase }

  /** What the compensating attempt finds after a first one that failed. */
  ghost function Midway(c: Scene, host: Host, picked: Picked, e: Conditions): Scene
    requires picked.op.fence.Some?
  {
    CompensatedOf(TryOf(c, host, picked.op, picked.restore, e.first).0, picked.op)
  }

  /** The compensating attempt goes all the way. */
  ghost predicate Undone(c: Scene, host: Host, picked: Picked, e: Conditions)
    requires picked.op.fence.Some?
  {
    Succeeds(Midway(c, host, picked, e), host, Compensating(picked.op), true, e.second)
  }

  ghost predicate Reserved(c: Scene, picked: Picked, e: Conditions) {
    && Ready(c, picked.op, picked.restore, e.first)
    && e.second.weather.nonce !in c.db.leases && e.second.weather.nonce != e.first.weather.nonce
  }

  lemma TryUsesOneNonce(c: Scene, host: Host, op: Operation, restore: bool, a: Attempt)
    requires op.fence.Some?
    ensures TryOf(c, host, op, restore, a).0.db.leases.Keys <= c.db.leases.Keys + {a.weather.nonce}
  {
    hide RunOf;
    RunUsesOneNonce(SiteOf(c), op, restore, a.weather);
  }

  lemma CompensatingHolds(db: Db, op: Operation)
    requires Holds(db, op)
    ensures Holds(CompensateTx(db, op).docs, Compensating(op))
  {}

  lemma MidwayReady(c: Scene, host: Host, picked: Picked, e: Conditions)
    requires Reserved(c, picked, e) && !Succeeds(c, host, picked.op, picked.restore, e.first)
    ensures Ready(Midway(c, host, picked, e), Compensating(picked.op), true, e.second)
    ensures Midway(c, host, picked, e).db.instances == c.db.instances
  {
    hide TryOf, Holds, Succeeds, InProgress;
    ReadyHolds(c, picked.op, picked.restore, e.first);
    TryExactly(c, host, picked.op, picked.restore, e.first);
    TryUsesOneNonce(c, host, picked.op, picked.restore, e.first);
    var c1 := TryOf(c, host, picked.op, picked.restore, e.first).0;
    HoldsStays(c.db, c1.db, picked.op);
    CompensatingHolds(c1.db, picked.op);
  }

  /** How a tick ends after its reservation: every ending, and exactly when. */
  lemma AttemptsExactly(c: Scene, host: Host, picked: Picked, e: Conditions)
    requires Reserved(c, picked, e)
    ensures var (c', ok) := AttemptsOf(c, host, picked, e);
            var op, done := picked.op, if picked.restore then RolledBack else Committed;
            if Succeeds(c, host, op, picked.restore, e.first) then ok && EndsAs(c'.db, op, done)
            else if InProgress(c, host, op, picked.restore, e.first) then
              (ok <==> !e.quarantineBusy) && (ok ==> EndsAs(c'.db, op, Quarantined))
            else if e.compensateBusy then !ok
            else if Undone(c, host, picked, e) then ok && EndsAs(c'.db, op, RolledBack)
            else (ok <==> !e.quarantineBusy) && (ok ==> EndsAs(c'.db, op, Quarantined))
  {
    hide TryOf, Holds, Succeeds, InProgress, Ready, FinishTx, CompensatedOf;
    var op := picked.op;
    ReadyHolds(c, op, picked.restore, e.first);
    TryExactly(c, host, op, picked.restore, e.first);
    var (c1, first) := TryOf(c, host, op, picked.restore, e.first);
    if first == Abandoned {
      HoldsStays(c.db, c1.db, op);
      FinishExactly(c1.db, op, None, Quarantined);
    } else if first == Failed && !e.compensateBusy {
      MidwayReady(c, host, picked, e);
      var mid := Midway(c, host, picked, e);
      TryExactly(mid, host, Compensating(op), true, e.second);
      var (c2, second) := TryOf(mid, host, Compensating(op), true, e.second);
      if second != Finished {
        ReadyHolds(mid, Compensating(op), true, e.second);
        HoldsStays(mid.db, c2.db, Compensating(op));
        FinishExactly(c2.db, Compensating(op), None, Quarantined);
      }
    }
  }

  // ------------------------------------------------------------- undisturbed attempts

  /** The parent and its helper meet no obstacle, and the daemon does as it is told. */
  ghost predicate FairWeather(op: Operation, restore: bool, e: Weather) {
    && Issues(restore, e) && Claims(restore, e) && e.inspects && !e.journalBusy && e.journaledAt < e.mintedAt + e.timeout
    && Settles(e) && e.verifies && !e.reportBusy && !e.gaveUp && !e.helperFails && !e.readBusy
    && e.outcome.Some? && e.outcome.value.state == Target(op, restore) && (Target(op, restore) == Running ==> e.healthAtEnd)
  }

  /** Nothing goes wrong around the attempt. */
  ghost predicate Undisturbed(op: Operation, restore: bool, a: Attempt) {
    && a.qualified && a.inspects && !a.finishBusy
    && if op.policy.content.backend == Production then FairWeather(op, restore, a.weather) && a.healthy == a.weather.healthAtEnd
       else !a.simBusy && !a.simFault
  }

  /** The resource is the operation's to start from. */
  ghost predicate Untaken(c: Scene, op: Operation, restore: bool, a: Attempt)
    requires op.fence.Some?
  {
    if op.policy.content.backend == Production then Startable(SiteOf(c), op, restore, a.weather) else SimStartable(c, op, restore)
  }

  ghost predicate Pinned(c: Scene, host: Host, op: Operation) {
    op.instance in c.db.instances && PolicyHolds(c.db.instances[op.instance], host)
  }

  lemma UndisturbedSucceeds(c: Scene, host: Host, op: Operation, restore: bool, a: Attempt)
    requires op.fence.Some? && Pinned(c, host, op) && Undisturbed(op, restore, a) && Untaken(c, op, restore, a)
    ensures Succeeds(c, host, op, restore, a)
  {}

  /** An undisturbed tick of a queued operation commits it. */
  lemma UndisturbedTickCommits(c: Scene, host: Host, picked: Picked, e: Conditions)
    requires Reserved(c, picked, e) && !picked.restore
    requires Pinned(c, host, picked.op) && Undisturbed(picked.op, false, e.first) && Untaken(c, picked.op, false, e.first)
    ensures var (c', ok) := AttemptsOf(c, host, picked, e); ok && EndsAs(c'.db, picked.op, Committed)
  {
    hide AttemptsOf, Pinned, Undisturbed, Untaken, Succeeds;
    ReadyHolds(c, picked.op, false, e.first);
    UndisturbedSucceeds(c, host, picked.op, false, e.first);
    AttemptsExactly(c, host, picked, e);
  }

  /** What a failed simulation call leaves is the operation's to restore if it was before. */
  lemma SimMidway(c: Scene, host: Host, picked: Picked, e: Conditions)
    requires picked.op.fence.Some? && picked.op.policy.content.backend == Simulation
    ensures SimStartable(Midway(c, host, picked, e), Compensating(picked.op), true) <==> SimStartable(c, picked.op, true)
  {
    hide FinishTx, PolicyHolds;
  }

  /** The first attempt wrote its intent, and nobody knows what became of it. */
  ghost predicate Lost(c: Scene, host: Host, picked: Picked, a: Attempt)
    requires picked.op.fence.Some?
  {
    Qualifies(c, host, picked.op, a) && LeavesUnknown(SiteOf(c), picked.op, picked.restore, a.weather)
  }

  ghost predicate Recorded(c: Scene, host: Host, picked: Picked, a: Attempt)
    requires picked.op.fence.Some?
  {
    Qualifies(c, host, picked.op, a) && Journals(SiteOf(c), picked.op, picked.restore, a.weather)
  }

  /** A failed production call leaves an unknown outcome, or its own last result, or what was
      there before. */
  lemma ProductionMidway(c: Scene, host: Host, picked: Picked, e: Conditions)
    requires Reserved(c, picked, e) && picked.op.policy.content.backend == Production
    requires !Succeeds(c, host, picked.op, picked.restore, e.first)
    ensures Startable(SiteOf(Midway(c, host, picked, e)), Compensating(picked.op), true, e.second.weather) <==>
              if Lost(c, host, picked, e.first) then false
              else if Recorded(c, host, picked, e.first) then e.second.weather.binding == e.first.weather.binding
              else Startable(SiteOf(c), picked.op, true, e.second.weather)
  {
    hide TryOf, Issues, Claims, Settles, Holds, Succeeds, InProgress, Qualifies, Startable, Leaves, Needed, Performs;
    var op := picked.op;
    ReadyHolds(c, op, picked.restore, e.first);
    ReadyWorks(c, op, picked.restore, e.first);
    TryExactly(c, host, op, picked.restore, e.first);
    if Qualifies(c, host, op, e.first) {
      var (s1, _) := RunOf(SiteOf(c), op, picked.restore, e.first.weather);
      RunExactly(SiteOf(c), op, picked.restore, e.first.weather);
      LeavesStartable(SiteOf(c), s1, op, picked.restore, e.first.weather, e.second.weather,
                      Journals(SiteOf(c), op, picked.restore, e.first.weather), Performs(SiteOf(c), op, picked.restore, e.first.weather));
      ProductionTry(c, host, picked, e.first);
      StartableStill(s1, SiteOf(Midway(c, host, picked, e)), op, e.second.weather);
    } else {
      Unqualified(c, host, picked, e.first);
      StartableStill(SiteOf(c), SiteOf(Midway(c, host, picked, e)), op, e.second.weather);
    }
  }

  lemma LeavesStartable(s: Site, s': Site, op: Operation, restore: bool, e: Weather, again: Weather, journals: bool, ok: bool)
    requires op.fence.Some? && Leaves(s, s', op, restore, e, journals, ok)
    ensures Startable(s', op, true, again) <==>
              if journals then !(Needed(s, op, restore) && !Settles(e)) && again.binding == e.binding
              else Startable(s, op, true, again)
  {
    hide Settles;
  }

  lemma StartableStill(s: Site, s': Site, op: Operation, e: Weather)
    requires op.fence.Some? && s'.db.effects == s.db.effects && SameRuntime(At(s', op.instance), At(s, op.instance))
    ensures Startable(s', Compensating(op), true, e) == Startable(s, op, true, e)
  {}

  lemma Unqualified(c: Scene, host: Host, picked: Picked, a: Attempt)
    requires picked.op.fence.Some? && !Qualifies(c, host, picked.op, a)
    ensures TryOf(c, host, picked.op, picked.restore, a).0 == c
  {}

  /** After the call itself, a failed attempt changes at most the runtime's health. */
  lemma ProductionTry(c: Scene, host: Host, picked: Picked, a: Attempt)
    requires Ready(c, picked.op, picked.restore, a) && picked.op.policy.content.backend == Production
    requires Qualifies(c, host, picked.op, a) && TryOf(c, host, picked.op, picked.restore, a).1 != Finished
    ensures var c1 := TryOf(c, host, picked.op, picked.restore, a).0;
            var s1 := RunOf(SiteOf(c), picked.op, picked.restore, a.weather).0;
            c1.db == s1.db && SameRuntime(At(SiteOf(c1), picked.op.instance), At(s1, picked.op.instance))
  {
    hide RunOf, FinishTx;
  }

  /** The compensating attempt can start: the simulated resource, or the runtime with a journal
      that knows the outcome of the first attempt, is the operation's own. */
  ghost predicate Restorable(c: Scene, host: Host, picked: Picked, e: Conditions)
    requires picked.op.fence.Some?
  {
    if picked.op.policy.content.backend == Simulation then SimStartable(c, picked.op, true)
    else if Recorded(c, host, picked, e.first) then
      !Lost(c, host, picked, e.first) && e.second.weather.binding == e.first.weather.binding
    else Startable(SiteOf(c), picked.op, true, e.second.weather)
  }

  /** A first attempt that failed, however it did, is undone by an undisturbed second one. */
  lemma FailedAttemptIsUndone(c: Scene, host: Host, picked: Picked, e: Conditions)
    requires Reserved(c, picked, e) && Pinned(c, host, picked.op)
    requires !Succeeds(c, host, picked.op, picked.restore, e.first) && !InProgress(c, host, picked.op, picked.restore, e.first)
    requires !e.compensateBusy && Undisturbed(Compensating(picked.op), true, e.second) && Restorable(c, host, picked, e)
    ensures var (c', ok) := AttemptsOf(c, host, picked, e); ok && EndsAs(c'.db, picked.op, RolledBack)
  {
    hide AttemptsOf, Succeeds, InProgress, Undisturbed, Recorded, Lost, Reserved, Midway;
    PickedHolds(c, picked, e);
    MidwayReady(c, host, picked, e);
    var mid := Midway(c, host, picked, e);
    if picked.op.policy.content.backend == Simulation { SimMidway(c, host, picked, e); } else {
      if Lost(c, host, picked, e.first) { LostIsRecorded(c, host, picked, e.first); }
      ProductionMidway(c, host, picked, e);
    }
    UndisturbedSucceeds(mid, host, Compensating(picked.op), true, e.second);
    AttemptsExactly(c, host, picked, e);
  }

  lemma PickedHolds(c: Scene, picked: Picked, e: Conditions)
    requires Reserved(c, picked, e)
    ensures Holds(c.db, picked.op) && picked.op.fence.Some?
  {}

  lemma LostIsRecorded(c: Scene, host: Host, picked: Picked, a: Attempt)
    requires picked.op.fence.Some? && Lost(c, host, picked, a)
    ensures Recorded(c, host, picked, a)
  {}

  /** An operation is quarantined only because its helper may still be running, or because both
      attempts failed. */
  lemma QuarantinedExactly(c: Scene, host: Host, picked: Picked, e: Conditions)
    requires Reserved(c, picked, e)
    ensures var (c', ok) := AttemptsOf(c, host, picked, e);
            ok && EndsAs(c'.db, picked.op, Quarantined) <==>
              && !e.quarantineBusy && !Succeeds(c, host, picked.op, picked.restore, e.first)
              && (InProgress(c, host, picked.op, picked.restore, e.first)
                  || (!e.compensateBusy && !Undone(c, host, picked, e)))
  {
    hide AttemptsOf, Succeeds, InProgress, Reserved, Undone;
    PickedHolds(c, picked, e);
    AttemptsExactly(c, host, picked, e);
  }
}
