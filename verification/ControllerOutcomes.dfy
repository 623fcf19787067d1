/**
 How an execution, a rollback and a recovery end, in terms of what the environment answers
 and what the host runs: the conditions a caller could check, without the transactions.
 */
module ControllerOutcomes {
  import opened Schema
  import opened ControllerModel
  import opened ControllerInvariants
  import M = ControllerMachine

  /** What the environment answers to one attempt, forward or back: entering the phase that
      follows the effect, the effect, the verification, its record, the commit. */
  datatype Attempt = Attempt(
    effect: M.Answers, effectAt: real, phaseBusy: bool, verify: M.Answers, verifiedAt: real, recordBusy: bool, commit: M.Answers)

  /** And to one whole execution. */
  datatype Course = Course(
    startBusy: bool, forward: Attempt, check: M.Answers, retreatBusy: bool, back: Attempt, giveUpBusy: bool)

  // -------------------------------------------------------------------- one attempt

  /** The service is what the plan found: its baseline, run by the same processes. */
  ghost predicate AsPlanned(op: Operation, seen: Runtime) { seen == Runtime(op.baseline, op.plan.plan.identity) }

  /** The backend is asked to deploy: in time, qualified and owning, and forward only through
      the gate and onto the service as planned. */
  ghost predicate Deploys(op: Operation, seen: Runtime, restore: bool, a: Attempt) {
    && !a.effect.busy && a.effectAt < DeadlineOf(op, restore) && a.effect.qualified && a.effect.owns
    && (!restore ==> a.effect.gate && a.effect.sound && AsPlanned(op, seen))
  }

  /** What runs after the effect. */
  ghost function Running(op: Operation, seen: Runtime, serial: nat, restore: bool, a: Attempt): Runtime {
    if Deploys(op, seen, restore, a) && a.effect.takes then Runtime(TargetOf(op, restore), serial) else seen
  }

  /** What was asked of it. */
  ghost function Struck(op: Operation, seen: Runtime, restore: bool, a: Attempt): seq<(InstanceId, SpecHash)> {
    if Deploys(op, seen, restore, a) then [(op.instance, TargetOf(op, restore))] else []
  }

  /** The target is found running by new processes, in time, and the commit goes through. */
  ghost predicate Lands(op: Operation, running: Runtime, restore: bool, a: Attempt) {
    && running.spec == TargetOf(op, restore) && running.identity != op.plan.plan.identity
    && !a.verify.busy && a.verifiedAt < DeadlineOf(op, restore) && a.verify.sound && a.verify.owns && !a.recordBusy
    && !a.commit.busy && a.commit.sound && a.commit.owns
  }

  /** The attempt goes all the way. */
  ghost predicate Carries(op: Operation, seen: Runtime, serial: nat, restore: bool, a: Attempt) {
    && Deploys(op, seen, restore, a) && !a.effect.raises && (!restore ==> !a.phaseBusy && op.phase == Applying)
    && Lands(op, Running(op, seen, serial, restore, a), restore, a)
  }

  /** Where a forward attempt leaves the operation if it does not. */
  ghost function Reaches(op: Operation, seen: Runtime, a: Attempt): Phase {
    if Deploys(op, seen, false, a) && !a.effect.raises && !a.phaseBusy && op.phase == Applying then Verifying else op.phase
  }

  // -------------------------------------------------------------------- the way back

  /** The check finds the service never touched. */
  ghost predicate Untouched(op: Operation, seen: Runtime, c: Course) {
    !c.check.busy && AsPlanned(op, seen) && c.check.owns && c.check.sound
  }

  /** The check finds something to restore, and "rolling_back" is entered. */
  ghost predicate Retreats(op: Operation, seen: Runtime, c: Course) {
    && !c.check.busy && !(AsPlanned(op, seen) && c.check.owns)
    && !c.retreatBusy && op.phase in {Reserved, Applying, Verifying, Recovering}
  }

  /** And the restoring attempt goes all the way. */
  ghost predicate Restored(op: Operation, seen: Runtime, serial: nat, c: Course) {
    Retreats(op, seen, c) && Carries(op, seen, serial, true, c.back)
  }

  /** How the rollback of an operation on a running service ends. */
  ghost predicate RollsBack(op: Operation, seen: Runtime, serial: nat, c: Course, r: Option<Phase>) {
    && (r == Some(Unchanged) <==> Untouched(op, seen, c))
    && (r == Some(RolledBack) <==> Restored(op, seen, serial, c))
    && (r == Some(RollbackFailed) <==> !Untouched(op, seen, c) && !Restored(op, seen, serial, c) && !c.giveUpBusy)
    && (r.None? <==> !Untouched(op, seen, c) && !Restored(op, seen, serial, c) && c.giveUpBusy)
  }

  /** What it leaves running, and what it asked for. */
  ghost function RunningBack(op: Operation, seen: Runtime, serial: nat, c: Course): Runtime {
    if Retreats(op, seen, c) then Running(op, seen, serial, true, c.back) else seen
  }

  ghost function AskedFor(op: Operation, seen: Runtime, c: Course): seq<(InstanceId, SpecHash)> {
    if Retreats(op, seen, c) then Struck(op, seen, true, c.back) else []
  }

  // ----------------------------------------------------------------- whole executions

  /** The next process identity after an attempt. */
  ghost function Serial(op: Operation, seen: Runtime, serial: nat, restore: bool, a: Attempt): nat {
    if Deploys(op, seen, restore, a) && a.effect.takes then serial + 1 else serial
  }

  /** The operation as the rollback after a failed forward attempt finds it. */
  ghost function Begun(op: Operation, seen: Runtime, c: Course): Operation {
    op.(phase := Reaches(op.(phase := Applying), seen, c.forward))
  }

  /** How the execution of a reserved operation on a running service ends. */
  ghost predicate Executes(op: Operation, seen: Runtime, serial: nat, c: Course, r: Option<Phase>) {
    var entered := op.(phase := Applying);
    if c.startBusy then r.None?
    else if Carries(entered, seen, serial, false, c.forward) then r == Some(Committed)
    else
      RollsBack(Begun(op, seen, c), Running(entered, seen, serial, false, c.forward), Serial(entered, seen, serial, false, c.forward), c, r)
  }

  ghost function RunningAfter(op: Operation, seen: Runtime, serial: nat, c: Course): Runtime {
    var entered := op.(phase := Applying);
    var mid := Running(entered, seen, serial, false, c.forward);
    if c.startBusy then seen
    else if Carries(entered, seen, serial, false, c.forward) then mid
    else RunningBack(Begun(op, seen, c), mid, Serial(entered, seen, serial, false, c.forward), c)
  }

  ghost function AllAsked(op: Operation, seen: Runtime, serial: nat, c: Course): seq<(InstanceId, SpecHash)> {
    var entered := op.(phase := Applying);
    if c.startBusy then []
    else if Carries(entered, seen, serial, false, c.forward) then Struck(entered, seen, false, c.forward)
    else
      Struck(entered, seen, false, c.forward)
      + AskedFor(Begun(op, seen, c), Running(entered, seen, serial, false, c.forward), c)
  }

  // ---------------------------------------------------------------- undisturbed ones

  /** Nothing goes wrong around the attempt: no busy store, no exception, answers in favour,
      in time, and the deployment takes. */
  ghost predicate Undisturbed(op: Operation, restore: bool, a: Attempt) {
    && !a.effect.busy && !a.phaseBusy && !a.verify.busy && !a.recordBusy && !a.commit.busy && !a.effect.raises
    && a.effect.gate && a.effect.qualified && a.effect.owns && a.effect.sound && a.effect.takes
    && a.verify.sound && a.verify.owns && a.commit.sound && a.commit.owns
    && a.effectAt < DeadlineOf(op, restore) && a.verifiedAt < DeadlineOf(op, restore)
  }

  /** An undisturbed deployment of the service as planned is committed, and an undisturbed
      restore of one that is not is rolled back: new processes run the target. */
  lemma UndisturbedCarries(op: Operation, seen: Runtime, serial: nat, restore: bool, a: Attempt)
    requires Undisturbed(op, restore, a) && serial != op.plan.plan.identity
    requires !restore ==> op.phase == Applying && AsPlanned(op, seen)
    ensures Carries(op, seen, serial, restore, a) && Running(op, seen, serial, restore, a) == Runtime(TargetOf(op, restore), serial)
  {}

  lemma UndisturbedRestores(op: Operation, seen: Runtime, serial: nat, c: Course, r: Option<Phase>)
    requires Undisturbed(op, true, c.back) && serial != op.plan.plan.identity
    requires !c.check.busy && !c.retreatBusy && !AsPlanned(op, seen) && op.phase in {Reserved, Applying, Verifying, Recovering}
    requires RollsBack(op, seen, serial, c, r)
    ensures r == Some(RolledBack) && RunningBack(op, seen, serial, c) == Runtime(op.baseline, serial)
    ensures AskedFor(op, seen, c) == [(op.instance, op.baseline)]
  {
    UndisturbedCarries(op, seen, serial, true, c.back);
  }

  /** An undisturbed execution of a reserved operation is committed with one deployment. */
  lemma UndisturbedExecutes(op: Operation, seen: Runtime, serial: nat, c: Course, r: Option<Phase>)
    requires Undisturbed(op, false, c.forward) && !c.startBusy && AsPlanned(op, seen) && serial != op.plan.plan.identity
    requires Executes(op, seen, serial, c, r)
    ensures r == Some(Committed) && RunningAfter(op, seen, serial, c) == Runtime(op.candidate, serial)
    ensures AllAsked(op, seen, serial, c) == [(op.instance, op.candidate)]
  {
    UndisturbedCarries(op.(phase := Applying), seen, serial, false, c.forward);
  }

  /** A deployment that took and was not committed is undone by an undisturbed way back. */
  lemma FailedDeploymentIsUndone(op: Operation, seen: Runtime, serial: nat, c: Course, r: Option<Phase>)
    requires Executes(op, seen, serial, c, r) && !c.startBusy && op.plan.plan.identity < serial
    requires var entered := op.(phase := Applying);
             Deploys(entered, seen, false, c.forward) && c.forward.effect.takes && !Carries(entered, seen, serial, false, c.forward)
    requires Undisturbed(op, true, c.back) && !c.check.busy && !c.retreatBusy
    ensures r == Some(RolledBack) && RunningAfter(op, seen, serial, c) == Runtime(op.baseline, serial + 1)
    ensures AllAsked(op, seen, serial, c) == [(op.instance, op.candidate), (op.instance, op.baseline)]
  {
    var entered := op.(phase := Applying);
    UndisturbedRestores(Begun(op, seen, c), Running(entered, seen, serial, false, c.forward), serial + 1, c, r);
  }

  /** Why a rollback may fail. */
  datatype Cause =
    | CheckRefused          // a busy store, or a report of the untouched service that is not sound
    | NoWayBack             // "rolling_back" could not be entered
    | RestoreRefused        // late, not qualified or not owning
    | RestoreRaised
    | NotRestored           // the baseline does not run in new processes
    | NotConfirmed          // late, unsound, no longer owning, or a busy store, up to the commit

  ghost predicate Caused(op: Operation, seen: Runtime, serial: nat, c: Course, cause: Cause) {
    match cause
    case CheckRefused => c.check.busy || (AsPlanned(op, seen) && c.check.owns && !c.check.sound)
    case NoWayBack => c.retreatBusy || op.phase !in {Reserved, Applying, Verifying, Recovering}
    case RestoreRefused =>
      c.back.effect.busy || c.back.effectAt >= op.recoveryDeadline || !c.back.effect.qualified || !c.back.effect.owns
    case RestoreRaised => c.back.effect.raises
    case NotRestored =>
      || (!c.back.effect.takes && (seen.spec != op.baseline || seen.identity == op.plan.plan.identity))
      || (c.back.effect.takes && serial == op.plan.plan.identity)
    case NotConfirmed =>
      || c.back.verify.busy || c.back.verifiedAt >= op.recoveryDeadline || !c.back.verify.sound || !c.back.verify.owns
      || c.back.recordBusy || c.back.commit.busy || !c.back.commit.sound || !c.back.commit.owns
  }

  /** A rollback of a service that was touched fails exactly for one of these causes. */
  lemma RollbackFailsExactly(op: Operation, seen: Runtime, serial: nat, c: Course)
    requires !Untouched(op, seen, c)
    ensures !Restored(op, seen, serial, c) <==> exists cause :: Caused(op, seen, serial, c, cause)
  {
    if !Restored(op, seen, serial, c) && !Caused(op, seen, serial, c, CheckRefused) {
      assert || Caused(op, seen, serial, c, NoWayBack) || Caused(op, seen, serial, c, RestoreRefused)
             || Caused(op, seen, serial, c, RestoreRaised) || Caused(op, seen, serial, c, NotRestored)
             || Caused(op, seen, serial, c, NotConfirmed);
    }
  }

  // ------------------------------------------------------- the transactions behind it

  /** What an owned operation of a sound store can rely on. */
  lemma Known(db: Db, t: Token)
    requires Sound(db) && Disowned(db, t).None?
    ensures var op := db.operations[t.id];
            && op.id == t.id && op.instance in db.registrations && op.plan in db.plans && db.plans[op.plan] == op.plan.plan
            && op.baseline in db.specs && op.candidate in db.specs
            && op.plan.plan.baseline == op.baseline && db.specs[op.baseline] == op.baseline.content
            && db.specs[op.candidate] == op.candidate.content
  {
    hide OneShot, TicketsOk, GrantsOk, Consumed;
    var op := db.operations[t.id];
    assert OperationOk(db.instances, op);
    assert op.plan in db.plans && PlanOk(db.instances, db.specs, op.plan);
  }

  lemma EffectExactly(db: Db, t: Token, restore: bool, seen: Runtime, a: Attempt)
    requires Sound(db) && Disowned(db, t).None?
    ensures var op := db.operations[t.id];
            var tx := EffectTx(db, t, restore, seen, a.effectAt, a.effect.gate, a.effect.qualified, a.effect.owns, a.effect.sound);
            && (!a.effect.busy && tx.Done? <==> Deploys(op, seen, restore, a))
            && (tx.Done? ==> Digest(tx.value) == TargetOf(op, restore))
  {
    hide Sound;
    Known(db, t);
  }

  lemma VerifyExactly(db: Db, t: Token, restore: bool, seen: Runtime, a: Attempt)
    requires Sound(db) && Disowned(db, t).None?
    ensures var op := db.operations[t.id];
            VerifyTx(db, t, restore, seen, a.verifiedAt, a.verify.owns, a.verify.sound).Done? <==>
              && seen.spec == TargetOf(op, restore) && seen.identity != op.plan.plan.identity
              && a.verifiedAt < DeadlineOf(op, restore) && a.verify.sound && a.verify.owns
    ensures EvidenceTx(db, t, seen).Done?
  {
    hide Sound;
    Known(db, t);
  }

  lemma CommitExactly(db: Db, t: Token, restore: bool, seen: Runtime, owns: bool, sound: bool)
    requires Sound(db) && Disowned(db, t).None?
    ensures CommitTx(db, t, restore, seen, seen, owns, sound).Done? <==> owns && sound
  {
    hide Sound;
    Known(db, t);
  }

  lemma CheckExactly(db: Db, t: Token, seen: Runtime, c: Course)
    requires Sound(db) && Disowned(db, t).None?
    ensures var op := db.operations[t.id];
            var tx := UnchangedTx(db, t, seen, c.check.owns, c.check.sound);
            && (tx.Done? <==> !(AsPlanned(op, seen) && c.check.owns && !c.check.sound))
            && (tx.Done? ==> (tx.value <==> AsPlanned(op, seen) && c.check.owns))
  {
    hide Sound;
    Known(db, t);
  }
}
