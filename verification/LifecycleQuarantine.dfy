/**
 An unknown daemon outcome is never overridden.
 */
module LifecycleQuarantine {
  import opened Schema
  import opened LifecycleModel
  import opened LifecycleMachine
  import opened LifecycleFrames
  import opened LifecycleInvariants

  /** The journal says intent, and no executor that wrote it is left. */
  ghost predicate Unknown(w: World, id: InstanceId) {
    && id in w.db.effects && w.db.effects[id].phase == Intent
    && (forall e | e in w.executors && Owns(w.executors[e].at) :: w.executors[e].at.claim.lease.instance != id)
  }

  /** Nothing was done to the instance's resource between two worlds, and the journal
      still says the same. */
  ghost predicate Untouched(w: World, w': World, id: InstanceId) {
    && id in w.db.effects && id in w'.db.effects && w'.db.effects[id] == w.db.effects[id]
    && w.history.mutations <= w'.history.mutations
    && (forall k | |w.history.mutations| <= k < |w'.history.mutations| ::
          w'.history.mutations[k].claim.lease.instance != id)
  }

  /** An executor that dies, or whose command fails, after its intent was recorded
      leaves exactly that behind. */
  lemma LostExecutorLeavesUnknown(w: World, e: Pid)
    requires Safe(w) && e in w.executors && Owns(w.executors[e].at)
    ensures Unknown(Exit(w, e, false), w.executors[e].at.claim.lease.instance)
  {
    assert ExecutorOk(w.db, w.executors[e]);
    OneExecutor(w, e);
  }

  lemma SilentKeepsUnknown(w: World, w': World, id: InstanceId)
    requires Unknown(w, id) && Silent(w, w')
    ensures Unknown(w', id) && Untouched(w, w', id)
  {}

  lemma ClientKeepsUnknown(w: World, l: Label, id: InstanceId)
    requires Safe(w) && Unknown(w, id) && l.Client?
    ensures Unknown(ClientStep(w, l), id) && Untouched(w, ClientStep(w, l), id)
  {
    hide Journaling, Processes, Grounded, AdmitTx;
    if ValidHost(l.host) && l.uuid !in w.db.operations {
      AdmitKeeps(w.db, l.uid, l.req, l.host, ProbeFor(w, l));
    }
    SilentKeepsUnknown(w, ClientStep(w, l), id);
  }

  /** A live executor past its intent transaction works on another instance. */
  lemma OwnerIsElsewhere(w: World, e: Pid, id: InstanceId)
    requires Safe(w) && Unknown(w, id) && e in w.executors && !w.executors[e].at.Unclaimed?
    ensures Owns(w.executors[e].at) || WroteSettled(w.executors[e].at) ==> w.executors[e].at.claim.lease.instance != id
    ensures w.executors == map[e := w.executors[e]]
  {
    OneExecutor(w, e);
    assert ExecutorOk(w.db, w.executors[e]);
  }

  lemma PutKeepsUnknown(w: World, mid: World, e: Pid, at: ExecutorAt, id: InstanceId)
    requires Unknown(w, id) && e in w.executors && mid.executors == w.executors
    requires id in mid.db.effects && mid.db.effects[id] == w.db.effects[id]
    requires mid.history.mutations == w.history.mutations
    requires Owns(at) ==> at.claim.lease.instance != id
    ensures Unknown(PutE(mid, e, at), id) && Untouched(w, PutE(mid, e, at), id)
  {}

  /** The executor writes a journal record that is not the unknown one. */
  lemma ElsewhereKeepsUnknown(w: World, w': World, e: Pid, id: InstanceId)
    requires Unknown(w, id) && id in w'.db.effects && w'.db.effects[id] == w.db.effects[id]
    requires w'.history.mutations == w.history.mutations
    requires w'.executors == map[] ||
      (e in w'.executors && w'.executors == map[e := w'.executors[e]]
       && (Owns(w'.executors[e].at) ==> w'.executors[e].at.claim.lease.instance != id))
    ensures Unknown(w', id) && Untouched(w, w', id)
  {}

  lemma ExitKeepsUnknown(w: World, e: Pid, ok: bool, id: InstanceId)
    requires Unknown(w, id)
    ensures Unknown(Exit(w, e, ok), id) && Untouched(w, Exit(w, e, ok), id)
  {}

  /** A new executor may claim a lease and inspect, but its intent is refused. */
  lemma RefusedIntent(db: Db, claim: Claim, before: Obs, now: real, id: InstanceId)
    requires id in db.effects && db.effects[id].phase == Intent && JournalTx(db, claim, before, now).Done?
    ensures claim.lease.instance != id
    ensures var db' := JournalTx(db, claim, before, now).docs; id in db'.effects && db'.effects[id] == db.effects[id]
  {}

  lemma JournalKeepsUnknown(w: World, e: Pid, id: InstanceId)
    requires Safe(w) && Unknown(w, id)
    ensures Unknown(JournalStep(w, e), id) && Untouched(w, JournalStep(w, e), id)
  {
    hide InstanceOk, LeaseOk, EffectOk, WorkerOk, ExecutorOk, SameRuntime, Live, Matches, KindOf, Holds, HasNonce,
      WorkerLease, Proven, Current, ClaimOk, RecordOk, WroteSettled, Processes, Owns, Exit, PutE, Owned, Admissible,
      Target, OperationOk, Journaling, Exclusive;
    if e in w.executors && w.executors[e].at.Inspected? {
      var x := w.executors[e].at;
      var tx := JournalTx(w.db, x.claim, x.before, w.now);
      if tx.Done? {
        OwnerIsElsewhere(w, e, id);
        RefusedIntent(w.db, x.claim, x.before, w.now, id);
        if tx.value.phase == Settled {
          var mid := w.(db := tx.docs, history := w.history.(settled := w.history.settled[x.claim.op.id := x.before]));
          PutKeepsUnknown(w, mid, e, Confirming(x.claim, x.deadline, tx.value), id);
        } else {
          PutKeepsUnknown(w, w.(db := tx.docs), e, Journaled(x.claim, x.deadline, tx.value), id);
        }
      } else {
        ExitKeepsUnknown(w, e, false, id);
      }
    }
  }

  lemma StartCommandKeepsUnknown(w: World, e: Pid, id: InstanceId)
    requires Safe(w) && Unknown(w, id)
    ensures Unknown(StartCommandStep(w, e), id) && Untouched(w, StartCommandStep(w, e), id)
  {
    hide WorkerOk, ExecutorOk, Live, Matches, KindOf, Target, Holds, HasNonce, WorkerLease, Proven, Current, ClaimOk,
      RecordOk, WroteSettled, SameRuntime, OperationOk, InstanceOk, LeaseOk, EffectOk, Safe, Journaling, Exclusive;
    if e in w.executors && w.executors[e].at.Cleared? {
      if w.now < w.executors[e].at.deadline { OwnerIsElsewhere(w, e, id); } else { ExitKeepsUnknown(w, e, false, id); }
    }
  }

  lemma SettleKeepsUnknown(w: World, e: Pid, id: InstanceId)
    requires Safe(w) && Unknown(w, id)
    ensures Unknown(SettleStep(w, e), id) && Untouched(w, SettleStep(w, e), id)
  {
    hide EffectOk, WorkerOk, ExecutorOk, Live, Matches, KindOf, Target, Holds, HasNonce, WorkerLease, Proven, Current,
      ClaimOk, RecordOk, WroteSettled, SameRuntime, Owned, OperationOk, InstanceOk, LeaseOk, Journaling, Exclusive;
    if e in w.executors && w.executors[e].at.Reinspected? {
      var x := w.executors[e].at;
      var tx := ReportTx(w.db, x.claim, x.record, x.seen, Settled);
      if tx.Done? {
        OwnerIsElsewhere(w, e, id);
        var mid := w.(db := tx.docs, history := w.history.(settled := w.history.settled[x.claim.op.id := x.seen]));
        PutKeepsUnknown(w, mid, e, Confirming(x.claim, x.deadline, tx.value), id);
      } else {
        ExitKeepsUnknown(w, e, false, id);
      }
    }
  }

  /** Whoever reports wrote a settled record, so not this one. */
  lemma ReportKeepsUnknown(w: World, e: Pid, id: InstanceId)
    requires Safe(w) && Unknown(w, id)
    ensures Unknown(ReportStep(w, e), id) && Untouched(w, ReportStep(w, e), id)
  {
    hide Coupling, Journaling, Exclusive, ExecutorOk, Live, Matches, KindOf, Target, Holds, HasNonce, LeaseOk,
      EffectOk, Owned, WorkerOk;
    if e in w.executors && w.executors[e].at.Confirmed? {
      var x := w.executors[e].at;
      if ReportTx(w.db, x.claim, x.record, x.seen, Verified).Done? {
        OwnerIsElsewhere(w, e, id);
        assert w.executors - {e} == map[];
        ElsewhereKeepsUnknown(w, ReportStep(w, e), e, id);
      } else {
        ExitKeepsUnknown(w, e, false, id);
      }
    }
  }

  lemma ExecutorStepKeepsUnknown(w: World, e: Pid, act: ExecutorAct, id: InstanceId)
    requires Safe(w) && Unknown(w, id)
    ensures Unknown(ExecutorStep(w, e, act), id) && Untouched(w, ExecutorStep(w, e, act), id)
  {
    hide Safe, Unknown, ExecutorOk, ClaimTx, Exit, PutE, DaemonOf, JournalTx, LaunchTx, ReportTx, SameRuntime, Live,
      Matches, KindOf, Target, Holds, HasNonce, WorkerLease, Proven, Current, ClaimOk, RecordOk, WroteSettled, Owned,
      RuntimeIn, Admissible, StartCommandStep, CommandReturnsStep, ReinspectStep, SettleStep, ConfirmStep, ReportStep,
      KillExecutorStep, OperationOk, InstanceOk, LeaseOk, EffectOk, WorkerOk, Owns, ClaimStep, ArmStep, InspectStep,
      JournalStep, ClearStep;
    match act
    case Journal => JournalKeepsUnknown(w, e, id);
    case StartCommand => StartCommandKeepsUnknown(w, e, id);
    case Settle => SettleKeepsUnknown(w, e, id);
    case Report => ReportKeepsUnknown(w, e, id);
    case _ =>
      ExecutorFrame(w, e, act);
      SilentKeepsUnknown(w, ExecutorStep(w, e, act), id);
  }

  lemma StepKeepsUnknown(w: World, l: Label, id: InstanceId)
    requires Safe(w) && Unknown(w, id)
    ensures Unknown(Step(w, l), id) && Untouched(w, Step(w, l), id)
  {
    hide Safe, Unknown, StartCommandStep, CommandReturnsStep, ReinspectStep, SettleStep, ConfirmStep, ReportStep,
      KillExecutorStep, Unanswered, DaemonOf, Pending, ReserveTx, Put, SimChangeTx, Failed, MintTx, ReadBackTx,
      Actual, Target, FinishTx, Completed, CompensateTx, Live, Matches, KindOf, Holds, HasNonce, WorkerLease, Proven,
      Current, ClaimOk, RecordOk, WroteSettled, SameRuntime, Distinct, AdmitTx, ClaimTx, Exit, PutE, JournalTx,
      LaunchTx, ReportTx, RuntimeIn, Terminal, SimOf, Owned, PutOnce, WorkerStep, Coupling, ClientStep, ExecutorStep,
      AdvanceStep, ForeignStep, FirstPending, TickOn;
    match l
    case Client(_, _, _, _, _, _, _, _, _) => ClientKeepsUnknown(w, l, id);
    case Enroll(j) => SilentKeepsUnknown(w, EnrollStep(w, j), id);
    case Tick(pid, enabled) =>
      TickFrame(w, pid, enabled);
      SilentKeepsUnknown(w, TickStep(w, pid, enabled), id);
    case ByWorker(pid, work) =>
      WorkerFrame(w, pid, work);
      SilentKeepsUnknown(w, WorkerStep(w, pid, work), id);
    case ByExecutor(e, act) => ExecutorStepKeepsUnknown(w, e, act, id);
    case _ =>
      EnvironmentFrame(w, l);
      SilentKeepsUnknown(w, Step(w, l), id);
  }

  /** No tick, recovery request, new lease, restart, crash or foreign writer gets past an
      unknown outcome: no further command for the instance, the record stands, and the
      instance never shows a settled state again. */
  lemma {:induction false} UnknownOutcomeIsPermanent(w: World, labels: seq<Label>, id: InstanceId)
    requires Safe(w) && Unknown(w, id)
    ensures var w' := Run(w, labels);
            && Unknown(w', id) && Untouched(w, w', id)
            && id in w'.db.instances && !w'.db.instances[id].state.Idle?
            && w'.db.instances[id].operation == Some(w.db.effects[id].op)
    decreases |labels|
  {
    if labels != [] {
      var before := labels[..|labels| - 1];
      UnknownOutcomeIsPermanent(w, before, id);
      RunKeepsSafe(w, before);
      StepKeepsUnknown(Run(w, before), labels[|labels| - 1], id);
    }
    RunKeepsSafe(w, labels);
    var w' := Run(w, labels);
    assert EffectOk(w'.db, id) && InstanceOk(w'.db, id);
  }
}
