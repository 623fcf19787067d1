/**
 One call of the production backend as a function of what it finds and of what the
 environment decides, and exactly when it gives a result.
 */
module LifecycleCalls {
  import opened Schema
  import opened LifecycleModel

  /** What the environment decides during one execution: busy stores, clock readings,
      policy checks, failed inspections, the daemon's reaction. */
  datatype Weather = Weather(
    mintBusy: bool, mintedAt: real, mintEnabled: bool, mintBound: bool, nonce: Nonce, binding: nat, timeout: real,
    gaveUp: bool, helperFails: bool, readBusy: bool,
    claimBusy: bool, claimedAt: real, claimBinding: nat, bound: bool, enabled: bool,
    inspects: bool, healthBefore: bool, journalBusy: bool, journaledAt: real,
    launchBusy: bool, launchedAt: real, inTime: bool, outcome: Option<Obs>, acknowledged: bool,
    reinspects: bool, healthAfter: bool, settleBusy: bool,
    verifies: bool, healthAtEnd: bool, reportBusy: bool)

  /** A failed call, or one whose executor is still running and must not be raced. */
  datatype Failure = EffectFailed | EffectInProgress

  /** The documents and the runtimes a call works on. */
  datatype Site = Site(db: Db, runtimes: map<InstanceId, Obs>)

  function At(s: Site, id: InstanceId): Obs { RuntimeIn(s.runtimes, id) }

  // ----------------------------------------------------------------- step by step

  /** An inspection sees the runtime and its health of the moment. */
  function Look(s: Site, id: InstanceId, healthy: bool): Site {
    s.(runtimes := s.runtimes[id := At(s, id).(healthy := Some(healthy))])
  }

  /** From an intent record to a settled one. */
  function ActOf(s: Site, claim: Claim, record: Effect, e: Weather): (Site, Option<Effect>) {
    var id := claim.lease.instance;
    if e.launchBusy || LaunchTx(s.db, claim, e.launchedAt).Raise? || !e.inTime then (s, None)
    else
      var s1 := if e.outcome.Some? then s.(runtimes := s.runtimes[id := e.outcome.value]) else s;
      if !e.acknowledged || !e.reinspects then (s1, None)
      else
        var s2 := Look(s1, id, e.healthAfter);
        var tx := ReportTx(s2.db, claim, record, At(s2, id), Settled);
        if e.settleBusy || tx.Raise? then (s2, None) else (s2.(db := tx.docs), Some(tx.value))
  }

  /** Verification and the verified record. */
  function ConfirmOf(s: Site, claim: Claim, record: Effect, e: Weather): (Site, bool)
    requires record.observation.Some?
  {
    var id := claim.lease.instance;
    var s1 := Look(s, id, e.healthAtEnd);
    var seen := At(s1, id);
    if !e.verifies || seen.state != record.desired || (seen.state == Running && seen.healthy != Some(true))
       || !SameRuntime(seen, record.observation.value) then (s1, false)
    else
      var tx := ReportTx(s1.db, claim, record, seen, Verified);
      if e.reportBusy || tx.Raise? then (s1, false) else (s1.(db := tx.docs), true)
  }

  /** From the journal record to the end. */
  function PerformOf(s: Site, claim: Claim, record: Effect, e: Weather): (Site, bool)
    requires record.phase == Intent || record.observation.Some?
  {
    if record.phase != Intent then ConfirmOf(s, claim, record, e)
    else
      var (s1, settled) := ActOf(s, claim, record, e);
      if settled.None? then (s1, false) else ConfirmOf(s1, claim, settled.value, e)
  }

  /** `execute` after the lease is claimed. */
  function WorkOf(s: Site, claim: Claim, e: Weather): (Site, bool) {
    var id := claim.lease.instance;
    if !e.inspects then (s, false)
    else
      var s1 := Look(s, id, e.healthBefore);
      var tx := JournalTx(s1.db, claim, At(s1, id), e.journaledAt);
      if e.journalBusy || tx.Raise? then (s1, false)
      else
        PerformOf(s1.(db := tx.docs), claim, tx.value, e)
  }

  function ExecuteOf(s: Site, nonce: Nonce, e: Weather): (Site, bool) {
    var tx := ClaimTx(s.db, nonce, e.claimedAt, e.claimBinding, e.bound, e.enabled);
    if e.claimBusy || tx.Raise? then (s, false) else WorkOf(s.(db := tx.docs), tx.value, e)
  }

  /** `_run`. */
  function RunOf(s: Site, op: Operation, restore: bool, e: Weather): (Site, Result<Obs, Failure>) {
    var minted := MintTx(s.db, op, restore, e.mintEnabled, e.mintBound, e.nonce, e.binding, e.mintedAt + e.timeout);
    if e.mintBusy || minted.Raise? then (s, Err(EffectFailed))
    else
      var (s1, ok) := ExecuteOf(s.(db := minted.docs), e.nonce, e);
      if e.gaveUp then (s1, Err(EffectInProgress))
      else if !ok || e.helperFails then (s1, Err(EffectFailed))
      else
        var read := ReadBackTx(s1.db, op, restore);
        (s1, if e.readBusy || read.Raise? then Err(EffectFailed) else Ok(read.value))
  }

  // --------------------------------------------------------------- what it depends on

  /** The lease is issued: the backend is enabled for a new effect, and bound. */
  ghost predicate Issues(restore: bool, e: Weather) { !e.mintBusy && e.mintBound && (!restore ==> e.mintEnabled) }

  /** And claimed by the helper, in time, under the same binding. */
  ghost predicate Claims(restore: bool, e: Weather) {
    && !e.claimBusy && e.claimedAt < e.mintedAt + e.timeout && e.claimBinding == e.binding && e.bound
    && (!restore ==> e.enabled)
  }

  /** The last effect's outcome is known and is no later one's, and the runtime is the
      operation's baseline or, for a restore, its own last result. */
  ghost predicate Startable(s: Site, op: Operation, restore: bool, e: Weather)
    requires op.fence.Some?
  {
    && (op.instance in s.db.effects ==>
          var r := s.db.effects[op.instance];
          r.phase != Intent && r.binding == e.binding && r.fence <= op.fence.value)
    && (|| SameRuntime(At(s, op.instance), op.baseline)
        || (restore && op.instance in s.db.effects && s.db.effects[op.instance].op == op.id
            && s.db.effects[op.instance].observation.Some?
            && SameRuntime(At(s, op.instance), s.db.effects[op.instance].observation.value)))
  }

  /** The intent is on record. */
  ghost predicate Journals(s: Site, op: Operation, restore: bool, e: Weather)
    requires op.fence.Some?
  {
    && Issues(restore, e) && Claims(restore, e) && e.inspects && !e.journalBusy && e.journaledAt < e.mintedAt + e.timeout
    && Startable(s, op, restore, e)
  }

  /** The daemon has something to do. */
  ghost predicate Needed(s: Site, op: Operation, restore: bool) { At(s, op.instance).state != Target(op, restore) }

  /** The command is given in time, acknowledged, and its result recorded. */
  ghost predicate Settles(e: Weather) {
    && !e.launchBusy && e.launchedAt < e.mintedAt + e.timeout && e.inTime && e.acknowledged && e.reinspects && !e.settleBusy
  }

  /** What the daemon then shows, health aside. */
  ghost function Shown(s: Site, op: Operation, restore: bool, e: Weather): Obs {
    if Needed(s, op, restore) && e.outcome.Some? then e.outcome.value else At(s, op.instance)
  }

  /** That is what was wanted, and it can be recorded so. */
  ghost predicate Verifies(s: Site, op: Operation, restore: bool, e: Weather) {
    && Shown(s, op, restore, e).state == Target(op, restore)
    && e.verifies && (Target(op, restore) == Running ==> e.healthAtEnd) && !e.reportBusy
  }

  /** The effect is found done and recorded as verified. */
  ghost predicate Performs(s: Site, op: Operation, restore: bool, e: Weather)
    requires op.fence.Some?
  {
    && Journals(s, op, restore, e) && (Needed(s, op, restore) ==> Settles(e))
    && Verifies(s, op, restore, e)
  }

  /** The parent waits for the helper and reads its record back. */
  ghost predicate Delivers(s: Site, op: Operation, restore: bool, e: Weather)
    requires op.fence.Some?
  {
    Performs(s, op, restore, e) && !e.gaveUp && !e.helperFails && !e.readBusy
  }

  /** The call leaves an intent behind whose outcome nobody knows. */
  ghost predicate LeavesUnknown(s: Site, op: Operation, restore: bool, e: Weather)
    requires op.fence.Some?
  {
    Journals(s, op, restore, e) && Needed(s, op, restore) && !Settles(e)
  }

  // ------------------------------------------------------------------ exactly when

  /** A claim of this operation under its own fence, the operation held. */
  ghost predicate Held(db: Db, claim: Claim, op: Operation, restore: bool, e: Weather) {
    && op.fence.Some? && claim.op == op && claim.lease.op == op.id && claim.lease.instance == op.instance
    && claim.lease.fence == op.fence.value && claim.lease.restore == restore && claim.lease.binding == e.binding
    && claim.lease.expires == e.mintedAt + e.timeout
    && Owned(db, op.id, op.fence.value) && db.operations[op.id] == op
  }

  lemma ConfirmExactly(s: Site, claim: Claim, record: Effect, op: Operation, restore: bool, e: Weather)
    requires Held(s.db, claim, op, restore, e) && record.observation.Some?
    requires SameRuntime(record.observation.value, At(s, op.instance))
    ensures var (s', ok) := ConfirmOf(s, claim, record, e);
            var seen := At(s, op.instance).(healthy := Some(e.healthAtEnd));
            && (ok <==> e.verifies && seen.state == record.desired && (seen.state == Running ==> e.healthAtEnd) && !e.reportBusy)
            && At(s', op.instance) == seen
            && s'.db.operations == s.db.operations && s'.db.instances == s.db.instances && s'.db.leases == s.db.leases
            && s'.db.effects ==
                 if ok then s.db.effects[op.instance := record.(phase := Verified, observation := Some(seen))] else s.db.effects
  {}

  lemma ActExactly(s: Site, claim: Claim, record: Effect, op: Operation, restore: bool, e: Weather)
    requires Held(s.db, claim, op, restore, e)
    ensures var (s', settled) := ActOf(s, claim, record, e);
            var shown := if e.outcome.Some? then e.outcome.value else At(s, op.instance);
            && (settled.Some? <==> Settles(e))
            && (settled.Some? ==>
                  && settled.value == record.(phase := Settled, observation := Some(At(s', op.instance)))
                  && SameRuntime(At(s', op.instance), shown)
                  && s'.db == s.db.(effects := s.db.effects[op.instance := settled.value]))
            && (settled.None? ==> s'.db == s.db)
  {}

  lemma JournalExactly(s: Site, claim: Claim, op: Operation, restore: bool, e: Weather)
    requires Held(s.db, claim, op, restore, e)
    ensures var before := At(Look(s, op.instance, e.healthBefore), op.instance);
            var tx := JournalTx(s.db, claim, before, e.journaledAt);
            && (tx.Done? <==> Startable(s, op, restore, e) && e.journaledAt < e.mintedAt + e.timeout)
            && (tx.Done? ==>
                  && tx.docs == s.db.(effects := tx.docs.effects, events := tx.docs.events)
                  && tx.docs.effects == s.db.effects[op.instance := tx.value]
                  && tx.value == Effect(op.id, op.fence.value, restore, e.binding, before, Target(op, restore),
                                        if Needed(s, op, restore) then Intent else Settled,
                                        if Needed(s, op, restore) then None else Some(before)))
  {}

  /** What a helper that got as far as `journals` leaves on record. */
  ghost predicate Leaves(s: Site, s': Site, op: Operation, restore: bool, e: Weather, journals: bool, ok: bool)
    requires op.fence.Some?
  {
    var id := op.instance;
    && s'.db.operations == s.db.operations && s'.db.instances == s.db.instances
    && if !journals then !ok && s'.db.effects == s.db.effects && SameRuntime(At(s', id), At(s, id))
       else
         && id in s'.db.effects && s'.db.effects == s.db.effects[id := s'.db.effects[id]]
         && var r := s'.db.effects[id];
            && r.op == op.id && r.binding == e.binding && r.fence == op.fence.value && r.restore == restore
            && if Needed(s, op, restore) && !Settles(e) then !ok && r.phase == Intent
               else
                 && r.phase == (if ok then Verified else Settled) && r.observation.Some?
                 && SameRuntime(At(s', id), r.observation.value) && SameRuntime(At(s', id), Shown(s, op, restore, e))
                 && (ok ==> r.observation.value == Shown(s, op, restore, e).(healthy := Some(e.healthAtEnd)))
  }

  /** A settled record of this very call. */
  ghost predicate SettledHere(s: Site, s': Site, record: Effect, op: Operation, restore: bool, e: Weather)
    requires op.fence.Some?
  {
    var id := op.instance;
    && s'.db.operations == s.db.operations && s'.db.instances == s.db.instances
    && s'.db.effects == s.db.effects[id := record]
    && record.op == op.id && record.binding == e.binding && record.fence == op.fence.value && record.restore == restore
    && record.desired == Target(op, restore) && record.phase == Settled && record.observation.Some?
    && SameRuntime(record.observation.value, At(s', id)) && SameRuntime(At(s', id), Shown(s, op, restore, e))
    && (Needed(s, op, restore) ==> Settles(e))
  }

  lemma ConfirmLeaves(s: Site, s1: Site, claim: Claim, record: Effect, op: Operation, restore: bool, e: Weather)
    requires Held(s1.db, claim, op, restore, e) && SettledHere(s, s1, record, op, restore, e)
    ensures var (s', ok) := ConfirmOf(s1, claim, record, e);
            Leaves(s, s', op, restore, e, true, ok) && (ok <==> Verifies(s, op, restore, e))
  {
    hide ConfirmOf, Settles, Held;
    ConfirmExactly(s1, claim, record, op, restore, e);
  }

  lemma WorkExactly(s: Site, claim: Claim, op: Operation, restore: bool, e: Weather)
    requires Held(s.db, claim, op, restore, e)
    ensures var (s', ok) := WorkOf(s, claim, e);
            var journals := e.inspects && !e.journalBusy && e.journaledAt < e.mintedAt + e.timeout && Startable(s, op, restore, e);
            && Leaves(s, s', op, restore, e, journals, ok)
            && (ok <==> journals && (Needed(s, op, restore) ==> Settles(e)) && Verifies(s, op, restore, e))
  {
    hide ActOf, ConfirmOf, JournalTx, Startable, Settles, Held, Verifies;
    var id := op.instance;
    var s1 := Look(s, id, e.healthBefore);
    HeldBy(s.db, claim, op, restore, e);
    JournalExactly(s, claim, op, restore, e);
    var tx := JournalTx(s1.db, claim, At(s1, id), e.journaledAt);
    if e.inspects && !e.journalBusy && tx.Done? {
      var s2 := s1.(db := tx.docs);
      HeldStays(s.db, s2.db, claim, op, restore, e);
      if tx.value.phase != Intent {
        ConfirmLeaves(s, s2, claim, tx.value, op, restore, e);
      } else {
        ActExactly(s2, claim, tx.value, op, restore, e);
        var (s3, record) := ActOf(s2, claim, tx.value, e);
        if record.Some? {
          HeldStays(s2.db, s3.db, claim, op, restore, e);
          ConfirmLeaves(s, s3, claim, record.value, op, restore, e);
        }
      }
    }
  }

  lemma HeldBy(db: Db, claim: Claim, op: Operation, restore: bool, e: Weather)
    requires Held(db, claim, op, restore, e)
    ensures op.fence.Some? && claim.lease.instance == op.instance
  {}

  lemma HeldStays(db: Db, db': Db, claim: Claim, op: Operation, restore: bool, e: Weather)
    requires Held(db, claim, op, restore, e) && db'.operations == db.operations && db'.instances == db.instances
    ensures Held(db', claim, op, restore, e)
  {}

  /** The operation is being worked on, in this direction, under a nonce nobody has used. */
  ghost predicate Working(db: Db, op: Operation, restore: bool, e: Weather) {
    && op.fence.Some? && Owned(db, op.id, op.fence.value) && db.operations[op.id] == op
    && restore == (op.phase == RollingBack) && e.nonce !in db.leases
  }

  lemma MintExactly(db: Db, op: Operation, restore: bool, e: Weather)
    requires Working(db, op, restore, e)
    ensures var tx := MintTx(db, op, restore, e.mintEnabled, e.mintBound, e.nonce, e.binding, e.mintedAt + e.timeout);
            && (!e.mintBusy && tx.Done? <==> Issues(restore, e))
            && (tx.Done? ==>
                  && tx.docs.operations == db.operations && tx.docs.instances == db.instances && tx.docs.effects == db.effects
                  && tx.docs.leases == db.leases[e.nonce :=
                       Lease(op.id, op.instance, op.fence.value, restore, e.binding, false, e.mintedAt + e.timeout)])
  {}

  lemma ClaimExactly(db: Db, op: Operation, restore: bool, e: Weather)
    requires op.fence.Some? && Owned(db, op.id, op.fence.value) && db.operations[op.id] == op && restore == (op.phase == RollingBack)
    requires e.nonce in db.leases
    requires db.leases[e.nonce] == Lease(op.id, op.instance, op.fence.value, restore, e.binding, false, e.mintedAt + e.timeout)
    ensures var tx := ClaimTx(db, e.nonce, e.claimedAt, e.claimBinding, e.bound, e.enabled);
            && (!e.claimBusy && tx.Done? <==> Claims(restore, e))
            && (tx.Done? ==>
                  && tx.docs.operations == db.operations && tx.docs.instances == db.instances && tx.docs.effects == db.effects
                  && Held(tx.docs, tx.value, op, restore, e))
  {}

  lemma ReadBackExactly(s: Site, s': Site, op: Operation, restore: bool, e: Weather)
    requires op.fence.Some? && Owned(s.db, op.id, op.fence.value) && Leaves(s, s', op, restore, e, true, true)
    ensures ReadBackTx(s'.db, op, restore) == Done(s'.db, Shown(s, op, restore, e).(healthy := Some(e.healthAtEnd)))
  {}

  lemma SameEffectsSame(s: Site, t: Site, op: Operation, restore: bool, e: Weather)
    requires t.runtimes == s.runtimes && t.db.effects == s.db.effects && op.fence.Some?
    ensures Startable(t, op, restore, e) == Startable(s, op, restore, e)
    ensures Needed(t, op, restore) == Needed(s, op, restore) && Shown(t, op, restore, e) == Shown(s, op, restore, e)
    ensures Verifies(t, op, restore, e) == Verifies(s, op, restore, e)
  {}

  lemma SameStartLeaves(s: Site, t: Site, s': Site, op: Operation, restore: bool, e: Weather, journals: bool, ok: bool)
    requires t.runtimes == s.runtimes && t.db.effects == s.db.effects && op.fence.Some?
    requires t.db.operations == s.db.operations && t.db.instances == s.db.instances && Leaves(t, s', op, restore, e, journals, ok)
    ensures Leaves(s, s', op, restore, e, journals, ok)
  {}

  lemma NothingLeft(s: Site, s': Site, op: Operation, restore: bool, e: Weather)
    requires s'.runtimes == s.runtimes && s'.db.effects == s.db.effects && op.fence.Some?
    requires s'.db.operations == s.db.operations && s'.db.instances == s.db.instances
    ensures Leaves(s, s', op, restore, e, false, false)
  {}

  lemma ExecuteExactly(s: Site, op: Operation, restore: bool, e: Weather)
    requires op.fence.Some? && Owned(s.db, op.id, op.fence.value) && s.db.operations[op.id] == op && restore == (op.phase == RollingBack)
    requires e.nonce in s.db.leases && Issues(restore, e)
    requires s.db.leases[e.nonce] == Lease(op.id, op.instance, op.fence.value, restore, e.binding, false, e.mintedAt + e.timeout)
    ensures var (s', ok) := ExecuteOf(s, e.nonce, e);
            Leaves(s, s', op, restore, e, Journals(s, op, restore, e), ok) && (ok <==> Performs(s, op, restore, e))
  {
    hide ClaimTx, WorkOf, Leaves, Startable, Verifies, Settles, Owned, Held, Needed, Shown, Claims;
    ClaimExactly(s.db, op, restore, e);
    var tx := ClaimTx(s.db, e.nonce, e.claimedAt, e.claimBinding, e.bound, e.enabled);
    if !e.claimBusy && tx.Done? {
      var t := s.(db := tx.docs);
      WorkExactly(t, tx.value, op, restore, e);
      SameEffectsSame(s, t, op, restore, e);
      var (s', ok) := WorkOf(t, tx.value, e);
      SameStartLeaves(s, t, s', op, restore, e, Journals(s, op, restore, e), ok);
    } else {
      NothingLeft(s, s, op, restore, e);
    }
  }

  /** A call gives a result exactly when it delivers one, and is in progress exactly when the
      parent gave up on a helper it had started. */
  lemma RunExactly(s: Site, op: Operation, restore: bool, e: Weather)
    requires Working(s.db, op, restore, e)
    ensures var (s', r) := RunOf(s, op, restore, e);
            && Leaves(s, s', op, restore, e, Journals(s, op, restore, e), Performs(s, op, restore, e))
            && (r.Ok? <==> Delivers(s, op, restore, e))
            && (r.Ok? ==> r.value == Shown(s, op, restore, e).(healthy := Some(e.healthAtEnd)))
            && (r == Err(EffectInProgress) <==> Issues(restore, e) && e.gaveUp)
  {
    hide MintTx, ExecuteOf, ReadBackTx, Leaves, Startable, Verifies, Settles, Issues, Claims, Shown, Needed, Owned;
    MintExactly(s.db, op, restore, e);
    var minted := MintTx(s.db, op, restore, e.mintEnabled, e.mintBound, e.nonce, e.binding, e.mintedAt + e.timeout);
    if !e.mintBusy && minted.Done? {
      var t := s.(db := minted.docs);
      StillOwned(s.db, t.db, op);
      ExecuteExactly(t, op, restore, e);
      SameEffectsSame(s, t, op, restore, e);
      var (s1, ok) := ExecuteOf(t, e.nonce, e);
      SameStartLeaves(s, t, s1, op, restore, e, Journals(s, op, restore, e), ok);
      if ok { PerformsJournals(s, op, restore, e); ReadBackExactly(s, s1, op, restore, e); }
    } else {
      NothingLeft(s, s, op, restore, e);
    }
  }

  lemma PerformsJournals(s: Site, op: Operation, restore: bool, e: Weather)
    requires op.fence.Some? && Performs(s, op, restore, e)
    ensures Journals(s, op, restore, e)
  {}

  lemma StillOwned(db: Db, db': Db, op: Operation)
    requires op.fence.Some? && Owned(db, op.id, op.fence.value) && db'.operations == db.operations && db'.instances == db.instances
    ensures Owned(db', op.id, op.fence.value)
  {}

  // --------------------------------------------------------------- used-up nonces

  lemma ReportKeepsLeases(db: Db, claim: Claim, record: Effect, seen: Obs, phase: EffectPhase)
    ensures After(ReportTx(db, claim, record, seen, phase), db).leases == db.leases
  {
    hide Owned;
  }

  lemma ActKeepsLeases(s: Site, claim: Claim, record: Effect, e: Weather)
    ensures ActOf(s, claim, record, e).0.db.leases == s.db.leases
  {
    hide LaunchTx, ReportTx, RuntimeIn;
    var id := claim.lease.instance;
    var s1 := if e.outcome.Some? then s.(runtimes := s.runtimes[id := e.outcome.value]) else s;
    ReportKeepsLeases(s.db, claim, record, At(Look(s1, id, e.healthAfter), id), Settled);
  }

  lemma ConfirmKeepsLeases(s: Site, claim: Claim, record: Effect, e: Weather)
    requires record.observation.Some?
    ensures ConfirmOf(s, claim, record, e).0.db.leases == s.db.leases
  {
    hide Owned, SameRuntime;
  }

  lemma JournalKeepsLeases(db: Db, claim: Claim, before: Obs, now: real)
    ensures After(JournalTx(db, claim, before, now), db).leases == db.leases
  {
    hide Owned, Admissible;
  }

  lemma PerformKeepsLeases(s: Site, claim: Claim, record: Effect, e: Weather)
    requires record.phase == Intent || record.observation.Some?
    ensures PerformOf(s, claim, record, e).0.db.leases == s.db.leases
  {
    hide ActOf, ConfirmOf;
    if record.phase == Intent {
      ActKeepsLeases(s, claim, record, e);
      ActGivesObservation(s, claim, record, e);
      var (s1, settled) := ActOf(s, claim, record, e);
      if settled.Some? { ConfirmKeepsLeases(s1, claim, settled.value, e); }
    } else {
      ConfirmKeepsLeases(s, claim, record, e);
    }
  }

  lemma ActGivesObservation(s: Site, claim: Claim, record: Effect, e: Weather)
    ensures var settled := ActOf(s, claim, record, e).1; settled.Some? ==> settled.value.observation.Some?
  {
    hide Owned;
  }

  lemma WorkKeepsLeases(s: Site, claim: Claim, e: Weather)
    ensures WorkOf(s, claim, e).0.db.leases == s.db.leases
  {
    hide PerformOf;
    var s1 := Look(s, claim.lease.instance, e.healthBefore);
    JournalKeepsLeases(s1.db, claim, At(s1, claim.lease.instance), e.journaledAt);
    var tx := JournalTx(s1.db, claim, At(s1, claim.lease.instance), e.journaledAt);
    if tx.Done? { PerformKeepsLeases(s1.(db := tx.docs), claim, tx.value, e); }
  }

  /** A call uses up its own nonce and no other. */
  lemma RunUsesOneNonce(s: Site, op: Operation, restore: bool, e: Weather)
    ensures RunOf(s, op, restore, e).0.db.leases.Keys <= s.db.leases.Keys + {e.nonce}
  {
    hide WorkOf, ReadBackTx, Owned;
    var minted := MintTx(s.db, op, restore, e.mintEnabled, e.mintBound, e.nonce, e.binding, e.mintedAt + e.timeout);
    if minted.Done? {
      var tx := ClaimTx(minted.docs, e.nonce, e.claimedAt, e.claimBinding, e.bound, e.enabled);
      if tx.Done? { WorkKeepsLeases(s.(db := tx.docs), tx.value, e); }
    }
  }
}
